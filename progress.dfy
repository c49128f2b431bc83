/**
 * The progress hook: the list of completed level ids and the experience
 * total. Persistence to browser storage is outside the model; what the model
 * keeps of it is how a saved experience total is read back.
 */
module Progress {
  import opened Wrappers
  import opened Text

  /** `${courseId}-${levelId}`: the key under which a level is recorded. */
  function CompositeId(courseId: int, levelId: string): (id: string)
    ensures |id| > |levelId|
  {
    IntToString(courseId) + "-" + levelId
  }

  /** A digit string followed by a dash is cut off again at its first non-digit. */
  lemma SplitAtDash(s1: string, l1: string, s2: string, l2: string)
    requires AllDigits(s1) && AllDigits(s2)
    requires s1 + ("-" + l1) == s2 + ("-" + l2)
    ensures s1 == s2 && l1 == l2
  {
    LeadingDigitsOfDigitsThen(s1, "-" + l1);
    LeadingDigitsOfDigitsThen(s2, "-" + l2);
    assert l1 == (s1 + ("-" + l1))[|s1| + 1..];
    assert l2 == (s2 + ("-" + l2))[|s2| + 1..];
  }

  /** Two different (course, level) pairs never share a key. */
  lemma CompositeIdInjective(c1: nat, l1: string, c2: nat, l2: string)
    requires CompositeId(c1, l1) == CompositeId(c2, l2)
    ensures c1 == c2 && l1 == l2
  {
    var s1, s2 := NatToString(c1), NatToString(c2);
    assert IntToString(c1) == s1 && IntToString(c2) == s2;
    assert s1 + "-" + l1 == s1 + ("-" + l1);
    assert s2 + "-" + l2 == s2 + ("-" + l2);
    SplitAtDash(s1, l1, s2, l2);
    NatToStringInjective(c1, c2);
  }

  predicate NoDuplicates(s: seq<string>) {
    forall i, j :: 0 <= i < j < |s| ==> s[i] != s[j]
  }

  /** The list after `completeLevel` records `id`: unchanged if present, else `id` appended. */
  function WithLevel(levels: seq<string>, id: string): seq<string> {
    if id in levels then levels else levels + [id]
  }

  /** The experience after recording `id`: the reward is credited only the first time. */
  function XpAfter(levels: seq<string>, xp: int, id: string, reward: int): int {
    if id in levels then xp else xp + reward
  }

  /** Recording a level keeps every earlier entry and adds exactly that level. */
  lemma WithLevelMembership(levels: seq<string>, id: string)
    ensures forall x :: x in WithLevel(levels, id) <==> x in levels || x == id
    ensures |WithLevel(levels, id)| == if id in levels then |levels| else |levels| + 1
    ensures levels <= WithLevel(levels, id)
  {
  }

  /** Recording a level keeps the list free of duplicates. */
  lemma WithLevelNoDuplicates(levels: seq<string>, id: string)
    requires NoDuplicates(levels)
    ensures NoDuplicates(WithLevel(levels, id))
  {
    var r := WithLevel(levels, id);
    if id !in levels {
      forall i, j | 0 <= i < j < |r|
        ensures r[i] != r[j]
      {
        if j == |levels| {
          assert r[i] == levels[i];
        }
      }
    }
  }

  /** Completing the same level twice is the same as completing it once. */
  lemma CompleteTwiceIsOnce(levels: seq<string>, xp: int, id: string, reward: int)
    ensures WithLevel(WithLevel(levels, id), id) == WithLevel(levels, id)
    ensures XpAfter(WithLevel(levels, id), XpAfter(levels, xp, id, reward), id, reward)
         == XpAfter(levels, xp, id, reward)
  {
    assert id in WithLevel(levels, id);
  }

  /**
   * A saved experience total as the mount effect reads it back:
   * `parseInt(savedXP, 10) || 0`; `NaN` and 0 are both falsy and give 0.
   */
  function StoredXp(saved: string): (xp: int)
    ensures ParseInt(saved).None? ==> xp == 0
    ensures ParseInt(saved).Some? ==> xp == ParseInt(saved).value
  {
    match ParseInt(saved)
    case None => 0
    case Some(v) => if v == 0 then 0 else v
  }

  /** The total written back with `totalXP.toString()` is read back unchanged. */
  lemma StoredXpRoundTrip(xp: int)
    ensures StoredXp(IntToString(xp)) == xp
  {
    ParseIntOfIntToString(xp);
  }

  /** The completed levels and the experience total of one hook instance. */
  class ProgressStore {
    var completedLevels: seq<string>
    var totalXP: int

    ghost predicate Valid()
      reads this
    {
      NoDuplicates(completedLevels)
    }

    constructor ()
      ensures Valid() && completedLevels == [] && totalXP == 0
    {
      completedLevels := [];
      totalXP := 0;
    }

    /**
     * The part of the mount effect that restores the experience total: only a
     * non-empty saved value (a truthy string) replaces it.
     */
    method LoadXp(saved: Option<string>)
      modifies this
      ensures completedLevels == old(completedLevels)
      ensures totalXP == if saved.Some? && saved.value != "" then StoredXp(saved.value) else old(totalXP)
    {
      if saved.Some? && saved.value != "" {
        totalXP := StoredXp(saved.value);
      }
    }

    /** `completeLevel`: record the level once and credit its reward the first time only. */
    method CompleteLevel(courseId: int, levelId: string, xpReward: int)
      requires Valid()
      modifies this
      ensures Valid()
      ensures completedLevels == WithLevel(old(completedLevels), CompositeId(courseId, levelId))
      ensures totalXP == XpAfter(old(completedLevels), old(totalXP), CompositeId(courseId, levelId), xpReward)
      ensures IsLevelCompleted(courseId, levelId)
    {
      var compositeId := CompositeId(courseId, levelId);
      WithLevelNoDuplicates(completedLevels, compositeId);
      if compositeId in completedLevels {
        return;
      }
      totalXP := totalXP + xpReward;
      completedLevels := completedLevels + [compositeId];
    }

    /** `isLevelCompleted`: the level's key occurs in the list. */
    predicate IsLevelCompleted(courseId: int, levelId: string)
      reads this
      ensures IsLevelCompleted(courseId, levelId) <==>
        exists i :: 0 <= i < |completedLevels| && completedLevels[i] == CompositeId(courseId, levelId)
    {
      CompositeId(courseId, levelId) in completedLevels
    }

    /** `resetProgress`: both the list and the total are cleared. */
    method ResetProgress()
      modifies this
      ensures Valid()
      ensures completedLevels == [] && totalXP == 0
      ensures forall c, l :: !IsLevelCompleted(c, l)
    {
      completedLevels := [];
      totalXP := 0;
    }
  }
}
