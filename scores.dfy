/**
 * The sheet-music library page: the fixed list of scores, the search box and
 * category buttons that filter it, the difficulty badge colours, and the
 * reset action of the empty state.
 */
module Scores {
  import opened Text
  import opened Catalog
  import opened Sequences

  datatype MusicScore = MusicScore(id: int, title: string, artist: string, difficulty: string, category: string)

  /** The scores on the page, in display order. */
  const AllScores: seq<MusicScore> := [
    MusicScore(1, "平凡之路", "朴树", "初级", "流行"),
    MusicScore(2, "Hotel California", "Eagles", "高级", "摇滚"),
    MusicScore(3, "晴天", "周杰伦", "中级", "流行"),
    MusicScore(4, "Wonderful Tonight", "Eric Clapton", "初级", "蓝调"),
    MusicScore(5, "那些花儿", "朴树", "入门", "民谣"),
    MusicScore(6, "Wish You Were Here", "Pink Floyd", "中级", "前卫摇滚")
  ]

  /** The category button that selects every score. */
  const AllCategory := "全部"
  const Fingerstyle := "指弹"
  const Categories: seq<string> := [AllCategory, "流行", "民谣", "摇滚", "蓝调", Fingerstyle]

  /** The query occurs in the title or the artist, ignoring letter case. */
  predicate MatchesSearch(score: MusicScore, query: string) {
    Contains(ToLower(score.title), ToLower(query)) || Contains(ToLower(score.artist), ToLower(query))
  }

  predicate MatchesCategory(score: MusicScore, category: string) {
    category == AllCategory || score.category == category
  }

  predicate Keeps(score: MusicScore, query: string, category: string) {
    MatchesSearch(score, query) && MatchesCategory(score, category)
  }

  /**
   * `filteredScores`: the scores kept by the search and the category, a
   * subsequence of the input in its order.
   */
  function FilterScores(scores: seq<MusicScore>, query: string, category: string): (r: seq<MusicScore>)
    ensures |r| <= |scores|
    ensures forall s :: s in r <==> s in scores && Keeps(s, query, category)
    ensures IsSubsequence(r, scores)
  {
    if |scores| == 0 then []
    else
      var rest := FilterScores(scores[1..], query, category);
      assert scores == [scores[0]] + scores[1..];
      if Keeps(scores[0], query, category) then
        assert ([scores[0]] + rest)[1..] == rest;
        [scores[0]] + rest
      else rest
  }

  /** An empty query under the all-categories button keeps every score, in order. */
  lemma {:induction false} FilterKeepsAll(scores: seq<MusicScore>)
    ensures FilterScores(scores, "", AllCategory) == scores
  {
    if |scores| > 0 {
      ContainsEmpty(ToLower(scores[0].title));
      FilterKeepsAll(scores[1..]);
    }
  }

  /** Only the lower-cased query matters for the result. */
  lemma {:induction false} FilterIgnoresQueryCase(scores: seq<MusicScore>, q1: string, q2: string, category: string)
    requires ToLower(q1) == ToLower(q2)
    ensures FilterScores(scores, q1, category) == FilterScores(scores, q2, category)
  {
    if |scores| > 0 {
      FilterIgnoresQueryCase(scores[1..], q1, q2, category);
    }
  }

  /** Typing the query in capitals gives the same list as typing it in lower case. */
  lemma FilterUpperEqualsLower(scores: seq<MusicScore>, query: string, category: string)
    ensures FilterScores(scores, query, category) == FilterScores(scores, ToLower(query), category)
  {
    ToLowerIdempotent(query);
    FilterIgnoresQueryCase(scores, query, ToLower(query), category);
  }

  /** A category that no score is filed under leaves nothing, whatever the query. */
  lemma {:induction false} FilterUnusedCategory(scores: seq<MusicScore>, query: string, category: string)
    requires category != AllCategory
    requires forall i :: 0 <= i < |scores| ==> scores[i].category != category
    ensures FilterScores(scores, query, category) == []
  {
    if |scores| > 0 {
      assert !MatchesCategory(scores[0], category);
      FilterUnusedCategory(scores[1..], query, category);
    }
  }

  /** No listed score is filed under fingerstyle, so that button shows the empty state. */
  lemma FingerstyleIsEmpty(query: string)
    ensures FilterScores(AllScores, query, Fingerstyle) == []
  {
    FilterUnusedCategory(AllScores, query, Fingerstyle);
  }

  /** The search box and the selected category button. */
  datatype Filters = Filters(searchQuery: string, selectedCategory: string)

  const InitialFilters := Filters("", AllCategory)

  /** The reset button of the empty state: clear the query, select every category. */
  function ResetFilters(f: Filters): (r: Filters)
    ensures r == InitialFilters
    ensures FilterScores(AllScores, r.searchQuery, r.selectedCategory) == AllScores
  {
    FilterKeepsAll(AllScores);
    InitialFilters
  }

  const EmeraldBadge := "text-emerald-500 bg-emerald-50 border-emerald-100"
  const BlueBadge := "text-blue-500 bg-blue-50 border-blue-100"
  const AmberBadge := "text-amber-500 bg-amber-50 border-amber-100"
  const RoseBadge := "text-rose-500 bg-rose-50 border-rose-100"
  const PurpleBadge := "text-purple-500 bg-purple-50 border-purple-100"
  const SlateBadge := "text-slate-500 bg-slate-50 border-slate-100"

  /** `getDifficultyColor`. */
  function DifficultyColor(difficulty: string): (c: string)
    ensures difficulty !in DifficultyLevels ==> c == SlateBadge
  {
    if difficulty == "入门" then EmeraldBadge
    else if difficulty == "初级" then BlueBadge
    else if difficulty == "中级" then AmberBadge
    else if difficulty == "高级" then RoseBadge
    else if difficulty == "专家" then PurpleBadge
    else SlateBadge
  }

  /** The five levels get five different badges, none of them the default one. */
  lemma DifficultyColorsDistinct()
    ensures forall i, j :: 0 <= i < j < |DifficultyLevels| ==>
      DifficultyColor(DifficultyLevels[i]) != DifficultyColor(DifficultyLevels[j])
    ensures forall i :: 0 <= i < |DifficultyLevels| ==> DifficultyColor(DifficultyLevels[i]) != SlateBadge
  {
  }
}
