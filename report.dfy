/** The parts of an analysis computed from the final scores and the text:
    `_calculate_confidence` (star_analyzer.py:334-368), `_count_keywords_in_text`
    (324-332), `_extract_keywords` (428-438), `_determine_structure_pattern`
    (440-449), `_detect_mixed_emotions` (783-803) and `_assess_analysis_quality`
    (500-540). */
module Report {
  import opened Text
  import opened Categories
  import opened KeywordTable
  import opened SentenceTypes
  import opened Scoring

  // ---------------------------------------------------------------------------
  // _calculate_confidence

  /** "高", "中" or "低". */
  datatype Confidence = High | Medium | Low
  {
    function Label(): String
    {
      match this
      case High => "高"
      case Medium => "中"
      case Low => "低"
    }
  }

  /** The gap between the largest score and the second largest. */
  function ScoreGap(s: ScoreVector): (g: real)
    ensures g >= 0.0
  {
    MaxScore(s) - SecondMax(s)
  }

  /** The basic confidence judged on the score gap and the maximum. */
  function ConfidenceOf(s: ScoreVector): Confidence
  {
    if ScoreGap(s) > 0.5 && MaxScore(s) > 0.3 then High
    else if ScoreGap(s) > 0.2 && MaxScore(s) > 0.2 then Medium
    else Low
  }

  /** The primary category leads every other by more than `margin`. */
  predicate LeadsBy(s: ScoreVector, margin: real)
  {
    forall c: Category :: c != ArgMax(s) ==> s.Get(c) < MaxScore(s) - margin
  }

  /** The gap exceeds a margin exactly when the primary category leads every other
      category by more than it. */
  lemma GapExceedsIffLeads(s: ScoreVector, margin: real)
    ensures ScoreGap(s) > margin <==> LeadsBy(s, margin)
  {
    var c: Category :| c != ArgMax(s) && s.Get(c) == SecondMax(s);
    if LeadsBy(s, margin) {
      assert s.Get(c) < MaxScore(s) - margin;
    }
  }

  /** "高" exactly when the primary category scores above 0.3 and leads every other
      category by more than 0.5; "中" or better exactly when it scores above 0.2 and
      leads by more than 0.2. */
  lemma ConfidenceMeaning(s: ScoreVector)
    ensures ConfidenceOf(s) == High <==> MaxScore(s) > 0.3 && LeadsBy(s, 0.5)
    ensures ConfidenceOf(s) != Low <==> MaxScore(s) > 0.2 && LeadsBy(s, 0.2)
  {
    GapExceedsIffLeads(s, 0.5);
    GapExceedsIffLeads(s, 0.2);
  }

  /** Two categories sharing the largest score, all-zero scores among them, always
      give "低". */
  lemma TieIsLow(s: ScoreVector, c: Category, d: Category)
    requires c != d && s.Get(c) == s.Get(d) == MaxScore(s)
    ensures ConfidenceOf(s) == Low
  {
    GapZeroIffTie(s);
  }

  /** `last_confidence_details`; the two penalty keys are present exactly when the
      corresponding flag is set. */
  datatype ConfidenceDetails = ConfidenceDetails(
    scoreDiff: real, maxScore: real, secondMax: real, textLength: nat, keywordCount: nat,
    shortTextPenalty: bool, noKeywordsPenalty: bool)

  /** The details `_calculate_confidence` records for the scores of a text with
      `keywordCount` keyword hits. */
  function DetailsOf(s: ScoreVector, text: String, keywordCount: nat): (d: ConfidenceDetails)
    ensures d.scoreDiff == d.maxScore - d.secondMax >= 0.0
    ensures d.shortTextPenalty <==> d.textLength < 10
    ensures d.noKeywordsPenalty <==> d.keywordCount == 0
  {
    ConfidenceDetails(ScoreGap(s), MaxScore(s), SecondMax(s), |text|, keywordCount, |text| < 10, keywordCount == 0)
  }

  // ---------------------------------------------------------------------------
  // _count_keywords_in_text and _extract_keywords

  /** Every dictionary entry present in the text, repeated words counted again. */
  function TotalHits(kw: KeywordDictionary, text: String): nat
  {
    KeywordHits(kw, SENSE, text) + KeywordHits(kw, THINK, text)
      + KeywordHits(kw, ACT, text) + KeywordHits(kw, RELATE, text)
  }

  /** A word of the dictionary, in some category's list `i` at place `j`. */
  predicate InDictionary(kw: KeywordDictionary, w: String)
  {
    exists c: Category, i, j | 0 <= i < |kw.Lists(c)| && 0 <= j < |kw.Lists(c)[i].words| :: kw.Lists(c)[i].words[j] == w
  }

  /** `_extract_keywords`: the set of dictionary words present in the text. */
  function ExtractKeywords(kw: KeywordDictionary, text: String): set<String>
  {
    set c, i, j | c in AllCategories && 0 <= i < |kw.Lists(c)| && 0 <= j < |kw.Lists(c)[i].words|
                  && Contains(text, kw.Lists(c)[i].words[j]) :: kw.Lists(c)[i].words[j]
  }

  /** The extracted keywords are exactly the dictionary words that occur in the text. */
  lemma ExtractKeywordsMeaning(kw: KeywordDictionary, text: String, w: String)
    ensures w in ExtractKeywords(kw, text) <==> InDictionary(kw, w) && Contains(text, w)
  {
    AllCategoriesInOrder();
    if InDictionary(kw, w) && Contains(text, w) {
      var c: Category, i, j :| 0 <= i < |kw.Lists(c)| && 0 <= j < |kw.Lists(c)[i].words| && kw.Lists(c)[i].words[j] == w;
      assert c in AllCategories;
    }
  }

  /** No keyword is extracted exactly when the keyword count is zero. */
  lemma ExtractKeywordsEmptyIff(kw: KeywordDictionary, text: String)
    ensures ExtractKeywords(kw, text) == {} <==> TotalHits(kw, text) == 0
  {
    AllCategoriesInOrder();
    forall c: Category ensures KeywordHits(kw, c, text) > 0 <==> AnyPresent(text, kw.Lists(c)) {
      ListsHitsPositive(text, kw.Lists(c));
    }
    if TotalHits(kw, text) > 0 {
      var c: Category :| KeywordHits(kw, c, text) > 0;
      var i, j :| 0 <= i < |kw.Lists(c)| && 0 <= j < |kw.Lists(c)[i].words| && Contains(text, kw.Lists(c)[i].words[j]);
      assert kw.Lists(c)[i].words[j] in ExtractKeywords(kw, text);
    }
    if ExtractKeywords(kw, text) != {} {
      var w :| w in ExtractKeywords(kw, text);
      var c, i, j :| c in AllCategories && 0 <= i < |kw.Lists(c)| && 0 <= j < |kw.Lists(c)[i].words|
                     && Contains(text, kw.Lists(c)[i].words[j]) && kw.Lists(c)[i].words[j] == w;
      assert AnyPresent(text, kw.Lists(c));
    }
  }

  // ---------------------------------------------------------------------------
  // _determine_structure_pattern

  /** What follows the structure name in each pattern. */
  function PatternBody(c: Category): String
  {
    match c
    case SENSE => "私は【感動事象の主体】を【知覚動詞】した。その結果、【美・味・匂い等】に対して【きれい・おいしい等】と感じて感動した。"
    case THINK => "私は【感動事象の主体】を【知覚動詞】した。その結果、【理解・発見・納得等】に対して【わかった・なるほど等】と感じて感動した。"
    case ACT => "私は【感動事象の主体】が【感動事象の対象】に【行為動詞】するのを【知覚動詞】した。その結果、【努力・達成・成長等】に対して【できた・やった等】と感じて感動した。"
    case RELATE => "私は【感動事象の主体】が【感動事象の対象】に【関係動詞】するのを【知覚動詞】した。その結果、【愛・絆・感謝等】に対して【ありがたい・すばらしい等】と感じて感動した。"
  }

  /** "SV" for SENSE and THINK, "SOV" for ACT and RELATE. */
  function StructureName(c: Category): String
  {
    match c
    case SENSE => "SV"
    case THINK => "SV"
    case ACT => "SOV"
    case RELATE => "SOV"
  }

  /** The heading of a pattern, such as "SENSE型（SV構造）". */
  function PatternHeading(c: Category): String
  {
    Name(c) + "型（" + StructureName(c) + "構造）"
  }

  /** The basic structure sentence of the primary category, such as
      "SENSE型（SV構造）: 私は...". The sentence type the analyzer passes along does
      not take part. */
  function StructurePattern(c: Category): String
  {
    Render(PatternHeading(c), PatternBody(c))
  }

  /** A heading and a body joined by ": ". */
  function Render(heading: String, body: String): String
  {
    heading + (": " + body)
  }

  lemma RenderStartsWith(h: String, b: String)
    ensures StartsWith(Render(h, b), h)
  {
    assert Render(h, b)[..|h|] == h;
  }

  /** The patterns of the categories an SV sentence favours name the SV structure. */
  lemma SVStructurePatterns()
    ensures StartsWith(StructurePattern(SENSE), "SENSE型（SV構造）")
    ensures StartsWith(StructurePattern(THINK), "THINK型（SV構造）")
  {
    RenderStartsWith(PatternHeading(SENSE), PatternBody(SENSE));
    RenderStartsWith(PatternHeading(THINK), PatternBody(THINK));
  }

  /** The patterns of the categories an SOV sentence favours name the SOV structure. */
  lemma SOVStructurePatterns()
    ensures StartsWith(StructurePattern(ACT), "ACT型（SOV構造）")
    ensures StartsWith(StructurePattern(RELATE), "RELATE型（SOV構造）")
  {
    RenderStartsWith(PatternHeading(ACT), PatternBody(ACT));
    RenderStartsWith(PatternHeading(RELATE), PatternBody(RELATE));
  }

  // ---------------------------------------------------------------------------
  // _detect_mixed_emotions

  /** `threshold` */
  const MixedThreshold: real := 0.5

  /** The categories scoring at least the threshold, in declaration order. */
  function Significant(s: ScoreVector): (r: seq<Category>)
  {
    (if s.sense >= MixedThreshold then [SENSE] else [])
      + (if s.think >= MixedThreshold then [THINK] else [])
      + (if s.act >= MixedThreshold then [ACT] else [])
      + (if s.relate >= MixedThreshold then [RELATE] else [])
  }

  /** `a` comes before `b` in `sorted(..., key=score, reverse=True)`: a higher score,
      or the same score and an earlier place, since the sort is stable. */
  predicate Before(s: ScoreVector, a: Category, b: Category)
  {
    s.Get(a) > s.Get(b) || (s.Get(a) == s.Get(b) && Index(a) < Index(b))
  }

  predicate SortedDesc(s: ScoreVector, xs: seq<Category>)
  {
    forall k, l | 0 <= k < l < |xs| :: Before(s, xs[k], xs[l])
  }

  /** Places `c`, which comes later in declaration order than every element of `ys`,
      after every element scoring at least as much. */
  function InsertDesc(s: ScoreVector, c: Category, ys: seq<Category>): (r: seq<Category>)
    ensures multiset(r) == multiset(ys) + multiset{c}
  {
    if ys == [] then [c]
    else if s.Get(c) > s.Get(ys[0]) then [c] + ys
    else
      assert ys == [ys[0]] + ys[1..];
      [ys[0]] + InsertDesc(s, c, ys[1..])
  }

  /** `sorted(categories, key=score, reverse=True)` for categories listed in
      declaration order. */
  function SortDesc(s: ScoreVector, xs: seq<Category>): (r: seq<Category>)
    ensures multiset(r) == multiset(xs)
  {
    if xs == [] then []
    else
      assert xs == xs[..|xs| - 1] + [xs[|xs| - 1]];
      InsertDesc(s, xs[|xs| - 1], SortDesc(s, xs[..|xs| - 1]))
  }

  /** The first element of a sorted sequence comes before every later one. */
  lemma FirstBefore(s: ScoreVector, ys: seq<Category>, z: Category)
    requires SortedDesc(s, ys) && |ys| > 0 && z in ys[1..]
    ensures Before(s, ys[0], z)
  {
    var l :| 0 <= l < |ys[1..]| && ys[1..][l] == z;
    assert ys[l + 1] == z;
  }

  /** Putting `x` in front of a sorted sequence whose elements it all comes before
      keeps it sorted. */
  lemma ConsSorted(s: ScoreVector, x: Category, ys: seq<Category>)
    requires SortedDesc(s, ys)
    requires forall y | y in ys :: Before(s, x, y)
    ensures SortedDesc(s, [x] + ys)
  {
    var r := [x] + ys;
    forall k, l | 0 <= k < l < |r| ensures Before(s, r[k], r[l]) {
      assert r[l] == ys[l - 1] && r[l] in ys;
      if k > 0 { assert r[k] == ys[k - 1]; }
    }
  }

  lemma TailSorted(s: ScoreVector, ys: seq<Category>)
    requires SortedDesc(s, ys) && |ys| > 0
    ensures SortedDesc(s, ys[1..])
  {
    var tail := ys[1..];
    forall k, l | 0 <= k < l < |tail| ensures Before(s, tail[k], tail[l]) {
      assert tail[k] == ys[k + 1] && tail[l] == ys[l + 1];
    }
  }

  lemma {:induction false} InsertDescSorted(s: ScoreVector, c: Category, ys: seq<Category>)
    requires SortedDesc(s, ys)
    requires forall y | y in ys :: Index(y) < Index(c)
    ensures SortedDesc(s, InsertDesc(s, c, ys))
    decreases |ys|
  {
    if ys == [] {
    } else if s.Get(c) > s.Get(ys[0]) {
      forall y | y in ys ensures Before(s, c, y) {
        if y != ys[0] { assert y in ys[1..]; FirstBefore(s, ys, y); }
      }
      ConsSorted(s, c, ys);
    } else {
      var tail := ys[1..];
      TailSorted(s, ys);
      assert forall y | y in tail :: y in ys;
      InsertDescSorted(s, c, tail);
      var rt := InsertDesc(s, c, tail);
      forall z | z in rt ensures Before(s, ys[0], z) {
        assert z in multiset(rt);
        if z != c { FirstBefore(s, ys, z); } else { assert ys[0] in ys; }
      }
      ConsSorted(s, ys[0], rt);
    }
  }

  /** Listed in strictly increasing declaration order. */
  predicate IncreasingIndex(xs: seq<Category>)
  {
    forall k, l | 0 <= k < l < |xs| :: Index(xs[k]) < Index(xs[l])
  }

  /** Sorting categories listed in declaration order orders them by falling score,
      ties kept in declaration order, and loses or adds none. */
  lemma {:induction false} SortDescSorted(s: ScoreVector, xs: seq<Category>)
    requires IncreasingIndex(xs)
    ensures SortedDesc(s, SortDesc(s, xs))
    ensures multiset(SortDesc(s, xs)) == multiset(xs)
    decreases |xs|
  {
    if xs != [] {
      var init := xs[..|xs| - 1];
      var c := xs[|xs| - 1];
      SortDescSorted(s, init);
      var sorted := SortDesc(s, init);
      forall y | y in sorted ensures Index(y) < Index(c) {
        assert y in multiset(init);
        var k :| 0 <= k < |init| && init[k] == y;
      }
      InsertDescSorted(s, c, sorted);
    }
  }

  /** One entry of `mixed_emotions`. */
  datatype MixedEntry = MixedEntry(category: Category, score: real, rank: nat, ratio: real)

  /** The entry of rank `k + 1` among the sorted categories. */
  function MixedEntryAt(s: ScoreVector, sorted: seq<Category>, k: nat): MixedEntry
    requires k < |sorted|
  {
    var top := s.Get(sorted[0]);
    var score := s.Get(sorted[k]);
    MixedEntry(sorted[k], score, k + 1, if top > 0.0 then score / top else 0.0)
  }

  /** `_detect_mixed_emotions` */
  function MixedEmotions(s: ScoreVector): seq<MixedEntry>
  {
    var significant := Significant(s);
    if |significant| > 1 then
      var sorted := SortDesc(s, significant);
      seq(|sorted|, k requires 0 <= k < |sorted| => MixedEntryAt(s, SortDesc(s, significant), k))
    else []
  }

  lemma SignificantIncreasing(s: ScoreVector)
    ensures IncreasingIndex(Significant(s))
  {
  }

  lemma SignificantMembers(s: ScoreVector)
    ensures forall c: Category :: c in Significant(s) <==> s.Get(c) >= MixedThreshold
  {
  }

  lemma SignificantOnce(s: ScoreVector)
    ensures forall c: Category :: multiset(Significant(s))[c] <= 1
  {
  }

  lemma SignificantShape(s: ScoreVector)
    ensures IncreasingIndex(Significant(s))
    ensures forall c: Category :: c in Significant(s) <==> s.Get(c) >= MixedThreshold
    ensures forall c: Category :: multiset(Significant(s))[c] <= 1
  {
    SignificantIncreasing(s);
    SignificantMembers(s);
    SignificantOnce(s);
  }

  /** The sorted significant categories: each category reaching 0.5 exactly once,
      by falling score, ties in declaration order. */
  lemma SortedSignificant(s: ScoreVector)
    ensures |SortDesc(s, Significant(s))| == |Significant(s)|
    ensures SortedDesc(s, SortDesc(s, Significant(s)))
    ensures forall c: Category :: c in SortDesc(s, Significant(s)) <==> s.Get(c) >= MixedThreshold
  {
    var significant := Significant(s);
    var sorted := SortDesc(s, significant);
    SignificantShape(s);
    SortDescSorted(s, significant);
    assert |sorted| == |multiset(sorted)| == |multiset(significant)| == |significant|;
    forall c: Category ensures c in sorted <==> c in significant {
      assert c in sorted <==> c in multiset(sorted);
    }
  }

  /** Mixed emotions are reported only when at least two categories reach 0.5. */
  lemma MixedEmotionsPresent(s: ScoreVector)
    ensures MixedEmotions(s) != [] <==> |Significant(s)| >= 2
    ensures MixedEmotions(s) != [] ==> |MixedEmotions(s)| == |Significant(s)|
  {
    SortedSignificant(s);
  }

  /** The entries are those of the sorted significant categories, in order. */
  lemma MixedEntries(s: ScoreVector)
    ensures |Significant(s)| <= 1 ==> MixedEmotions(s) == []
    ensures |Significant(s)| > 1 ==>
              && |MixedEmotions(s)| == |SortDesc(s, Significant(s))|
              && forall k | 0 <= k < |MixedEmotions(s)| ::
                   MixedEmotions(s)[k] == MixedEntryAt(s, SortDesc(s, Significant(s)), k)
  {
  }

  /** Entries built from a sorted sequence of categories reaching 0.5: ranked
      1, 2, ..., and their ratio to the first lies in (0, 1], the first being 1. */
  lemma EntriesRanked(s: ScoreVector, sorted: seq<Category>, k: nat)
    requires SortedDesc(s, sorted) && k < |sorted|
    requires forall c | c in sorted :: s.Get(c) >= MixedThreshold
    ensures MixedEntryAt(s, sorted, k).category == sorted[k]
    ensures MixedEntryAt(s, sorted, k).rank == k + 1
    ensures MixedEntryAt(s, sorted, k).score == s.Get(sorted[k]) >= MixedThreshold
    ensures 0.0 < MixedEntryAt(s, sorted, k).ratio <= 1.0
    ensures k == 0 ==> MixedEntryAt(s, sorted, k).ratio == 1.0
  {
    assert sorted[0] in sorted && sorted[k] in sorted;
    if k > 0 {
      assert Before(s, sorted[0], sorted[k]);
    }
    DivAtMostOne(s.Get(sorted[k]), s.Get(sorted[0]));
  }

  lemma CategoriesListed(r: seq<MixedEntry>, sorted: seq<Category>)
    requires |r| == |sorted|
    requires forall k | 0 <= k < |r| :: r[k].category == sorted[k]
    ensures forall c: Category :: (exists k | 0 <= k < |r| :: r[k].category == c) <==> c in sorted
  {
    forall c: Category
      ensures (exists k | 0 <= k < |r| :: r[k].category == c) <==> c in sorted
    {
      if c in sorted {
        var k :| 0 <= k < |sorted| && sorted[k] == c;
        assert r[k].category == c;
      }
    }
  }

  /** When reported, every category reaching 0.5 appears, and only those. */
  lemma MixedEmotionsMembers(s: ScoreVector)
    ensures forall c: Category ::
              (exists k | 0 <= k < |MixedEmotions(s)| :: MixedEmotions(s)[k].category == c) <==>
              MixedEmotions(s) != [] && s.Get(c) >= MixedThreshold
  {
    MixedEntries(s);
    var r := MixedEmotions(s);
    if |Significant(s)| > 1 {
      var sorted := SortDesc(s, Significant(s));
      SortedSignificant(s);
      CategoriesListed(r, sorted);
    }
  }

  /** When reported, the entries are ranked 1, 2, ... by falling score with ties in
      declaration order, and each ratio to the top score lies in (0, 1], the first
      being 1. */
  lemma MixedEmotionsRanked(s: ScoreVector)
    ensures forall k, l | 0 <= k < l < |MixedEmotions(s)| ::
              Before(s, MixedEmotions(s)[k].category, MixedEmotions(s)[l].category)
    ensures forall k | 0 <= k < |MixedEmotions(s)| ::
              && MixedEmotions(s)[k].rank == k + 1
              && MixedEmotions(s)[k].score == s.Get(MixedEmotions(s)[k].category) >= MixedThreshold
              && 0.0 < MixedEmotions(s)[k].ratio <= 1.0
    ensures MixedEmotions(s) != [] ==> MixedEmotions(s)[0].ratio == 1.0
  {
    MixedEntries(s);
    var r := MixedEmotions(s);
    if |Significant(s)| > 1 {
      var sorted := SortDesc(s, Significant(s));
      SortedSignificant(s);
      forall k | 0 <= k < |r|
        ensures r[k].category == sorted[k] && r[k].rank == k + 1 && 0.0 < r[k].ratio <= 1.0
        ensures r[k].score == s.Get(r[k].category) >= MixedThreshold
        ensures k == 0 ==> r[k].ratio == 1.0
      {
        EntriesRanked(s, sorted, k);
      }
    }
  }

  lemma DivAtMostOne(x: real, top: real)
    requires 0.0 < x <= top
    ensures 0.0 < x / top <= 1.0
    ensures x == top ==> x / top == 1.0
  {
  }

  // ---------------------------------------------------------------------------
  // _assess_analysis_quality

  /** `quality_assessment` */
  datatype Quality = Quality(
    textCategory: String, reliability: String, suggestions: seq<String>, alternativeApproaches: seq<String>)

  /** The number of categories scoring above 0.2 (`high_scores`). */
  function HighScoreCount(s: ScoreVector): nat
  {
    (if s.sense > 0.2 then 1 else 0) + (if s.think > 0.2 then 1 else 0)
      + (if s.act > 0.2 then 1 else 0) + (if s.relate > 0.2 then 1 else 0)
  }

  /** `_assess_analysis_quality` for a text of `textLength` characters with
      `keywordCount` keyword hits. */
  function AssessQuality(textLength: nat, s: ScoreVector, keywordCount: nat): Quality
  {
    var q0 := Quality("normal", "medium", [], []);
    var q1 :=
      if textLength < 15 then
        Quality("short", if keywordCount == 0 then "low" else "medium",
                ["より詳細な感動体験の記述をお試しください"], ["interactive_enhancement"])
      else if textLength > 200 then
        if HighScoreCount(s) > 2 then
          Quality("long", "medium", ["複数の感動体験が混在している可能性があります"], ["segment_analysis"])
        else Quality("long", "medium", [], [])
      else q0;
    var q2 :=
      if keywordCount == 0 then
        q1.(suggestions := q1.suggestions + ["STAR理論のキーワードが検出されませんでした"],
            alternativeApproaches := q1.alternativeApproaches + ["guided_input"])
      else q1;
    if MaxScore(s) < 0.1 then
      q2.(reliability := "very_low",
          suggestions := q2.suggestions + ["感動体験の表現が不明確な可能性があります"],
          alternativeApproaches := q2.alternativeApproaches + ["manual_categorization"])
    else q2
  }

  /** What the assessment concludes: the length class, the reliability (very low
      whenever the top score is under 0.1, otherwise low only for a short text
      without keywords), and which remedies are proposed. */
  lemma AssessQualityMeaning(textLength: nat, s: ScoreVector, keywordCount: nat)
    ensures AssessQuality(textLength, s, keywordCount).textCategory ==
              (if textLength < 15 then "short" else if textLength > 200 then "long" else "normal")
    ensures AssessQuality(textLength, s, keywordCount).reliability == "very_low" <==> MaxScore(s) < 0.1
    ensures AssessQuality(textLength, s, keywordCount).reliability == "low" <==>
              MaxScore(s) >= 0.1 && textLength < 15 && keywordCount == 0
    ensures AssessQuality(textLength, s, keywordCount).reliability == "medium" <==>
              MaxScore(s) >= 0.1 && !(textLength < 15 && keywordCount == 0)
    ensures "guided_input" in AssessQuality(textLength, s, keywordCount).alternativeApproaches <==> keywordCount == 0
    ensures "interactive_enhancement" in AssessQuality(textLength, s, keywordCount).alternativeApproaches <==> textLength < 15
    ensures "segment_analysis" in AssessQuality(textLength, s, keywordCount).alternativeApproaches <==>
              textLength > 200 && HighScoreCount(s) > 2
    ensures "manual_categorization" in AssessQuality(textLength, s, keywordCount).alternativeApproaches <==> MaxScore(s) < 0.1
    ensures |AssessQuality(textLength, s, keywordCount).suggestions| ==
              |AssessQuality(textLength, s, keywordCount).alternativeApproaches|
  {
  }

  // ---------------------------------------------------------------------------
  // The worked example

  /** The worked example "この料理、本当においしい！" from context weighting on: only
      SENSE words occur and no negation pattern, so the scores reaching context
      weighting are 1.0 for SENSE and zero elsewhere; with its two SENSE hits the
      repetition factor is 1.4 and the SV sentence favours SENSE by 1.2, so SENSE
      ends at 1.68, is the primary category, and the confidence is "高". */
  lemma WorkedExample(kw: KeywordDictionary, text: String)
    requires KeywordHits(kw, SENSE, text) == 2
    ensures var r := ContextWeighting(kw, StarContextWeights, SV, text, ScoreVector(1.0, 0.0, 0.0, 0.0));
            && r == ScoreVector(1.68, 0.0, 0.0, 0.0)
            && ArgMax(r) == SENSE
            && ConfidenceOf(r).Label() == "高"
  {
  }
}
