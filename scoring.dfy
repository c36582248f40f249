/** The score computation of `STARAnalyzer` as specification functions:
    `_calculate_scores` (star_analyzer.py:284-322) with `_calculate_feel_score`
    (451-466), then `_apply_negation_detection` (676-688), `_apply_context_weighting`
    (690-729) and the token boost of `_calculate_scores_enhanced` (641-674). The
    analyzer's methods are proved equal to these functions. No stage after
    `_calculate_scores` normalizes again. */
module Scoring {
  import opened Wrappers
  import opened Text
  import opened Categories
  import opened KeywordTable
  import opened SentenceTypes

  /** `intensity_words` as `(word, multiplier)` pairs in table order. */
  type IntensityTable = seq<(String, real)>

  predicate PositiveMultipliers(table: IntensityTable)
  {
    forall k | 0 <= k < |table| :: table[k].1 > 0.0
  }

  function MinReal(a: real, b: real): (m: real)
    ensures m <= a && m <= b && (m == a || m == b)
  {
    if a <= b then a else b
  }

  // ---------------------------------------------------------------------------
  // _calculate_scores

  /** `intensity + word in text or word + intensity in text` */
  predicate Adjacent(text: String, intensity: String, word: String)
  {
    Contains(text, intensity + word) || Contains(text, word + intensity)
  }

  /** Entry `k` is the first entry of the table adjacent to `word`. */
  predicate FirstAdjacentAt(table: IntensityTable, word: String, text: String, k: int)
  {
    && 0 <= k < |table|
    && Adjacent(text, table[k].0, word)
    && forall j | 0 <= j < k :: !Adjacent(text, table[j].0, word)
  }

  predicate NoneAdjacent(table: IntensityTable, word: String, text: String)
  {
    forall k | 0 <= k < |table| :: !Adjacent(text, table[k].0, word)
  }

  /** The multiplier the inner `for ... break` loop applies to a present keyword:
      that of the first adjacent intensity word in table order, or 1.0. */
  function IntensityFactor(table: IntensityTable, word: String, text: String): (m: real)
    ensures NoneAdjacent(table, word, text) ==> m == 1.0
    ensures !NoneAdjacent(table, word, text) ==>
              exists k | 0 <= k < |table| :: FirstAdjacentAt(table, word, text, k) && m == table[k].1
    ensures PositiveMultipliers(table) ==> m > 0.0
  {
    if table == [] then 1.0
    else if Adjacent(text, table[0].0, word) then
      assert FirstAdjacentAt(table, word, text, 0);
      table[0].1
    else
      var m := IntensityFactor(table[1..], word, text);
      assert forall k | FirstAdjacentAt(table[1..], word, text, k) :: FirstAdjacentAt(table, word, text, k + 1) by {
        forall k | FirstAdjacentAt(table[1..], word, text, k) ensures FirstAdjacentAt(table, word, text, k + 1) {
          assert forall j | 1 <= j < k + 1 :: table[j] == table[1..][j - 1];
        }
      }
      m
  }

  /** 2.0 for `feeling_expressions`, 1.0 for every other word type. */
  function BaseWeight(wordType: String): real
  {
    if wordType == "feeling_expressions" then 2.0 else 1.0
  }

  /** What one dictionary entry adds to its category's score. */
  function WordScore(text: String, wordType: String, word: String, table: IntensityTable): real
  {
    if Contains(text, word) then BaseWeight(wordType) * IntensityFactor(table, word, text) else 0.0
  }

  /** The score of a prefix of one word list, summed in list order. */
  function WordsScore(text: String, wordType: String, words: seq<String>, table: IntensityTable): real
  {
    if words == [] then 0.0
    else WordsScore(text, wordType, words[..|words| - 1], table)
         + WordScore(text, wordType, words[|words| - 1], table)
  }

  /** The score of a prefix of a category's word lists. */
  function ListsScore(text: String, lists: seq<WordList>, table: IntensityTable): real
  {
    if lists == [] then 0.0
    else ListsScore(text, lists[..|lists| - 1], table)
         + WordsScore(text, lists[|lists| - 1].wordType, lists[|lists| - 1].words, table)
  }

  /** Some word of some list occurs in the text. */
  predicate AnyPresent(text: String, lists: seq<WordList>)
  {
    exists i, j | 0 <= i < |lists| && 0 <= j < |lists[i].words| :: Contains(text, lists[i].words[j])
  }

  /** The number of present entries among `words`, repeated words counted again. */
  function WordsHits(text: String, words: seq<String>): nat
  {
    if words == [] then 0
    else WordsHits(text, words[..|words| - 1]) + (if Contains(text, words[|words| - 1]) then 1 else 0)
  }

  function ListsHits(text: String, lists: seq<WordList>): nat
  {
    if lists == [] then 0
    else ListsHits(text, lists[..|lists| - 1]) + WordsHits(text, lists[|lists| - 1].words)
  }

  /** `category_keyword_counts[c]` (star_analyzer.py:698-707). */
  function KeywordHits(kw: KeywordDictionary, c: Category, text: String): nat
  {
    ListsHits(text, kw.Lists(c))
  }

  lemma {:induction false} WordsHitsPositive(text: String, words: seq<String>)
    ensures WordsHits(text, words) > 0 <==> exists j | 0 <= j < |words| :: Contains(text, words[j])
    ensures WordsHits(text, words) <= |words|
    decreases |words|
  {
    if words != [] {
      var init := words[..|words| - 1];
      WordsHitsPositive(text, init);
      assert forall j | 0 <= j < |init| :: init[j] == words[j];
    }
  }

  /** A category has hits exactly when one of its words occurs. */
  lemma {:induction false} ListsHitsPositive(text: String, lists: seq<WordList>)
    ensures ListsHits(text, lists) > 0 <==> AnyPresent(text, lists)
    decreases |lists|
  {
    if lists != [] {
      var init := lists[..|lists| - 1];
      ListsHitsPositive(text, init);
      WordsHitsPositive(text, lists[|lists| - 1].words);
      assert forall i | 0 <= i < |init| :: init[i] == lists[i];
      if AnyPresent(text, lists) {
        var i, j :| 0 <= i < |lists| && 0 <= j < |lists[i].words| && Contains(text, lists[i].words[j]);
        if i < |init| {
          assert AnyPresent(text, init);
        }
      }
      if AnyPresent(text, init) {
        var i, j :| 0 <= i < |init| && 0 <= j < |init[i].words| && Contains(text, init[i].words[j]);
        assert Contains(text, lists[i].words[j]);
      }
    }
  }

  /** A word list scores, with positive multipliers, a non-negative amount that is
      positive exactly when one of its words is present. */
  lemma {:induction false} WordsScoreSign(text: String, wordType: String, words: seq<String>, table: IntensityTable)
    requires PositiveMultipliers(table)
    ensures WordsScore(text, wordType, words, table) >= 0.0
    ensures WordsScore(text, wordType, words, table) > 0.0 <==> WordsHits(text, words) > 0
    decreases |words|
  {
    if words != [] {
      WordsScoreSign(text, wordType, words[..|words| - 1], table);
    }
  }

  lemma {:induction false} ListsScoreSign(text: String, lists: seq<WordList>, table: IntensityTable)
    requires PositiveMultipliers(table)
    ensures ListsScore(text, lists, table) >= 0.0
    ensures ListsScore(text, lists, table) > 0.0 <==> ListsHits(text, lists) > 0
    decreases |lists|
  {
    if lists != [] {
      var last := lists[|lists| - 1];
      ListsScoreSign(text, lists[..|lists| - 1], table);
      WordsScoreSign(text, last.wordType, last.words, table);
    }
  }

  /** The scores before the FEEL bonus: every category's lists summed. */
  function RawScores(kw: KeywordDictionary, table: IntensityTable, text: String): (r: ScoreVector)
    ensures forall c: Category :: r.Get(c) == ListsScore(text, kw.Lists(c), table)
  {
    ScoreVector(ListsScore(text, kw.sense, table), ListsScore(text, kw.think, table),
                ListsScore(text, kw.act, table), ListsScore(text, kw.relate, table))
  }

  /** `feel_indicators` (star_analyzer.py:453-456). */
  const FeelIndicators: seq<String> :=
    ["感動", "心が動く", "胸が熱く", "涼しく", "心が温かく", "気持ちがいい", "心が踊る", "感情", "心が満たされる"]

  /** `text.count('!') + text.count('！')` */
  function Exclamations(text: String): nat
  {
    Count(text, '!') + Count(text, '！')
  }

  /** `_calculate_feel_score`: 0.5 per FEEL marker present and 0.2 per exclamation
      mark, capped at 2.0. */
  function FeelScore(text: String): (f: real)
    ensures 0.0 <= f <= 2.0
    ensures f == 0.0 <==> WordsHits(text, FeelIndicators) == 0 && Exclamations(text) == 0
    ensures f <= 0.5 * WordsHits(text, FeelIndicators) as real + 0.2 * Exclamations(text) as real
  {
    MinReal(0.5 * WordsHits(text, FeelIndicators) as real + 0.2 * Exclamations(text) as real, 2.0)
  }

  /** The FEEL bonus goes only to categories already above zero. */
  function AddFeel(s: ScoreVector, f: real): (r: ScoreVector)
    ensures forall c: Category :: s.Get(c) > 0.0 ==> r.Get(c) == s.Get(c) + f
    ensures forall c: Category :: s.Get(c) <= 0.0 ==> r.Get(c) == s.Get(c)
  {
    ScoreVector(
      if s.sense > 0.0 then s.sense + f else s.sense,
      if s.think > 0.0 then s.think + f else s.think,
      if s.act > 0.0 then s.act + f else s.act,
      if s.relate > 0.0 then s.relate + f else s.relate)
  }

  /** `_calculate_scores` */
  function CalculateScores(kw: KeywordDictionary, table: IntensityTable, text: String): ScoreVector
  {
    Normalize(AddFeel(RawScores(kw, table, text), FeelScore(text)))
  }

  /** `_calculate_scores` returns four non-negative scores that sum to 1 unless none
      of the keywords occurs, in which case all are zero; a category scores above
      zero exactly when one of its own words occurs, so the FEEL bonus never lifts a
      category from zero. */
  lemma CalculateScoresShape(kw: KeywordDictionary, table: IntensityTable, text: String)
    requires PositiveMultipliers(table)
    ensures CalculateScores(kw, table, text).NonNegative()
    ensures forall c: Category :: CalculateScores(kw, table, text).Get(c) > 0.0 <==> AnyPresent(text, kw.Lists(c))
    ensures CalculateScores(kw, table, text).Total() == 1.0 || CalculateScores(kw, table, text) == Zero
    ensures CalculateScores(kw, table, text) == Zero <==> forall c: Category :: !AnyPresent(text, kw.Lists(c))
  {
    var raw := RawScores(kw, table, text);
    RawScoresSign(kw, table, text);
    var felt := AddFeel(raw, FeelScore(text));
    AddFeelKeepsSign(raw, FeelScore(text));
    NormalizeKeepsOrder(felt);
    NormalizeZero(felt);
  }

  /** Before the bonus, a category scores a non-negative amount that is positive
      exactly when one of its words occurs. */
  lemma RawScoresSign(kw: KeywordDictionary, table: IntensityTable, text: String)
    requires PositiveMultipliers(table)
    ensures RawScores(kw, table, text).NonNegative()
    ensures forall c: Category :: RawScores(kw, table, text).Get(c) > 0.0 <==> AnyPresent(text, kw.Lists(c))
  {
    forall c: Category
      ensures RawScores(kw, table, text).Get(c) >= 0.0
      ensures RawScores(kw, table, text).Get(c) > 0.0 <==> AnyPresent(text, kw.Lists(c))
    {
      ListsScoreSign(text, kw.Lists(c), table);
      ListsHitsPositive(text, kw.Lists(c));
    }
  }

  /** A non-negative bonus never changes which scores are zero. */
  lemma AddFeelKeepsSign(s: ScoreVector, f: real)
    requires s.NonNegative() && f >= 0.0
    ensures AddFeel(s, f).NonNegative()
    ensures forall c: Category :: AddFeel(s, f).Get(c) > 0.0 <==> s.Get(c) > 0.0
  {
  }

  /** A non-negative vector normalizes to all zeros exactly when it is all zeros, and
      otherwise to scores summing to 1. */
  lemma NormalizeZero(s: ScoreVector)
    requires s.NonNegative()
    ensures Normalize(s) == Zero <==> s == Zero
    ensures Normalize(s).Total() == 1.0 || Normalize(s) == Zero
  {
    assert s.Get(SENSE) >= 0.0 && s.Get(THINK) >= 0.0 && s.Get(ACT) >= 0.0 && s.Get(RELATE) >= 0.0;
    if s.Total() <= 0.0 {
      assert s == Zero;
    }
  }

  // ---------------------------------------------------------------------------
  // _apply_negation_detection

  /** `any(pattern in text for pattern in self.negation_patterns)` */
  predicate HasNegation(patterns: seq<String>, text: String)
  {
    exists p | p in patterns :: Contains(text, p)
  }

  /** `_apply_negation_detection` works on a copy: every score times 0.3 when a
      negation pattern occurs, the scores unchanged otherwise. */
  function ApplyNegation(patterns: seq<String>, text: String, s: ScoreVector): ScoreVector
  {
    if HasNegation(patterns, text) then s.Scale(0.3) else s
  }

  /** Negation scales all four scores by the same positive factor, so it never
      raises a score, strictly lowers every positive one, and keeps the primary
      category. */
  lemma NegationLowersKeepingOrder(patterns: seq<String>, text: String, s: ScoreVector)
    requires s.NonNegative()
    ensures ApplyNegation(patterns, text, s).NonNegative()
    ensures forall c: Category :: ApplyNegation(patterns, text, s).Get(c) <= s.Get(c)
    ensures forall c: Category :: HasNegation(patterns, text) && s.Get(c) > 0.0 ==>
              ApplyNegation(patterns, text, s).Get(c) < s.Get(c)
    ensures !HasNegation(patterns, text) ==> ApplyNegation(patterns, text, s) == s
    ensures ArgMax(ApplyNegation(patterns, text, s)) == ArgMax(s)
  {
    var r := ApplyNegation(patterns, text, s);
    if HasNegation(patterns, text) {
      forall c: Category, d: Category ensures s.Get(c) < s.Get(d) <==> r.Get(c) < r.Get(d) {
        assert r.Get(c) == 0.3 * s.Get(c) && r.Get(d) == 0.3 * s.Get(d);
      }
    }
  }

  /** The negation test of the analyzer on one pair of texts: "美味しくない" carries
      the pattern "ない", so a positive SENSE score drops to 30% of itself, while
      "美味しい" carries no pattern and keeps its scores. */
  lemma NegationExample(s: ScoreVector)
    requires s.sense > 0.0
    ensures ApplyNegation(StarNegationPatterns, "美味しくない", s).sense == 0.3 * s.sense
    ensures ApplyNegation(StarNegationPatterns, "美味しくない", s).sense < s.sense
    ensures ApplyNegation(StarNegationPatterns, "美味しい", s) == s
  {
    assert OccursAt("美味しくない", "ない", 4) && "ない" in StarNegationPatterns;
    assert HasNegation(StarNegationPatterns, "美味しくない");
    forall p | p in StarNegationPatterns
      ensures !Contains("美味しい", p)
    {
      NoLeadNoContains("美味しい", p);
    }
  }

  // ---------------------------------------------------------------------------
  // _apply_context_weighting

  /** The repetition factor of a category with `hits` keyword hits: 1 for at most
      one hit, then 1.4, 1.6 and from four hits on 1.8. */
  function RepetitionFactor(hits: nat): (f: real)
    ensures 1.0 <= f <= 1.8
    ensures f == 1.0 <==> hits <= 1
  {
    if hits <= 1 then 1.0 else if hits == 2 then 1.4 else if hits == 3 then 1.6 else 1.8
  }

  /** The factor is the analyzer's `1 + min(count * 0.2, 0.8)` for a category with
      more than one hit (star_analyzer.py:710-713). */
  lemma RepetitionFactorFormula(hits: nat)
    ensures hits > 1 ==> RepetitionFactor(hits) == 1.0 + MinReal(hits as real * 0.2, 0.8)
    ensures hits <= 1 ==> RepetitionFactor(hits) == 1.0
  {
  }

  /** The categories a sentence type favours: SENSE and THINK for SV, ACT and
      RELATE for SOV. */
  predicate Favoured(st: SentenceType, c: Category)
  {
    if st == SV then c == SENSE || c == THINK else c == ACT || c == RELATE
  }

  /** Each category is favoured by exactly one of the two sentence types. */
  lemma FavouredPartition(c: Category)
    ensures Favoured(SV, c) <==> !Favoured(SOV, c)
  {
  }

  function CongruenceFactor(st: SentenceType, c: Category, w: ContextWeights): real
  {
    if Favoured(st, c) then w.sentenceTypeMatchBonus else w.sentenceTypeMismatchPenalty
  }

  /** A score of category `c` times its repetition factor. */
  function Repeated(kw: KeywordDictionary, text: String, c: Category, x: real): real
  {
    x * RepetitionFactor(KeywordHits(kw, c, text))
  }

  /** The repetition pass of `_apply_context_weighting` (star_analyzer.py:710-713). */
  function RepetitionBonus(kw: KeywordDictionary, text: String, s: ScoreVector): (r: ScoreVector)
    ensures forall c: Category :: r.Get(c) == Repeated(kw, text, c, s.Get(c))
  {
    ScoreVector(
      Repeated(kw, text, SENSE, s.sense), Repeated(kw, text, THINK, s.think),
      Repeated(kw, text, ACT, s.act), Repeated(kw, text, RELATE, s.relate))
  }

  /** Every category's sentence-type factor. */
  function CongruenceFactors(w: ContextWeights, st: SentenceType): (f: ScoreVector)
    ensures forall c: Category :: f.Get(c) == CongruenceFactor(st, c, w)
  {
    ScoreVector(
      CongruenceFactor(st, SENSE, w), CongruenceFactor(st, THINK, w),
      CongruenceFactor(st, ACT, w), CongruenceFactor(st, RELATE, w))
  }

  /** The sentence-type pass of `_apply_context_weighting` (star_analyzer.py:716-727). */
  function CongruenceWeighting(w: ContextWeights, st: SentenceType, s: ScoreVector): (r: ScoreVector)
    ensures forall c: Category :: r.Get(c) == s.Get(c) * CongruenceFactor(st, c, w)
  {
    s.Times(CongruenceFactors(w, st))
  }

  /** `_apply_context_weighting` on a copy, given the sentence type it recomputes
      from the text. */
  function ContextWeighting(kw: KeywordDictionary, w: ContextWeights, st: SentenceType, text: String, s: ScoreVector)
    : ScoreVector
  {
    CongruenceWeighting(w, st, RepetitionBonus(kw, text, s))
  }

  /** Bounds on `r == x * k` for a non-negative `x` and a positive factor `k`. */
  lemma ScaleBounds(x: real, k: real, lo: real, hi: real, r: real)
    requires x >= 0.0 && 0.0 < lo <= k <= hi && r == x * k
    ensures lo * x <= r <= hi * x
    ensures r == 0.0 <==> x == 0.0
    ensures k == 1.0 ==> r == x
  {
    assert x * (k - lo) >= 0.0;
    assert x * (hi - k) >= 0.0;
  }

  lemma RepeatedBounds(kw: KeywordDictionary, text: String, c: Category, x: real)
    requires x >= 0.0
    ensures x <= Repeated(kw, text, c, x) <= 1.8 * x
    ensures Repeated(kw, text, c, x) == 0.0 <==> x == 0.0
    ensures KeywordHits(kw, c, text) <= 1 ==> Repeated(kw, text, c, x) == x
  {
    ScaleBounds(x, RepetitionFactor(KeywordHits(kw, c, text)), 1.0, 1.8, Repeated(kw, text, c, x));
  }

  /** The repetition bonus raises a score by at most 80%, keeps it at zero exactly
      when it was zero, and leaves it alone when the category has at most one hit. */
  lemma RepetitionBonusBounds(kw: KeywordDictionary, text: String, s: ScoreVector)
    requires s.NonNegative()
    ensures forall c: Category :: s.Get(c) <= RepetitionBonus(kw, text, s).Get(c) <= 1.8 * s.Get(c)
    ensures forall c: Category :: RepetitionBonus(kw, text, s).Get(c) == 0.0 <==> s.Get(c) == 0.0
    ensures forall c: Category :: KeywordHits(kw, c, text) <= 1 ==> RepetitionBonus(kw, text, s).Get(c) == s.Get(c)
  {
    forall c: Category {
      RepeatedBounds(kw, text, c, s.Get(c));
    }
  }

  /** With the analyzer's weights, a favoured category is multiplied by 1.2 and any
      other by 0.8, so a favoured category that was level with or ahead of an
      unfavoured one ends strictly ahead of it. */
  lemma CongruenceFavours(st: SentenceType, s: ScoreVector)
    ensures var r := CongruenceWeighting(StarContextWeights, st, s);
            && (forall c: Category :: Favoured(st, c) ==> r.Get(c) == 1.2 * s.Get(c))
            && (forall c: Category :: !Favoured(st, c) ==> r.Get(c) == 0.8 * s.Get(c))
            && (forall c: Category, d: Category ::
                  Favoured(st, c) && !Favoured(st, d) && s.Get(c) >= s.Get(d) && s.Get(c) > 0.0 ==> r.Get(c) > r.Get(d))
  {
  }

  /** With the analyzer's weights, context weighting keeps every score's sign and
      multiplies it by between 0.8 and 1.8 * 1.2. */
  lemma ContextWeightingBounds(kw: KeywordDictionary, st: SentenceType, text: String, s: ScoreVector)
    requires s.NonNegative()
    ensures var r := ContextWeighting(kw, StarContextWeights, st, text, s);
            && r.NonNegative()
            && (forall c: Category :: (r.Get(c) == 0.0 <==> s.Get(c) == 0.0))
            && (forall c: Category :: 0.8 * s.Get(c) <= r.Get(c) <= 2.16 * s.Get(c))
  {
    var m := RepetitionBonus(kw, text, s);
    RepetitionBonusBounds(kw, text, s);
    assert m.NonNegative();
    CongruenceFavours(st, m);
    var r := CongruenceWeighting(StarContextWeights, st, m);
    forall c: Category
      ensures 0.8 * s.Get(c) <= r.Get(c) <= 2.16 * s.Get(c)
      ensures r.Get(c) == 0.0 <==> s.Get(c) == 0.0
    {
      assert s.Get(c) <= m.Get(c) <= 1.8 * s.Get(c);
      assert r.Get(c) == 1.2 * m.Get(c) || r.Get(c) == 0.8 * m.Get(c);
    }
  }

  // ---------------------------------------------------------------------------
  // The token boost of _calculate_scores_enhanced

  /** One morphological token: `{surface, pos, base_form}`. */
  datatype Token = Token(surface: String, pos: String, baseForm: String)

  /** 1.2 for adjectives, 1.1 for verbs, 0.9 for nouns, 1.0 otherwise, chosen on
      the part of speech by prefix in that order. */
  function PosWeight(pos: String): (w: real)
    ensures StartsWith(pos, "形容詞") ==> w == 1.2
    ensures !StartsWith(pos, "形容詞") && StartsWith(pos, "動詞") ==> w == 1.1
    ensures !StartsWith(pos, "形容詞") && !StartsWith(pos, "動詞") && StartsWith(pos, "名詞") ==> w == 0.9
    ensures 0.9 <= w <= 1.2
  {
    if StartsWith(pos, "形容詞") then 1.2
    else if StartsWith(pos, "動詞") then 1.1
    else if StartsWith(pos, "名詞") then 0.9
    else 1.0
  }

  /** A word list of the category lists the token's base form or its surface. */
  predicate ListMatches(wl: WordList, tok: Token)
  {
    tok.baseForm in wl.words || tok.surface in wl.words
  }

  /** The number of a category's word lists the token matches (a word shared by two
      lists counts twice). */
  function MatchingLists(lists: seq<WordList>, tok: Token): nat
  {
    if lists == [] then 0
    else MatchingLists(lists[..|lists| - 1], tok) + (if ListMatches(lists[|lists| - 1], tok) then 1 else 0)
  }

  /** What one token adds to a category: 0.3 * pos weight per matching list. */
  function TokenBoost(lists: seq<WordList>, tok: Token): real
  {
    0.3 * PosWeight(tok.pos) * MatchingLists(lists, tok) as real
  }

  /** What a prefix of the token list adds to a category. */
  function TokensBoost(lists: seq<WordList>, tokens: seq<Token>): real
  {
    if tokens == [] then 0.0
    else TokensBoost(lists, tokens[..|tokens| - 1]) + TokenBoost(lists, tokens[|tokens| - 1])
  }

  lemma {:induction false} MatchingListsBound(lists: seq<WordList>, tok: Token)
    ensures MatchingLists(lists, tok) <= |lists|
    ensures MatchingLists(lists, tok) > 0 <==> exists i | 0 <= i < |lists| :: ListMatches(lists[i], tok)
    decreases |lists|
  {
    if lists != [] {
      var init := lists[..|lists| - 1];
      MatchingListsBound(init, tok);
      assert forall i | 0 <= i < |init| :: init[i] == lists[i];
    }
  }

  /** One token adds at most 0.36 per list, and something exactly when it matches
      one of the lists. */
  lemma TokenBoostBounds(lists: seq<WordList>, tok: Token)
    ensures 0.0 <= TokenBoost(lists, tok) <= 0.36 * |lists| as real
    ensures TokenBoost(lists, tok) > 0.0 <==> exists i | 0 <= i < |lists| :: ListMatches(lists[i], tok)
  {
    MatchingListsBound(lists, tok);
    var n := MatchingLists(lists, tok) as real;
    var L := |lists| as real;
    var p := 0.3 * PosWeight(tok.pos);
    assert 0.27 <= p <= 0.36;
    assert 0.0 <= n <= L;
    assert p * n <= 0.36 * n by {
      assert (0.36 - p) * n >= 0.0;
    }
    assert p * n > 0.0 <==> n > 0.0;
  }

  /** The boost of the tokens is non-negative, and positive exactly when some token
      matches some list of the category. */
  lemma {:induction false} TokensBoostBounds(lists: seq<WordList>, tokens: seq<Token>)
    ensures 0.0 <= TokensBoost(lists, tokens)
    ensures TokensBoost(lists, tokens) > 0.0 <==>
              exists t, i | 0 <= t < |tokens| && 0 <= i < |lists| :: ListMatches(lists[i], tokens[t])
    decreases |tokens|
  {
    if tokens != [] {
      var init := tokens[..|tokens| - 1];
      var last := tokens[|tokens| - 1];
      TokensBoostBounds(lists, init);
      TokenBoostBounds(lists, last);
      assert forall t | 0 <= t < |init| :: init[t] == tokens[t];
      if exists t, i | 0 <= t < |tokens| && 0 <= i < |lists| :: ListMatches(lists[i], tokens[t]) {
        var t, i :| 0 <= t < |tokens| && 0 <= i < |lists| && ListMatches(lists[i], tokens[t]);
        if t < |init| {
          assert ListMatches(lists[i], init[t]);
        }
      }
    }
  }

  /** The morphology loop adds each category's token boost: it never lowers a
      score, and raises it exactly when some token matches one of the category's
      word lists. */
  function AddMorphology(kw: KeywordDictionary, tokens: seq<Token>, s: ScoreVector): (r: ScoreVector)
    ensures forall c: Category :: r.Get(c) == s.Get(c) + TokensBoost(kw.Lists(c), tokens)
    ensures forall c: Category :: r.Get(c) >= s.Get(c)
    ensures forall c: Category :: r.Get(c) > s.Get(c) <==> AnyTokenMatches(kw.Lists(c), tokens)
  {
    TokensBoostBounds(kw.sense, tokens);
    TokensBoostBounds(kw.think, tokens);
    TokensBoostBounds(kw.act, tokens);
    TokensBoostBounds(kw.relate, tokens);
    s.Plus(ScoreVector(
      TokensBoost(kw.sense, tokens), TokensBoost(kw.think, tokens),
      TokensBoost(kw.act, tokens), TokensBoost(kw.relate, tokens)))
  }

  /** `None` and an empty token list both skip the morphology loop. */
  function TokensOf(morphology: Option<seq<Token>>): seq<Token>
  {
    if morphology.Some? then morphology.value else []
  }

  /** Some token matches some word list of the category. */
  predicate AnyTokenMatches(lists: seq<WordList>, tokens: seq<Token>)
  {
    exists t, i | 0 <= t < |tokens| && 0 <= i < |lists| :: ListMatches(lists[i], tokens[t])
  }

  /** `_calculate_scores_enhanced` with the sentence type that context weighting
      recomputes given explicitly. */
  function EnhancedScoresWith(
    kw: KeywordDictionary, table: IntensityTable, negations: seq<String>, w: ContextWeights,
    st: SentenceType, text: String, tokens: seq<Token>): ScoreVector
  {
    var base := CalculateScores(kw, table, text);
    AddMorphology(kw, tokens, ContextWeighting(kw, w, st, text, ApplyNegation(negations, text, base)))
  }

  /** `_calculate_scores_enhanced` */
  function EnhancedScores(
    kw: KeywordDictionary, table: IntensityTable, negations: seq<String>, w: ContextWeights,
    text: String, morphology: Option<seq<Token>>): ScoreVector
  {
    EnhancedScoresWith(kw, table, negations, w, DetermineSentenceType(text), text, TokensOf(morphology))
  }

  /** With positive intensity multipliers and the analyzer's context weights, the
      final scores are non-negative, and a category scores zero exactly when none of
      its words occurs in the text and no token matches one of its lists, whatever
      the sentence type. */
  lemma EnhancedScoresShape(
    kw: KeywordDictionary, table: IntensityTable, negations: seq<String>,
    st: SentenceType, text: String, tokens: seq<Token>)
    requires PositiveMultipliers(table)
    ensures EnhancedScoresWith(kw, table, negations, StarContextWeights, st, text, tokens).NonNegative()
    ensures forall c: Category ::
              EnhancedScoresWith(kw, table, negations, StarContextWeights, st, text, tokens).Get(c) == 0.0 <==>
              !AnyPresent(text, kw.Lists(c)) && !AnyTokenMatches(kw.Lists(c), tokens)
  {
    var base := CalculateScores(kw, table, text);
    CalculateScoresShape(kw, table, text);
    var neg := ApplyNegation(negations, text, base);
    NegationLowersKeepingOrder(negations, text, base);
    assert forall c: Category :: neg.Get(c) == 0.0 <==> base.Get(c) == 0.0;
    var ctx := ContextWeighting(kw, StarContextWeights, st, text, neg);
    ContextWeightingBounds(kw, st, text, neg);
    var r := AddMorphology(kw, tokens, ctx);
    forall c: Category
      ensures r.Get(c) >= 0.0
      ensures r.Get(c) == 0.0 <==> !AnyPresent(text, kw.Lists(c)) && !AnyTokenMatches(kw.Lists(c), tokens)
    {
      TokensBoostBounds(kw.Lists(c), tokens);
    }
  }

  /** The analyzer's own tables meet the conditions of the lemmas above. */
  lemma StarTablesPositive()
    ensures PositiveMultipliers(StarIntensityWords)
  {
  }
}
