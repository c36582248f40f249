/** `STARAnalyzer` (star_analyzer.py:46-803): the analyzer object with its tables
    set up once, the score pipeline as methods that accumulate the way the source's
    loops do, each proved equal to the specification function of the Scoring,
    Parts or Report module, and `analyze` tying the stages together. */
module Analyzer {
  import opened Wrappers
  import opened Text
  import opened Categories
  import opened KeywordTable
  import opened SentenceTypes
  import opened Scoring
  import opened Parts
  import opened Report

  /** The extra entries of `detailed_analysis` that the model keeps. */
  datatype DetailedAnalysis = DetailedAnalysis(
    textLength: nat,
    keywordCount: nat,
    feelScore: real,
    scoreDistribution: ScoreVector,
    emotionProgression: seq<ProgressionEntry>,
    mixedEmotions: seq<MixedEntry>,
    analysisQuality: Quality)

  /** `AnalysisResult` (star_analyzer.py:30-44) without `emotion_intensity`. */
  datatype AnalysisResult = AnalysisResult(
    text: String,
    scores: ScoreVector,
    primaryCategory: Category,
    confidence: String,
    sentenceType: String,
    keywords: set<String>,
    structurePattern: String,
    detailedAnalysis: DetailedAnalysis,
    morphologicalAnalysis: Option<seq<Token>>,
    detectedPosTags: seq<String>)

  /** The part-of-speech tag of every token. */
  function PosTags(tokens: seq<Token>): (tags: seq<String>)
    ensures |tags| == |tokens|
    ensures forall k | 0 <= k < |tokens| :: tags[k] == tokens[k].pos
  {
    seq(|tokens|, k requires 0 <= k < |tokens| => tokens[k].pos)
  }

  /** What one token adds to every category. */
  function TokenBoosts(kw: KeywordDictionary, tok: Token): (f: ScoreVector)
    ensures forall c: Category :: f.Get(c) == TokenBoost(kw.Lists(c), tok)
  {
    ScoreVector(TokenBoost(kw.sense, tok), TokenBoost(kw.think, tok), TokenBoost(kw.act, tok), TokenBoost(kw.relate, tok))
  }

  /** `a` counted `n + 1` times is `a` counted `n` times and once more. */
  lemma TimesSucc(a: real, n: nat)
    ensures a * ((n + 1) as real) == a * (n as real) + a
  {
  }

  /** `s` with the scores of the first `k` categories in loop order taken from
      `t`: what a loop over the categories has built after `k` rounds. */
  function Updated(s: ScoreVector, t: ScoreVector, k: nat): ScoreVector
  {
    ScoreVector(
      if k > 0 then t.sense else s.sense, if k > 1 then t.think else s.think,
      if k > 2 then t.act else s.act, if k > 3 then t.relate else s.relate)
  }

  /** Round `k` of such a loop reads the score it has not yet replaced and
      replaces it. */
  lemma UpdatedStep(s: ScoreVector, t: ScoreVector, k: nat)
    requires k < |AllCategories|
    ensures Updated(s, t, k).Get(AllCategories[k]) == s.Get(AllCategories[k])
    ensures Updated(s, t, k).Set(AllCategories[k], t.Get(AllCategories[k])) == Updated(s, t, k + 1)
  {
  }

  /** Before the first round nothing is replaced; after the last, everything. */
  lemma UpdatedEnds(s: ScoreVector, t: ScoreVector)
    ensures Updated(s, t, 0) == s
    ensures Updated(s, t, |AllCategories|) == t
  {
  }

  /** Applying separator `k` after the first `k` separators. */
  lemma SplitWithStep(text: String, seps: seq<String>, k: nat)
    requires NonEmptySeparators(seps) && k < |seps|
    ensures NonEmptySeparators(seps[..k]) && seps[k] != []
    ensures SplitWith(text, seps[..k + 1]) == StripNonEmpty(SplitEach(SplitWith(text, seps[..k]), seps[k]))
  {
    assert seps[..k + 1][..k] == seps[..k];
  }

  /** One more outcome appends its entry, if any. */
  lemma PresentStep(xs: seq<Option<ProgressionEntry>>, i: nat)
    requires i < |xs|
    ensures Present(xs[..i + 1]) == Present(xs[..i]) + (if xs[i].Some? then [xs[i].value] else [])
  {
    assert xs[..i + 1][..i] == xs[..i];
  }

  class StarAnalyzer {
    /** `self.keywords`, `self.intensity_words`, `self.context_weights` and
        `self.negation_patterns`: set up once and never changed. */
    const keywords: KeywordDictionary
    const intensityWords: IntensityTable
    const contextWeights: ContextWeights
    const negationPatterns: seq<String>

    /** The analyzer's tables have positive intensity multipliers and its context
        weights. */
    predicate Valid()
    {
      PositiveMultipliers(intensityWords) && contextWeights == StarContextWeights
    }

    /** `self.last_confidence_details`, written by every confidence evaluation. */
    var lastConfidenceDetails: Option<ConfidenceDetails>

    /** `__init__` with `_setup_keywords_and_config`; no tokenizer is attached. */
    constructor ()
      ensures keywords == StarKeywords && intensityWords == StarIntensityWords
      ensures contextWeights == StarContextWeights && negationPatterns == StarNegationPatterns
      ensures lastConfidenceDetails == None
      ensures Valid()
    {
      keywords := StarKeywords;
      intensityWords := StarIntensityWords;
      contextWeights := StarContextWeights;
      negationPatterns := StarNegationPatterns;
      lastConfidenceDetails := None;
      StarTablesPositive();
    }

    // -------------------------------------------------------------------------
    // _calculate_scores

    /** The inner `for intensity, multiplier in ...: ... break` loop. */
    method IntensityMultiplier(word: String, text: String) returns (m: real)
      ensures m == IntensityFactor(intensityWords, word, text)
    {
      var k := 0;
      while k < |intensityWords|
        invariant 0 <= k <= |intensityWords|
        invariant forall j | 0 <= j < k :: !Adjacent(text, intensityWords[j].0, word)
      {
        var (intensity, multiplier) := intensityWords[k];
        if Contains(text, intensity + word) || Contains(text, word + intensity) {
          assert FirstAdjacentAt(intensityWords, word, text, k);
          return multiplier;
        }
        k := k + 1;
      }
      return 1.0;
    }

    /** `score` once every word list of category `c` has been scanned. */
    method CategoryScore(c: Category, text: String) returns (score: real)
      ensures score == ListsScore(text, keywords.Lists(c), intensityWords)
    {
      var lists := keywords.Lists(c);
      score := 0.0;
      var i := 0;
      while i < |lists|
        invariant 0 <= i <= |lists|
        invariant score == ListsScore(text, lists[..i], intensityWords)
      {
        var WordList(wordType, words) := lists[i];
        var j := 0;
        while j < |words|
          invariant 0 <= j <= |words|
          invariant score == ListsScore(text, lists[..i], intensityWords)
                             + WordsScore(text, wordType, words[..j], intensityWords)
        {
          var word := words[j];
          if Contains(text, word) {
            var baseScore := if wordType == "feeling_expressions" then 2.0 else 1.0;
            var multiplier := IntensityMultiplier(word, text);
            baseScore := baseScore * multiplier;
            score := score + baseScore;
          }
          assert words[..j + 1][..j] == words[..j];
          j := j + 1;
        }
        assert words[..j] == words;
        assert lists[..i + 1][..i] == lists[..i];
        i := i + 1;
      }
      assert lists[..i] == lists;
    }

    /** `_calculate_scores`: every category's keyword score, the FEEL bonus for the
        categories above zero, then normalization. */
    method CalculateScores(text: String) returns (scores: ScoreVector)
      ensures scores == Scoring.CalculateScores(keywords, intensityWords, text)
    {
      ghost var raw := RawScores(keywords, intensityWords, text);
      UpdatedEnds(Zero, raw);
      scores := Zero;
      for k := 0 to |AllCategories|
        invariant scores == Updated(Zero, raw, k)
      {
        var c := AllCategories[k];
        UpdatedStep(Zero, raw, k);
        var score := CategoryScore(c, text);
        scores := scores.Set(c, score);
      }
      var feelScore := FeelScore(text);
      ghost var withFeel := AddFeel(raw, feelScore);
      UpdatedEnds(raw, withFeel);
      for k := 0 to |AllCategories|
        invariant scores == Updated(raw, withFeel, k)
      {
        var c := AllCategories[k];
        UpdatedStep(raw, withFeel, k);
        if scores.Get(c) > 0.0 {
          scores := scores.Set(c, scores.Get(c) + feelScore);
        } else {
          assert scores.Set(c, withFeel.Get(c)) == scores;
        }
      }
      var total := scores.sense + scores.think + scores.act + scores.relate;
      if total > 0.0 {
        scores := ScoreVector(scores.sense / total, scores.think / total, scores.act / total, scores.relate / total);
      }
    }

    // -------------------------------------------------------------------------
    // _count_keywords_in_text and the counts of _apply_context_weighting

    /** The number of entries of category `c` present in the text. */
    method CategoryHits(c: Category, text: String) returns (count: nat)
      ensures count == KeywordHits(keywords, c, text)
    {
      var lists := keywords.Lists(c);
      count := 0;
      var i := 0;
      while i < |lists|
        invariant 0 <= i <= |lists|
        invariant count == ListsHits(text, lists[..i])
      {
        var words := lists[i].words;
        var j := 0;
        while j < |words|
          invariant 0 <= j <= |words|
          invariant count == ListsHits(text, lists[..i]) + WordsHits(text, words[..j])
        {
          if Contains(text, words[j]) {
            count := count + 1;
          }
          assert words[..j + 1][..j] == words[..j];
          j := j + 1;
        }
        assert words[..j] == words;
        assert lists[..i + 1][..i] == lists[..i];
        i := i + 1;
      }
      assert lists[..i] == lists;
    }

    /** `_count_keywords_in_text` */
    method CountKeywordsInText(text: String) returns (count: nat)
      ensures count == TotalHits(keywords, text)
    {
      count := 0;
      for k := 0 to |AllCategories|
        invariant count == if k == 0 then 0
                           else if k == 1 then KeywordHits(keywords, SENSE, text)
                           else if k == 2 then KeywordHits(keywords, SENSE, text) + KeywordHits(keywords, THINK, text)
                           else if k == 3 then KeywordHits(keywords, SENSE, text) + KeywordHits(keywords, THINK, text)
                                               + KeywordHits(keywords, ACT, text)
                           else TotalHits(keywords, text)
      {
        var hits := CategoryHits(AllCategories[k], text);
        count := count + hits;
      }
    }

    // -------------------------------------------------------------------------
    // _apply_negation_detection

    /** `_apply_negation_detection`: the argument is left as it is and an adjusted
        copy returned. */
    method ApplyNegationDetection(text: String, scores: ScoreVector) returns (adjusted: ScoreVector)
      ensures adjusted == ApplyNegation(negationPatterns, text, scores)
    {
      adjusted := scores;
      var hasNegation := false;
      for k := 0 to |negationPatterns|
        invariant hasNegation <==> exists j | 0 <= j < k :: Contains(text, negationPatterns[j])
      {
        if Contains(text, negationPatterns[k]) {
          hasNegation := true;
        }
      }
      assert hasNegation <==> HasNegation(negationPatterns, text);
      if hasNegation {
        ghost var scaled := scores.Scale(0.3);
        UpdatedEnds(scores, scaled);
        for k := 0 to |AllCategories|
          invariant adjusted == Updated(scores, scaled, k)
        {
          var c := AllCategories[k];
          UpdatedStep(scores, scaled, k);
          adjusted := adjusted.Set(c, adjusted.Get(c) * 0.3);
        }
      }
    }

    // -------------------------------------------------------------------------
    // _apply_context_weighting

    /** One category's score after the repetition bonus: `score` times `1 + min(count * 0.2, 0.8)` when `c` has more than one
        keyword hit. */
    method RepeatedScore(c: Category, text: String, score: real) returns (r: real)
      ensures r == Repeated(keywords, text, c, score)
    {
      r := score;
      var count := CategoryHits(c, text);
      if count > 1 {
        var bonus := MinReal(count as real * 0.2, 0.8);
        RepetitionFactorFormula(count);
        r := r * (1.0 + bonus);
      }
    }

    /** The first pass of `_apply_context_weighting` (star_analyzer.py:694-712):
        every category with more than one keyword hit is multiplied by
        `1 + min(count * 0.2, 0.8)`. */
    method RepetitionPass(text: String, scores: ScoreVector) returns (adjusted: ScoreVector)
      ensures adjusted == RepetitionBonus(keywords, text, scores)
    {
      adjusted := scores;
      ghost var repeated := RepetitionBonus(keywords, text, scores);
      UpdatedEnds(scores, repeated);
      for k := 0 to |AllCategories|
        invariant adjusted == Updated(scores, repeated, k)
      {
        var c := AllCategories[k];
        UpdatedStep(scores, repeated, k);
        var repeatedScore := RepeatedScore(c, text, adjusted.Get(c));
        adjusted := adjusted.Set(c, repeatedScore);
      }
    }

    /** The second pass of `_apply_context_weighting` (star_analyzer.py:714-727):
        the favoured pair of categories times the match bonus, the other pair times
        the mismatch penalty. */
    method CongruencePass(sentenceType: SentenceType, scores: ScoreVector) returns (adjusted: ScoreVector)
      ensures adjusted == CongruenceWeighting(contextWeights, sentenceType, scores)
    {
      adjusted := scores;
      if sentenceType == SV {
        adjusted := adjusted.(sense := adjusted.sense * contextWeights.sentenceTypeMatchBonus);
        adjusted := adjusted.(think := adjusted.think * contextWeights.sentenceTypeMatchBonus);
        adjusted := adjusted.(act := adjusted.act * contextWeights.sentenceTypeMismatchPenalty);
        adjusted := adjusted.(relate := adjusted.relate * contextWeights.sentenceTypeMismatchPenalty);
      } else {
        adjusted := adjusted.(act := adjusted.act * contextWeights.sentenceTypeMatchBonus);
        adjusted := adjusted.(relate := adjusted.relate * contextWeights.sentenceTypeMatchBonus);
        adjusted := adjusted.(sense := adjusted.sense * contextWeights.sentenceTypeMismatchPenalty);
        adjusted := adjusted.(think := adjusted.think * contextWeights.sentenceTypeMismatchPenalty);
      }
    }

    /** `_apply_context_weighting`, which determines the sentence type of the text
        again. */
    method ApplyContextWeighting(text: String, scores: ScoreVector) returns (adjusted: ScoreVector)
      ensures adjusted == ContextWeighting(keywords, contextWeights, DetermineSentenceType(text), text, scores)
    {
      adjusted := RepetitionPass(text, scores);
      var sentenceType := DetermineSentenceType(text);
      adjusted := CongruencePass(sentenceType, adjusted);
    }

    // -------------------------------------------------------------------------
    // _calculate_scores_enhanced

    /** What token `tok` of part of speech weight `posWeight` adds to the score of
        category `c`: `0.3 * pos_weight` for every word list listing its base form
        or its surface. */
    method CategoryTokenBoost(c: Category, tok: Token, posWeight: real, score: real) returns (r: real)
      requires posWeight == PosWeight(tok.pos)
      ensures r == score + TokenBoost(keywords.Lists(c), tok)
    {
      var lists := keywords.Lists(c);
      r := score;
      var i := 0;
      while i < |lists|
        invariant 0 <= i <= |lists|
        invariant r == score + 0.3 * posWeight * (MatchingLists(lists[..i], tok) as real)
      {
        assert lists[..i + 1][..i] == lists[..i];
        if tok.baseForm in lists[i].words || tok.surface in lists[i].words {
          TimesSucc(0.3 * posWeight, MatchingLists(lists[..i], tok));
          r := r + 0.3 * posWeight;
        }
        i := i + 1;
      }
      assert lists[..i] == lists;
    }

    /** One round of the morphology loop: the token's part of speech weight, then
        its boost to every category. */
    method AddTokenBoost(tok: Token, scores: ScoreVector) returns (r: ScoreVector)
      ensures r == scores.Plus(TokenBoosts(keywords, tok))
    {
      var posWeight := 1.0;
      if StartsWith(tok.pos, "形容詞") {
        posWeight := 1.2;
      } else if StartsWith(tok.pos, "動詞") {
        posWeight := 1.1;
      } else if StartsWith(tok.pos, "名詞") {
        posWeight := 0.9;
      }
      ghost var boosted := scores.Plus(TokenBoosts(keywords, tok));
      UpdatedEnds(scores, boosted);
      r := scores;
      for k := 0 to |AllCategories|
        invariant r == Updated(scores, boosted, k)
      {
        var c := AllCategories[k];
        UpdatedStep(scores, boosted, k);
        var score := CategoryTokenBoost(c, tok, posWeight, r.Get(c));
        r := r.Set(c, score);
      }
    }

    /** The morphology loop of `_calculate_scores_enhanced` (star_analyzer.py:653-672). */
    method ApplyMorphology(tokens: seq<Token>, scores: ScoreVector) returns (r: ScoreVector)
      ensures r == AddMorphology(keywords, tokens, scores)
    {
      r := scores;
      EqualByCategory(r, AddMorphology(keywords, tokens[..0], scores));
      for t := 0 to |tokens|
        invariant r == AddMorphology(keywords, tokens[..t], scores)
      {
        r := AddTokenBoost(tokens[t], r);
        assert tokens[..t + 1][..t] == tokens[..t];
        EqualByCategory(r, AddMorphology(keywords, tokens[..t + 1], scores));
      }
      assert tokens[..|tokens|] == tokens;
    }

    /** `_calculate_scores_enhanced`, given the token list of the text or `None`. */
    method CalculateScoresEnhanced(text: String, morphology: Option<seq<Token>>) returns (scores: ScoreVector)
      ensures scores == EnhancedScores(keywords, intensityWords, negationPatterns, contextWeights, text, morphology)
    {
      scores := CalculateScores(text);
      scores := ApplyNegationDetection(text, scores);
      scores := ApplyContextWeighting(text, scores);
      if morphology.Some? && morphology.value != [] {
        scores := ApplyMorphology(morphology.value, scores);
      } else {
        EqualByCategory(scores, AddMorphology(keywords, TokensOf(morphology), scores));
      }
    }

    // -------------------------------------------------------------------------
    // _calculate_confidence

    /** `_calculate_confidence`: the label judged on the gap between the two
        largest scores and the maximum, with the details kept for display. */
    method CalculateConfidence(scores: ScoreVector, text: String) returns (confidence: String)
      modifies this
      ensures confidence == ConfidenceOf(scores).Label()
      ensures lastConfidenceDetails == Some(DetailsOf(scores, text, TotalHits(keywords, text)))
    {
      var maxScore := MaxScore(scores);
      var secondMax := SecondMax(scores);
      var scoreDiff := maxScore - secondMax;
      var keywordCount := CountKeywordsInText(text);
      if scoreDiff > 0.5 && maxScore > 0.3 {
        confidence := "高";
      } else if scoreDiff > 0.2 && maxScore > 0.2 {
        confidence := "中";
      } else {
        confidence := "低";
      }
      lastConfidenceDetails := Some(ConfidenceDetails(
        scoreDiff, maxScore, secondMax, |text|, keywordCount, |text| < 10, keywordCount == 0));
    }

    // -------------------------------------------------------------------------
    // _split_into_parts and _track_emotion_progression

    /** The inner loop of `_split_into_parts`: every part split on `sep`. */
    method SplitAll(parts: seq<String>, sep: String) returns (newParts: seq<String>)
      requires sep != []
      ensures newParts == SplitEach(parts, sep)
    {
      newParts := [];
      for j := 0 to |parts|
        invariant newParts == SplitEach(parts[..j], sep)
      {
        assert parts[..j + 1][..j] == parts[..j];
        newParts := newParts + SplitOn(parts[j], sep);
      }
      assert parts[..|parts|] == parts;
    }

    /** `[p.strip() for p in new_parts if p.strip()]` */
    method StripAll(newParts: seq<String>) returns (kept: seq<String>)
      ensures kept == StripNonEmpty(newParts)
    {
      kept := [];
      for m := 0 to |newParts|
        invariant kept == StripNonEmpty(newParts[..m])
      {
        assert newParts[..m + 1][..m] == newParts[..m];
        var stripped := Strip(newParts[m]);
        if stripped != [] {
          kept := kept + [stripped];
        }
      }
      assert newParts[..|newParts|] == newParts;
    }

    /** `_split_into_parts`: each separator in turn splits every part, and the
        stripped non-empty pieces become the new parts. */
    method SplitIntoParts(text: String) returns (parts: seq<String>)
      ensures parts == SplitParts(text)
    {
      var separators := Separators;
      assert NonEmptySeparators(separators);
      parts := [text];
      for k := 0 to |separators|
        invariant parts == SplitWith(text, separators[..k])
      {
        SplitWithStep(text, separators, k);
        var newParts := SplitAll(parts, separators[k]);
        parts := StripAll(newParts);
      }
      assert separators[..|separators|] == separators;
    }

    /** `part_scores`: every category's keyword hits in the part. */
    method PartScoresOf(part: String) returns (partScores: ScoreVector)
      ensures partScores == PartScores(keywords, part)
    {
      ghost var target := PartScores(keywords, part);
      UpdatedEnds(Zero, target);
      partScores := Zero;
      for k := 0 to |AllCategories|
        invariant partScores == Updated(Zero, target, k)
      {
        var c := AllCategories[k];
        UpdatedStep(Zero, target, k);
        var hits := CategoryHits(c, part);
        partScores := partScores.Set(c, hits as real);
      }
    }

    /** The loop body of `_track_emotion_progression` for a part of at least two
        characters: an entry when some category scores above zero. */
    method DominantEntry(position: nat, part: String) returns (entry: Option<ProgressionEntry>)
      requires |Strip(part)| >= 2
      ensures entry == PartEntry(keywords, position, part)
    {
      var partScores := PartScoresOf(part);
      var maxCategory := if MaxScore(partScores) > 0.0 then Some(ArgMax(partScores)) else None;
      if maxCategory.Some? {
        var category := maxCategory.value;
        entry := Some(ProgressionEntry(position, part, category, partScores.Get(category), partScores));
      } else {
        entry := None;
      }
    }

    /** `_track_emotion_progression`: an entry for every part of at least two
        characters with a keyword hit, naming its dominant category. */
    method TrackEmotionProgression(text: String) returns (progression: seq<ProgressionEntry>)
      ensures progression == ProgressionOf(keywords, SplitParts(text))
    {
      var sentenceParts := SplitIntoParts(text);
      ghost var outcomes := PartEntries(keywords, sentenceParts);
      progression := [];
      for i := 0 to |sentenceParts|
        invariant progression == Present(outcomes[..i])
      {
        PresentStep(outcomes, i);
        var part := sentenceParts[i];
        if |Strip(part)| < 2 {
          continue;
        }
        var entry := DominantEntry(i, part);
        if entry.Some? {
          progression := progression + [entry.value];
        }
      }
      assert outcomes[..|sentenceParts|] == outcomes;
    }

    // -------------------------------------------------------------------------
    // analyze

    /** `analyze`, given the token list the tokenizer would produce for the
        preprocessed text, or `None` when no tokenizer is available. */
    method Analyze(text: String, morphology: Option<seq<Token>>) returns (result: AnalysisResult)
      requires Valid()
      modifies this
      ensures result.text == Preprocess(text)
      ensures result.scores ==
                EnhancedScores(keywords, intensityWords, negationPatterns, contextWeights, result.text, morphology)
      ensures result.scores.NonNegative()
      ensures forall c: Category :: result.scores.Get(c) == 0.0 <==>
                !AnyPresent(result.text, keywords.Lists(c)) && !AnyTokenMatches(keywords.Lists(c), TokensOf(morphology))
      ensures result.primaryCategory == ArgMax(result.scores)
      ensures result.confidence == ConfidenceOf(result.scores).Label()
      ensures result.sentenceType == DetermineSentenceType(result.text).Label()
      ensures result.keywords == ExtractKeywords(keywords, result.text)
      ensures result.structurePattern == StructurePattern(result.primaryCategory)
      ensures result.detailedAnalysis == DetailedAnalysis(
                |result.text|, |result.keywords|, FeelScore(result.text), result.scores,
                ProgressionOf(keywords, SplitParts(result.text)), MixedEmotions(result.scores),
                AssessQuality(|result.text|, result.scores, TotalHits(keywords, result.text)))
      ensures result.morphologicalAnalysis == morphology
      ensures result.detectedPosTags == PosTags(TokensOf(morphology))
      ensures lastConfidenceDetails == Some(DetailsOf(result.scores, result.text, TotalHits(keywords, result.text)))
    {
      var t := Preprocess(text);
      var scores := CalculateScoresEnhanced(t, morphology);
      EnhancedScoresShape(keywords, intensityWords, negationPatterns, DetermineSentenceType(t), t, TokensOf(morphology));
      var primaryCategory := ArgMax(scores);
      var confidence := CalculateConfidence(scores, t);
      var sentenceType := DetermineSentenceType(t).Label();
      var found := ExtractKeywords(keywords, t);
      var structurePattern := StructurePattern(primaryCategory);
      var emotionProgression := TrackEmotionProgression(t);
      var mixedEmotions := MixedEmotions(scores);
      var keywordCount := CountKeywordsInText(t);
      var analysisQuality := AssessQuality(|t|, scores, keywordCount);
      var detailed := DetailedAnalysis(|t|, |found|, FeelScore(t), scores, emotionProgression, mixedEmotions, analysisQuality);
      var detectedPosTags := [];
      if morphology.Some? {
        detectedPosTags := PosTags(morphology.value);
      }
      result := AnalysisResult(
        t, scores, primaryCategory, confidence, sentenceType, found, structurePattern, detailed,
        morphology, detectedPosTags);
    }
  }
}
