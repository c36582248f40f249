/** The keyword search optimizer (keyword_optimizer.py): an object that builds
    its index once, in place, and then answers searches by scanning every window
    of the text no longer than the longest keyword; and the matcher that rescales
    its results. */
module KeywordOptimizer {
  import opened Wrappers
  import opened Text
  import opened Categories
  import opened KeywordTable
  import opened KeywordIndex

  /** One record of `get_keyword_matches`: the matched window, the triple's type
      and weight, and `position = (start, end)`. */
  datatype MatchRecord = MatchRecord(keyword: String, wordType: String, weight: real, start: nat, end: nat)

  /** `dict(matched_keywords)`: category name to its records in scan order. */
  type Matches = map<String, seq<MatchRecord>>

  /** The summed weights of a list of records. */
  function RecordsWeight(rs: seq<MatchRecord>): real
  {
    if rs == [] then 0.0 else RecordsWeight(rs[..|rs| - 1]) + rs[|rs| - 1].weight
  }

  /** The summed record weights of each of the four categories, 0.0 when absent. */
  function MatchesScores(m: Matches): (v: ScoreVector)
    ensures forall c: Category :: v.Get(c) == if Name(c) in m then RecordsWeight(m[Name(c)]) else 0.0
  {
    ScoreVector(
      if "SENSE" in m then RecordsWeight(m["SENSE"]) else 0.0,
      if "THINK" in m then RecordsWeight(m["THINK"]) else 0.0,
      if "ACT" in m then RecordsWeight(m["ACT"]) else 0.0,
      if "RELATE" in m then RecordsWeight(m["RELATE"]) else 0.0)
  }

  /** `matched_keywords[category].append(record)` on a `defaultdict(list)`. */
  function Append(m: Matches, category: String, r: MatchRecord): Matches
  {
    m[category := (if category in m then m[category] else []) + [r]]
  }

  /** Appending a record adds it to its own category's list and changes no other. */
  lemma AppendMembers(m: Matches, category: String, r: MatchRecord)
    ensures forall k, x | k in Append(m, category, r) && x in Append(m, category, r)[k] ::
      (k in m && x in m[k]) || (k == category && x == r)
  {
  }

  /** Appending a record adds its weight to its own category's sum only. */
  lemma AppendWeights(m: Matches, category: String, r: MatchRecord)
    ensures MatchesScores(Append(m, category, r)) == MatchesScores(m).Plus(Contribution(IndexEntry(category, r.wordType, r.weight)))
  {
    var rs := if category in m then m[category] else [];
    var m2 := Append(m, category, r);
    var added := Contribution(IndexEntry(category, r.wordType, r.weight));
    assert (rs + [r])[..|rs|] == rs;
    forall c: Category ensures MatchesScores(m2).Get(c) == MatchesScores(m).Get(c) + added.Get(c) {
      if Name(c) == category {
        assert m2[Name(c)] == rs + [r];
        assert RecordsWeight(rs + [r]) == RecordsWeight(rs) + r.weight;
      } else {
        assert (Name(c) in m2) == (Name(c) in m);
        if Name(c) in m {
          assert m2[Name(c)] == m[Name(c)];
        }
      }
    }
    EqualByCategory(MatchesScores(m2), MatchesScores(m).Plus(added));
  }

  /** A record of `get_keyword_matches(text)` under `category`: its window lies in
      the lowered text, is no longer than `maxLen`, is the record's keyword, and
      files the triple the record describes. */
  predicate WellPlaced(r: MatchRecord, t: String, maxLen: nat, index: Index, category: String)
  {
    r.start < r.end <= |t| && r.end - r.start <= maxLen && r.keyword == t[r.start..r.end] &&
    Filed(index, r.keyword, IndexEntry(category, r.wordType, r.weight))
  }

  /** Every record of `m` is well placed under its category. */
  predicate AllWellPlaced(m: Matches, t: String, maxLen: nat, index: Index)
  {
    forall category, r | category in m && r in m[category] :: WellPlaced(r, t, maxLen, index, category)
  }

  /** The records of a window no longer than `maxLen` that is a key are well
      placed. */
  lemma WindowRecordsPlaced(m: Matches, matched: Matches, t: String, start: nat, end: nat, maxLen: nat, index: Index)
    requires start < end <= |t| && end - start <= maxLen && t[start..end] in index
    requires AllWellPlaced(matched, t, maxLen, index)
    requires RecordsFrom(m, matched, t[start..end], index[t[start..end]], start, end)
    ensures AllWellPlaced(m, t, maxLen, index)
  {
  }

  /** `for category, keyword_type, weight in entries: scores[category] += weight` */
  method AddEntries(scores: ScoreVector, entries: set<IndexEntry>) returns (r: ScoreVector)
    ensures r == scores.Plus(EntriesWeights(entries))
  {
    r := scores;
    var rest := entries;
    while rest != {}
      invariant rest <= entries
      invariant r.Plus(EntriesWeights(rest)) == scores.Plus(EntriesWeights(entries))
      decreases rest
    {
      var e :| e in rest;
      EntriesWeightsRemove(rest, e);
      AddWeightIsPlus(r, e);
      PlusAssoc(r, Contribution(e), EntriesWeights(rest - {e}));
      r := AddWeight(r, e.category, e.weight);
      rest := rest - {e};
    }
  }

  /** Every record of `m` is one of `matched` or a record of window
      `substring = t[start:end]` for a triple in `entries`, under its category. */
  predicate RecordsFrom(m: Matches, matched: Matches, substring: String, entries: set<IndexEntry>, start: nat, end: nat)
  {
    forall category, r | category in m && r in m[category] ::
      (category in matched && r in matched[category]) ||
      (r.keyword == substring && r.start == start && r.end == end && IndexEntry(category, r.wordType, r.weight) in entries)
  }

  lemma RecordsFromStep(m: Matches, matched: Matches, substring: String, entries: set<IndexEntry>, start: nat, end: nat, e: IndexEntry)
    requires RecordsFrom(m, matched, substring, entries, start, end)
    requires e in entries
    ensures RecordsFrom(Append(m, e.category, MatchRecord(substring, e.wordType, e.weight, start, end)), matched, substring, entries, start, end)
  {
    AppendMembers(m, e.category, MatchRecord(substring, e.wordType, e.weight, start, end));
  }

  /** The records of one window: one per triple filed under it, each appended to
      its category's list. */
  method RecordEntries(matched: Matches, substring: String, entries: set<IndexEntry>, start: nat, end: nat)
    returns (m: Matches)
    ensures MatchesScores(m) == MatchesScores(matched).Plus(EntriesWeights(entries))
    ensures RecordsFrom(m, matched, substring, entries, start, end)
  {
    m := matched;
    var rest := entries;
    while rest != {}
      invariant rest <= entries
      invariant MatchesScores(m).Plus(EntriesWeights(rest)) == MatchesScores(matched).Plus(EntriesWeights(entries))
      invariant RecordsFrom(m, matched, substring, entries, start, end)
      decreases rest
    {
      var e :| e in rest;
      EntriesWeightsRemove(rest, e);
      var record := MatchRecord(substring, e.wordType, e.weight, start, end);
      AppendWeights(m, e.category, record);
      RecordsFromStep(m, matched, substring, entries, start, end, e);
      PlusAssoc(MatchesScores(m), Contribution(e), EntriesWeights(rest - {e}));
      m := Append(m, e.category, record);
      rest := rest - {e};
    }
  }

  class KeywordSearchOptimizer {
    /** `original_keywords` */
    const originalKeywords: KeywordsDict
    /** `keyword_index` */
    var keywordIndex: Index
    /** `max_keyword_length` */
    var maxKeywordLength: nat

    constructor (keywordsDict: KeywordsDict)
      ensures originalKeywords == keywordsDict
      ensures keywordIndex == IndexOf(map[], DictPostings(keywordsDict))
      ensures maxKeywordLength == Longest(DictPostings(keywordsDict))
    {
      originalKeywords := keywordsDict;
      keywordIndex := map[];
      maxKeywordLength := 0;
      new;
      BuildSearchIndex();
    }

    /** The innermost loop of `_build_search_index`: files every keyword of one
        list under its normalized form and tracks the longest raw keyword. */
    method IndexKeywords(category: String, wordType: String, typeWeight: real, keywords: seq<String>)
      requires typeWeight == TypeWeight(wordType)
      modifies this
      ensures keywordIndex == IndexOf(old(keywordIndex), WordPostings(category, wordType, keywords))
      ensures maxKeywordLength == MaxNat(old(maxKeywordLength), Longest(WordPostings(category, wordType, keywords)))
    {
      for i := 0 to |keywords|
        invariant keywordIndex == IndexOf(old(keywordIndex), WordPostings(category, wordType, keywords[..i]))
        invariant maxKeywordLength == MaxNat(old(maxKeywordLength), Longest(WordPostings(category, wordType, keywords[..i])))
      {
        var normalizedKeyword := NormalizeKeyword(keywords[i]);
        var entry := IndexEntry(category, wordType, typeWeight);
        ghost var done := WordPostings(category, wordType, keywords[..i]);
        WordPostingsSnoc(category, wordType, keywords, i);
        IndexOfSnoc(old(keywordIndex), done, Posting(keywords[i], entry));
        LongestSnoc(done, Posting(keywords[i], entry));
        var filed := if normalizedKeyword in keywordIndex then keywordIndex[normalizedKeyword] else {};
        keywordIndex := keywordIndex[normalizedKeyword := filed + {entry}];
        maxKeywordLength := MaxNat(maxKeywordLength, |keywords[i]|);
      }
      assert keywords[..|keywords|] == keywords;
    }

    /** The middle loop of `_build_search_index`: files the lists of one
        category, type by type. */
    method IndexLists(category: String, typesDict: seq<WordList>)
      modifies this
      ensures keywordIndex == IndexOf(old(keywordIndex), ListPostings(category, typesDict))
      ensures maxKeywordLength == MaxNat(old(maxKeywordLength), Longest(ListPostings(category, typesDict)))
    {
      for j := 0 to |typesDict|
        invariant keywordIndex == IndexOf(old(keywordIndex), ListPostings(category, typesDict[..j]))
        invariant maxKeywordLength == MaxNat(old(maxKeywordLength), Longest(ListPostings(category, typesDict[..j])))
      {
        var typeWeight := TypeWeight(typesDict[j].wordType);
        ghost var done := ListPostings(category, typesDict[..j]);
        ghost var added := WordPostings(category, typesDict[j].wordType, typesDict[j].words);
        IndexKeywords(category, typesDict[j].wordType, typeWeight, typesDict[j].words);
        IndexOfAppend(old(keywordIndex), done, added);
        LongestAppend(done, added);
        ListPostingsSnoc(category, typesDict, j);
      }
      assert typesDict[..|typesDict|] == typesDict;
    }

    /** `_build_search_index`: files every keyword of the dictionary, category by
        category. */
    method BuildSearchIndex()
      modifies this
      ensures keywordIndex == IndexOf(old(keywordIndex), DictPostings(originalKeywords))
      ensures maxKeywordLength == MaxNat(old(maxKeywordLength), Longest(DictPostings(originalKeywords)))
    {
      for i := 0 to |originalKeywords|
        invariant keywordIndex == IndexOf(old(keywordIndex), DictPostings(originalKeywords[..i]))
        invariant maxKeywordLength == MaxNat(old(maxKeywordLength), Longest(DictPostings(originalKeywords[..i])))
      {
        ghost var done := DictPostings(originalKeywords[..i]);
        ghost var added := ListPostings(originalKeywords[i].category, originalKeywords[i].lists);
        IndexLists(originalKeywords[i].category, originalKeywords[i].lists);
        IndexOfAppend(old(keywordIndex), done, added);
        LongestAppend(done, added);
        DictPostingsSnoc(originalKeywords, i);
      }
      assert originalKeywords[..|originalKeywords|] == originalKeywords;
    }

    /** `fast_search`: the weights of every window of the lowered text no longer
        than the longest keyword, for the four categories. */
    method FastSearch(text: String) returns (scores: ScoreVector)
      ensures scores == FastSearchScores(keywordIndex, maxKeywordLength, text)
    {
      if text == [] {
        return Zero;
      }
      var normalizedText := Lower(text);
      var textLength := |normalizedText|;
      scores := Zero;
      for startPos := 0 to textLength
        invariant scores == StartsSum(keywordIndex, normalizedText, maxKeywordLength, startPos)
      {
        var maxEnd := WindowEnd(startPos, maxKeywordLength, textLength);
        ghost var base := scores;
        for endPos := startPos + 1 to maxEnd + 1
          invariant scores == base.Plus(EndsSum(keywordIndex, normalizedText, startPos, endPos - 1))
        {
          var substring := normalizedText[startPos..endPos];
          if substring in keywordIndex {
            scores := AddEntries(scores, keywordIndex[substring]);
          }
        }
      }
    }

    /** The inner loop of `get_keyword_matches`: the windows starting at
        `startPos`. */
    method MatchesFrom(normalizedText: String, startPos: nat, matched: Matches) returns (m: Matches)
      requires startPos < |normalizedText|
      requires AllWellPlaced(matched, normalizedText, maxKeywordLength, keywordIndex)
      ensures MatchesScores(m) == MatchesScores(matched).Plus(
        EndsSum(keywordIndex, normalizedText, startPos, WindowEnd(startPos, maxKeywordLength, |normalizedText|)))
      ensures AllWellPlaced(m, normalizedText, maxKeywordLength, keywordIndex)
    {
      m := matched;
      var maxEnd := WindowEnd(startPos, maxKeywordLength, |normalizedText|);
      for endPos := startPos + 1 to maxEnd + 1
        invariant MatchesScores(m) == MatchesScores(matched).Plus(EndsSum(keywordIndex, normalizedText, startPos, endPos - 1))
        invariant AllWellPlaced(m, normalizedText, maxKeywordLength, keywordIndex)
      {
        var substring := normalizedText[startPos..endPos];
        ghost var prev := m;
        if substring in keywordIndex {
          m := RecordEntries(m, substring, keywordIndex[substring], startPos, endPos);
          WindowRecordsPlaced(m, prev, normalizedText, startPos, endPos, maxKeywordLength, keywordIndex);
        }
        PlusAssoc(MatchesScores(matched), EndsSum(keywordIndex, normalizedText, startPos, endPos - 1),
          WindowWeights(keywordIndex, normalizedText, startPos, endPos));
      }
    }

    /** `get_keyword_matches`: the same scan, recording every match with its
        position; the record weights of each category add up to `fast_search`. */
    method GetKeywordMatches(text: String) returns (matched: Matches)
      ensures forall category, r | category in matched && r in matched[category] ::
        WellPlaced(r, Lower(text), maxKeywordLength, keywordIndex, category)
      ensures MatchesScores(matched) == FastSearchScores(keywordIndex, maxKeywordLength, text)
    {
      matched := map[];
      var normalizedText := Lower(text);
      var textLength := |normalizedText|;
      for startPos := 0 to textLength
        invariant MatchesScores(matched) == StartsSum(keywordIndex, normalizedText, maxKeywordLength, startPos)
        invariant AllWellPlaced(matched, normalizedText, maxKeywordLength, keywordIndex)
      {
        matched := MatchesFrom(normalizedText, startPos, matched);
      }
    }

    /** The innermost loop of `_linear_search` over one keyword list. */
    method LinearKeywords(category: String, wordType: String, typeWeight: real, keywords: seq<String>,
                          text: String, scores: ScoreVector) returns (r: ScoreVector)
      requires typeWeight == TypeWeight(wordType)
      ensures r == scores.Plus(LinearScores(WordPostings(category, wordType, keywords), text))
    {
      r := scores;
      for i := 0 to |keywords|
        invariant r == scores.Plus(LinearScores(WordPostings(category, wordType, keywords[..i]), text))
      {
        WordPostingsSnoc(category, wordType, keywords, i);
        LinearSnoc(WordPostings(category, wordType, keywords[..i]), Posting(keywords[i], IndexEntry(category, wordType, typeWeight)), text);
        AddWeightIsPlus(r, IndexEntry(category, wordType, typeWeight));
        if Contains(Lower(text), Lower(keywords[i])) {
          r := AddWeight(r, category, typeWeight);
        } else {
          assert r == r.Plus(Zero);
        }
        PlusAssoc(scores, LinearScores(WordPostings(category, wordType, keywords[..i]), text),
          LinearHit(Posting(keywords[i], IndexEntry(category, wordType, typeWeight)), text));
      }
      assert keywords[..|keywords|] == keywords;
    }

    /** The middle loop of `_linear_search` over the lists of one category. */
    method LinearLists(category: String, typesDict: seq<WordList>, text: String, scores: ScoreVector)
      returns (r: ScoreVector)
      ensures r == scores.Plus(LinearScores(ListPostings(category, typesDict), text))
    {
      r := scores;
      for j := 0 to |typesDict|
        invariant r == scores.Plus(LinearScores(ListPostings(category, typesDict[..j]), text))
      {
        var typeWeight := TypeWeight(typesDict[j].wordType);
        ghost var done := ListPostings(category, typesDict[..j]);
        ghost var added := WordPostings(category, typesDict[j].wordType, typesDict[j].words);
        r := LinearKeywords(category, typesDict[j].wordType, typeWeight, typesDict[j].words, text, r);
        LinearAppend(done, added, text);
        PlusAssoc(scores, LinearScores(done, text), LinearScores(added, text));
        ListPostingsSnoc(category, typesDict, j);
      }
      assert typesDict[..|typesDict|] == typesDict;
    }

    /** `_linear_search`: each listed keyword that occurs in the text adds its
        type weight to its category once. */
    method LinearSearch(text: String) returns (scores: ScoreVector)
      ensures scores == LinearScores(DictPostings(originalKeywords), text)
    {
      scores := Zero;
      for i := 0 to |originalKeywords|
        invariant scores == LinearScores(DictPostings(originalKeywords[..i]), text)
      {
        ghost var done := DictPostings(originalKeywords[..i]);
        ghost var added := ListPostings(originalKeywords[i].category, originalKeywords[i].lists);
        scores := LinearLists(originalKeywords[i].category, originalKeywords[i].lists, text, scores);
        LinearAppend(done, added, text);
        DictPostingsSnoc(originalKeywords, i);
      }
      assert originalKeywords[..|originalKeywords|] == originalKeywords;
    }
  }

  class AdvancedKeywordMatcher {
    const optimizer: KeywordSearchOptimizer
    /** `fuzzy_threshold` */
    const fuzzyThreshold: real

    constructor (optimizer: KeywordSearchOptimizer)
      ensures this.optimizer == optimizer && fuzzyThreshold == 0.8
    {
      this.optimizer := optimizer;
      fuzzyThreshold := 0.8;
    }

    /** `fuzzy_search`: the threshold defaults to `fuzzy_threshold` and is not
        used; the result is that of `fast_search`. */
    method FuzzySearch(text: String, threshold: Option<real>) returns (scores: ScoreVector)
      ensures scores == FastSearchScores(optimizer.keywordIndex, optimizer.maxKeywordLength, text)
    {
      var limit := if threshold.None? then fuzzyThreshold else threshold.value;
      scores := optimizer.FastSearch(text);
    }

    /** `contextual_search`: `fast_search`, then SENSE and ACT boosted when the
        text exclaims and THINK when it asks. */
    method ContextualSearch(text: String, contextBoost: real) returns (scores: ScoreVector)
      ensures scores == ContextualBoost(FastSearchScores(optimizer.keywordIndex, optimizer.maxKeywordLength, text), text, contextBoost)
    {
      scores := optimizer.FastSearch(text);
      if Contains(text, "！") || Contains(text, "!!") {
        scores := scores.(sense := scores.sense * contextBoost);
        scores := scores.(act := scores.act * contextBoost);
      }
      if Contains(text, "？") || Contains(text, "??") {
        scores := scores.(think := scores.think * contextBoost);
      }
    }

    /** `pattern_based_search`: `fast_search`, then the SV markers boost SENSE and
        THINK and the SOV markers boost ACT and RELATE. */
    method PatternBasedSearch(text: String) returns (scores: ScoreVector)
      ensures scores == PatternBoost(FastSearchScores(optimizer.keywordIndex, optimizer.maxKeywordLength, text), text)
    {
      scores := optimizer.FastSearch(text);
      if AnyMarker(text, SVMarkers) {
        scores := scores.(sense := scores.sense * 1.1);
        scores := scores.(think := scores.think * 1.1);
      }
      if AnyMarker(text, SOVMarkers) {
        scores := scores.(act := scores.act * 1.1);
        scores := scores.(relate := scores.relate * 1.1);
      }
    }
  }
}
