/** The search index of the keyword optimizer (keyword_optimizer.py:15-169) as
    values: the dictionary it is built from, the index it builds, the window sums
    `fast_search` computes, and the naive scan `_linear_search` it replaces. */
module KeywordIndex {
  import opened Wrappers
  import opened Text
  import opened Categories
  import opened KeywordTable

  /** One `category: {type: [keywords]}` entry of `keywords_dict`, its types in
      insertion order. Category names are arbitrary strings. */
  datatype CategoryLists = CategoryLists(category: String, lists: seq<WordList>)

  /** `keywords_dict`, in insertion order. */
  type KeywordsDict = seq<CategoryLists>

  /** The triple `(category, keyword_type, type_weight)` filed under a keyword. */
  datatype IndexEntry = IndexEntry(category: String, wordType: String, weight: real)

  /** `keyword_index`: normalized keyword to the set of triples filed under it. */
  type Index = map<String, set<IndexEntry>>

  /** `_get_type_weight`: the weight of a keyword type, 1.0 for an unknown type. */
  function TypeWeight(wordType: String): (w: real)
    ensures 0.8 <= w <= 1.5
  {
    if wordType == "feeling_expressions" then 1.5
    else if wordType == "core_keywords" then 1.3
    else if wordType == "auxiliary_expressions" then 1.1
    else if wordType == "context_keywords" then 0.9
    else if wordType == "modifiers" then 0.8
    else 1.0
  }

  /** `_normalize_keyword`: `keyword.strip().lower()`. */
  function NormalizeKeyword(keyword: String): (r: String)
    ensures |r| <= |keyword|
  {
    Lower(Strip(keyword))
  }

  // ---------------------------------------------------------------------------
  // The build, one posting at a time

  /** One step of `_build_search_index`: the raw keyword and the triple it files. */
  datatype Posting = Posting(keyword: String, entry: IndexEntry)

  /** The index key a posting is filed under. */
  function Key(p: Posting): String
  {
    NormalizeKeyword(p.keyword)
  }

  /** The postings of one keyword list, in list order. */
  function WordPostings(category: String, wordType: String, words: seq<String>): (ps: seq<Posting>)
    ensures |ps| == |words|
    ensures forall i | 0 <= i < |words| ::
      ps[i] == Posting(words[i], IndexEntry(category, wordType, TypeWeight(wordType)))
  {
    seq(|words|, i requires 0 <= i < |words| =>
      Posting(words[i], IndexEntry(category, wordType, TypeWeight(wordType))))
  }

  /** One more keyword, one more posting at the end. */
  lemma WordPostingsSnoc(category: String, wordType: String, words: seq<String>, i: nat)
    requires i < |words|
    ensures WordPostings(category, wordType, words[..i + 1])
         == WordPostings(category, wordType, words[..i]) + [Posting(words[i], IndexEntry(category, wordType, TypeWeight(wordType)))]
  {
    var a := WordPostings(category, wordType, words[..i + 1]);
    var b := WordPostings(category, wordType, words[..i]) + [Posting(words[i], IndexEntry(category, wordType, TypeWeight(wordType)))];
    assert |a| == |b|;
    forall k | 0 <= k < |a| ensures a[k] == b[k] {
      assert words[..i + 1][k] == words[k];
      if k < i {
        assert words[..i][k] == words[k];
      }
    }
  }

  /** The postings of one category's lists, in insertion order. */
  function ListPostings(category: String, lists: seq<WordList>): seq<Posting>
  {
    if lists == [] then []
    else
      var last := lists[|lists| - 1];
      ListPostings(category, lists[..|lists| - 1]) + WordPostings(category, last.wordType, last.words)
  }

  lemma ListPostingsSnoc(category: String, lists: seq<WordList>, j: nat)
    requires j < |lists|
    ensures ListPostings(category, lists[..j + 1])
         == ListPostings(category, lists[..j]) + WordPostings(category, lists[j].wordType, lists[j].words)
  {
    assert lists[..j + 1][..j] == lists[..j];
  }

  /** The postings of the whole dictionary, in the order the build visits them. */
  function DictPostings(dict: KeywordsDict): seq<Posting>
  {
    if dict == [] then []
    else
      var last := dict[|dict| - 1];
      DictPostings(dict[..|dict| - 1]) + ListPostings(last.category, last.lists)
  }

  lemma DictPostingsSnoc(dict: KeywordsDict, i: nat)
    requires i < |dict|
    ensures DictPostings(dict[..i + 1]) == DictPostings(dict[..i]) + ListPostings(dict[i].category, dict[i].lists)
  {
    assert dict[..i + 1][..i] == dict[..i];
  }

  /** `p` files some keyword of `lists` under its own type and type weight. */
  predicate InLists(category: String, lists: seq<WordList>, p: Posting)
  {
    exists j, k | 0 <= j < |lists| && 0 <= k < |lists[j].words| ::
      p == Posting(lists[j].words[k], IndexEntry(category, lists[j].wordType, TypeWeight(lists[j].wordType)))
  }

  /** `p` files some keyword of the dictionary under its own category, type and
      type weight. */
  predicate Listed(dict: KeywordsDict, p: Posting)
  {
    exists i | 0 <= i < |dict| :: p.entry.category == dict[i].category && InLists(dict[i].category, dict[i].lists, p)
  }

  lemma {:induction false} ListPostingsMembers(category: String, lists: seq<WordList>)
    ensures forall p :: p in ListPostings(category, lists) <==> InLists(category, lists, p)
  {
    if lists != [] {
      var init := lists[..|lists| - 1];
      var last := lists[|lists| - 1];
      var tail := WordPostings(category, last.wordType, last.words);
      ListPostingsMembers(category, init);
      forall p ensures p in ListPostings(category, lists) <==> InLists(category, lists, p) {
        if p in ListPostings(category, init) {
          var j, k :| 0 <= j < |init| && 0 <= k < |init[j].words| &&
            p == Posting(init[j].words[k], IndexEntry(category, init[j].wordType, TypeWeight(init[j].wordType)));
          assert init[j] == lists[j];
        } else if p in tail {
          var k :| 0 <= k < |tail| && tail[k] == p;
          assert lists[|lists| - 1].words[k] == last.words[k];
        }
        if InLists(category, lists, p) {
          var j, k :| 0 <= j < |lists| && 0 <= k < |lists[j].words| &&
            p == Posting(lists[j].words[k], IndexEntry(category, lists[j].wordType, TypeWeight(lists[j].wordType)));
          if j < |lists| - 1 {
            assert init[j] == lists[j];
            assert InLists(category, init, p);
          } else {
            assert tail[k] == p;
          }
        }
      }
    }
  }

  lemma {:induction false} DictPostingsMembers(dict: KeywordsDict)
    ensures forall p :: p in DictPostings(dict) <==> Listed(dict, p)
  {
    if dict != [] {
      var init := dict[..|dict| - 1];
      var last := dict[|dict| - 1];
      DictPostingsMembers(init);
      ListPostingsMembers(last.category, last.lists);
      forall p ensures p in DictPostings(dict) <==> Listed(dict, p) {
        if p in DictPostings(init) {
          var i :| 0 <= i < |init| && p.entry.category == init[i].category && InLists(init[i].category, init[i].lists, p);
          assert init[i] == dict[i];
        } else if p in ListPostings(last.category, last.lists) {
          var j, k :| 0 <= j < |last.lists| && 0 <= k < |last.lists[j].words| &&
            p == Posting(last.lists[j].words[k], IndexEntry(last.category, last.lists[j].wordType, TypeWeight(last.lists[j].wordType)));
          assert dict[|dict| - 1] == last;
        }
        if Listed(dict, p) {
          var i :| 0 <= i < |dict| && p.entry.category == dict[i].category && InLists(dict[i].category, dict[i].lists, p);
          if i < |dict| - 1 {
            assert init[i] == dict[i];
            assert Listed(init, p);
          }
        }
      }
    }
  }

  /** `keyword_index[key].add(entry)` on a `defaultdict(set)`. */
  function Insert(index: Index, p: Posting): Index
  {
    var key := Key(p);
    index[key := (if key in index then index[key] else {}) + {p.entry}]
  }

  /** The index after filing `ps` in order into `index`. */
  function IndexOf(index: Index, ps: seq<Posting>): Index
  {
    if ps == [] then index else Insert(IndexOf(index, ps[..|ps| - 1]), ps[|ps| - 1])
  }

  lemma IndexOfSnoc(index: Index, ps: seq<Posting>, p: Posting)
    ensures IndexOf(index, ps + [p]) == Insert(IndexOf(index, ps), p)
  {
    assert (ps + [p])[..|ps|] == ps;
  }

  /** Filing two runs of postings is filing the first, then the second. */
  lemma {:induction false} IndexOfAppend(index: Index, a: seq<Posting>, b: seq<Posting>)
    ensures IndexOf(index, a + b) == IndexOf(IndexOf(index, a), b)
  {
    if b == [] {
      assert a + b == a;
    } else {
      assert (a + b)[..|a + b| - 1] == a + b[..|b| - 1];
      assert (a + b)[|a + b| - 1] == b[|b| - 1];
      IndexOfAppend(index, a, b[..|b| - 1]);
    }
  }

  /** `entry in index[key]` for a present key. */
  predicate Filed(index: Index, key: String, e: IndexEntry)
  {
    key in index && e in index[key]
  }

  /** Filing adds exactly the postings' keys. */
  lemma {:induction false} IndexOfKeys(index: Index, ps: seq<Posting>)
    ensures forall key :: key in IndexOf(index, ps) <==> key in index || exists p | p in ps :: Key(p) == key
  {
    if ps != [] {
      var init := ps[..|ps| - 1];
      var last := ps[|ps| - 1];
      IndexOfKeys(index, init);
      assert ps == init + [last];
      forall key ensures key in IndexOf(index, ps) <==> key in index || exists p | p in ps :: Key(p) == key {
        if exists p | p in ps :: Key(p) == key {
          var p :| p in ps && Key(p) == key;
          if p != last {
            assert p in init;
          }
        }
      }
    }
  }

  lemma InsertFiled(index: Index, p: Posting, key: String, e: IndexEntry)
    ensures Filed(Insert(index, p), key, e) <==> Filed(index, key, e) || (key == Key(p) && e == p.entry)
  {
  }

  /** Filing keeps `entry` under `key` exactly when it was there or one of the
      postings files it there. */
  lemma {:induction false} IndexOfFiledAt(index: Index, ps: seq<Posting>, key: String, e: IndexEntry)
    ensures Filed(IndexOf(index, ps), key, e) <==>
      Filed(index, key, e) || exists p | p in ps :: Key(p) == key && p.entry == e
  {
    if ps != [] {
      var init := ps[..|ps| - 1];
      var last := ps[|ps| - 1];
      var before := IndexOf(index, init);
      IndexOfFiledAt(index, init, key, e);
      InsertFiled(before, last, key, e);
      SnocFiles(ps, key, e);
    }
  }

  lemma SnocFiles(ps: seq<Posting>, key: String, e: IndexEntry)
    requires ps != []
    ensures (exists p | p in ps :: Key(p) == key && p.entry == e) <==>
      (exists p | p in ps[..|ps| - 1] :: Key(p) == key && p.entry == e) || (Key(ps[|ps| - 1]) == key && ps[|ps| - 1].entry == e)
  {
    var init, last := ps[..|ps| - 1], ps[|ps| - 1];
    assert ps == init + [last];
    if exists p | p in ps :: Key(p) == key && p.entry == e {
      var p :| p in ps && Key(p) == key && p.entry == e;
      if p != last {
        assert p in init;
      }
    }
  }

  /** Filing never removes a triple and adds exactly the postings' triples under
      their own keys. */
  lemma IndexOfFiled(index: Index, ps: seq<Posting>)
    ensures forall key, e :: Filed(IndexOf(index, ps), key, e) <==>
      Filed(index, key, e) || exists p | p in ps :: Key(p) == key && p.entry == e
  {
    forall key, e ensures Filed(IndexOf(index, ps), key, e) <==>
      Filed(index, key, e) || exists p | p in ps :: Key(p) == key && p.entry == e
    {
      IndexOfFiledAt(index, ps, key, e);
    }
  }

  /** `(category, type, weight)` is filed under `key` for some listed keyword. */
  ghost predicate Indexes(dict: KeywordsDict, key: String, e: IndexEntry)
  {
    exists p | Listed(dict, p) :: Key(p) == key && p.entry == e
  }

  /** After `_build_search_index` on an empty index: every listed keyword's triple
      is in `index[keyword.strip().lower()]`, nothing else is, shared keywords
      keep all their triples, and every key holds at least one triple. */
  lemma BuiltIndex(dict: KeywordsDict)
    ensures forall key, e :: Filed(IndexOf(map[], DictPostings(dict)), key, e) <==> Indexes(dict, key, e)
    ensures forall key | key in IndexOf(map[], DictPostings(dict)) :: IndexOf(map[], DictPostings(dict))[key] != {}
  {
    IndexOfKeys(map[], DictPostings(dict));
    IndexOfFiled(map[], DictPostings(dict));
    DictPostingsMembers(dict);
    forall key | key in IndexOf(map[], DictPostings(dict))
      ensures IndexOf(map[], DictPostings(dict))[key] != {}
    {
      var p :| p in DictPostings(dict) && Key(p) == key;
      assert Filed(IndexOf(map[], DictPostings(dict)), key, p.entry);
    }
  }

  // ---------------------------------------------------------------------------
  // max_keyword_length

  /** Python's `max` on two lengths. */
  function MaxNat(a: nat, b: nat): (m: nat)
    ensures a <= m && b <= m && (m == a || m == b)
  {
    if a >= b then a else b
  }

  /** The longest raw keyword among the postings, 0 for none. */
  function Longest(ps: seq<Posting>): nat
  {
    if ps == [] then 0 else MaxNat(Longest(ps[..|ps| - 1]), |ps[|ps| - 1].keyword|)
  }

  lemma LongestSnoc(ps: seq<Posting>, p: Posting)
    ensures Longest(ps + [p]) == MaxNat(Longest(ps), |p.keyword|)
  {
    assert (ps + [p])[..|ps|] == ps;
  }

  lemma {:induction false} LongestAppend(a: seq<Posting>, b: seq<Posting>)
    ensures Longest(a + b) == MaxNat(Longest(a), Longest(b))
  {
    if b == [] {
      assert a + b == a;
    } else {
      assert (a + b)[..|a + b| - 1] == a + b[..|b| - 1];
      assert (a + b)[|a + b| - 1] == b[|b| - 1];
      LongestAppend(a, b[..|b| - 1]);
    }
  }

  lemma {:induction false} LongestMeaning(ps: seq<Posting>)
    ensures forall p | p in ps :: |p.keyword| <= Longest(ps)
    ensures ps == [] ==> Longest(ps) == 0
    ensures ps != [] ==> exists p | p in ps :: |p.keyword| == Longest(ps)
  {
    if ps != [] {
      var init := ps[..|ps| - 1];
      LongestMeaning(init);
      assert ps == init + [ps[|ps| - 1]];
    }
  }

  /** `max_keyword_length` after the build is the longest raw (un-normalized)
      listed keyword, and 0 when the dictionary lists no keyword. */
  lemma BuiltLongest(dict: KeywordsDict)
    ensures forall p | Listed(dict, p) :: |p.keyword| <= Longest(DictPostings(dict))
    ensures (forall p :: !Listed(dict, p)) ==> Longest(DictPostings(dict)) == 0
    ensures Longest(DictPostings(dict)) == 0 || exists p | Listed(dict, p) :: |p.keyword| == Longest(DictPostings(dict))
  {
    DictPostingsMembers(dict);
    LongestMeaning(DictPostings(dict));
    if DictPostings(dict) != [] {
      assert DictPostings(dict)[0] in DictPostings(dict);
    }
  }

  /** Every index key is no longer than `max_keyword_length`, so the windows of
      `fast_search` reach every key. */
  lemma KeysFitWindows(dict: KeywordsDict)
    ensures forall key | key in IndexOf(map[], DictPostings(dict)) :: |key| <= Longest(DictPostings(dict))
  {
    IndexOfKeys(map[], DictPostings(dict));
    LongestMeaning(DictPostings(dict));
  }

  // ---------------------------------------------------------------------------
  // fast_search

  /** The category a dictionary key names, if it is one of the four. */
  function CategoryNamed(name: String): (r: Option<Category>)
    ensures r.Some? ==> Name(r.value) == name
    ensures forall c: Category :: Name(c) == name ==> r == Some(c)
  {
    if name == "SENSE" then Some(SENSE)
    else if name == "THINK" then Some(THINK)
    else if name == "ACT" then Some(ACT)
    else if name == "RELATE" then Some(RELATE)
    else None
  }

  /** What `scores[category] += weight` adds to the four reported scores: other
      categories are dropped by the final `scores.get(category, 0.0)`. */
  function Contribution(e: IndexEntry): (v: ScoreVector)
    ensures forall c: Category :: v.Get(c) == if e.category == Name(c) then e.weight else 0.0
  {
    match CategoryNamed(e.category)
    case None => Zero
    case Some(c) => Zero.Set(c, e.weight)
  }

  /** `scores[category] += weight` on the four reported scores. */
  function AddWeight(scores: ScoreVector, category: String, weight: real): (r: ScoreVector)
    ensures forall c: Category :: r.Get(c) == scores.Get(c) + if category == Name(c) then weight else 0.0
  {
    match CategoryNamed(category)
    case None => scores
    case Some(c) => scores.Set(c, scores.Get(c) + weight)
  }

  lemma AddWeightIsPlus(scores: ScoreVector, e: IndexEntry)
    ensures AddWeight(scores, e.category, e.weight) == scores.Plus(Contribution(e))
  {
    EqualByCategory(AddWeight(scores, e.category, e.weight), scores.Plus(Contribution(e)));
  }

  /** Some triple of a nonempty set. */
  ghost function Pick(s: set<IndexEntry>): (e: IndexEntry)
    requires s != {}
    ensures e in s
  {
    var e :| e in s; e
  }

  /** The sum of the contributions of a set of triples. */
  ghost function EntriesWeights(s: set<IndexEntry>): ScoreVector
    decreases s
  {
    if s == {} then Zero
    else
      var e := Pick(s);
      Contribution(e).Plus(EntriesWeights(s - {e}))
  }

  /** The sum over a set does not depend on the order its triples are visited. */
  lemma {:induction false} EntriesWeightsRemove(s: set<IndexEntry>, x: IndexEntry)
    requires x in s
    ensures EntriesWeights(s) == Contribution(x).Plus(EntriesWeights(s - {x}))
    decreases s
  {
    var y := Pick(s);
    if y != x {
      var rest := s - {y} - {x};
      assert s - {x} - {y} == rest;
      EntriesWeightsRemove(s - {y}, x);
      EntriesWeightsRemove(s - {x}, y);
      PlusSwap(Contribution(y), Contribution(x), EntriesWeights(rest));
    }
  }

  lemma PlusSwap(a: ScoreVector, b: ScoreVector, c: ScoreVector)
    ensures a.Plus(b.Plus(c)) == b.Plus(a.Plus(c))
  {
  }

  /** Every triple of the index carries a positive weight. */
  predicate PositiveWeights(index: Index)
  {
    forall key, e | key in index && e in index[key] :: e.weight > 0.0
  }

  lemma {:induction false} EntriesWeightsSign(s: set<IndexEntry>, c: Category)
    requires forall e | e in s :: e.weight > 0.0
    ensures EntriesWeights(s).Get(c) >= 0.0
    ensures EntriesWeights(s).Get(c) > 0.0 <==> exists e | e in s :: e.category == Name(c)
    decreases s
  {
    if s != {} {
      var e := Pick(s);
      EntriesWeightsSign(s - {e}, c);
      if e.category != Name(c) {
        forall x | x in s && x.category == Name(c) ensures x in s - {e} {}
      }
    }
  }

  /** The weights one window `t[s:e]` contributes: those of the triples filed
      under it, nothing when it is not a key. */
  ghost function WindowWeights(index: Index, t: String, s: nat, e: nat): ScoreVector
    requires s <= e <= |t|
  {
    if t[s..e] in index then EntriesWeights(index[t[s..e]]) else Zero
  }

  /** The windows `t[s:s+1]` … `t[s:last]`. */
  ghost function EndsSum(index: Index, t: String, s: nat, last: nat): ScoreVector
    requires s <= last <= |t|
    decreases last - s
  {
    if last == s then Zero else EndsSum(index, t, s, last - 1).Plus(WindowWeights(index, t, s, last))
  }

  /** `max_end = min(start_pos + max_keyword_length, text_length)` */
  function WindowEnd(s: nat, maxLen: nat, n: nat): (e: nat)
    ensures e <= n && e <= s + maxLen
    ensures e == n || e == s + maxLen
  {
    if s + maxLen < n then s + maxLen else n
  }

  /** The windows starting before `k`. */
  ghost function StartsSum(index: Index, t: String, maxLen: nat, k: nat): ScoreVector
    requires k <= |t|
  {
    if k == 0 then Zero
    else StartsSum(index, t, maxLen, k - 1).Plus(EndsSum(index, t, k - 1, WindowEnd(k - 1, maxLen, |t|)))
  }

  /** `fast_search(text)`: all zeros for the empty text, otherwise the weights of
      every window of `text.lower()` no longer than `maxLen`, overlapping, nested
      and repeated windows each counted. */
  ghost function FastSearchScores(index: Index, maxLen: nat, text: String): ScoreVector
  {
    if text == [] then Zero else StartsSum(index, Lower(text), maxLen, |text|)
  }

  /** Window `t[s:e]` is a key filing a triple of category `c`. */
  predicate Hit(index: Index, t: String, s: nat, e: nat, c: Category)
    requires s <= e <= |t|
  {
    t[s..e] in index && exists x | x in index[t[s..e]] :: x.category == Name(c)
  }

  lemma WindowWeightsSign(index: Index, t: String, s: nat, e: nat, c: Category)
    requires PositiveWeights(index)
    requires s <= e <= |t|
    ensures WindowWeights(index, t, s, e).Get(c) >= 0.0
    ensures WindowWeights(index, t, s, e).Get(c) > 0.0 <==> Hit(index, t, s, e, c)
  {
    if t[s..e] in index {
      EntriesWeightsSign(index[t[s..e]], c);
    }
  }

  lemma {:induction false} EndsSumSign(index: Index, t: String, s: nat, last: nat, c: Category)
    requires PositiveWeights(index)
    requires s <= last <= |t|
    ensures EndsSum(index, t, s, last).Get(c) >= 0.0
    ensures EndsSum(index, t, s, last).Get(c) > 0.0 <==> exists e | s < e <= last :: Hit(index, t, s, e, c)
    decreases last - s
  {
    if last > s {
      EndsSumSign(index, t, s, last - 1, c);
      WindowWeightsSign(index, t, s, last, c);
      if exists e | s < e <= last :: Hit(index, t, s, e, c) {
        var e :| s < e <= last && Hit(index, t, s, e, c);
        if e < last {
          assert exists e' | s < e' <= last - 1 :: Hit(index, t, s, e', c);
        }
      }
    }
  }

  lemma {:induction false} StartsSumSign(index: Index, t: String, maxLen: nat, k: nat, c: Category)
    requires PositiveWeights(index)
    requires k <= |t|
    ensures StartsSum(index, t, maxLen, k).Get(c) >= 0.0
    ensures StartsSum(index, t, maxLen, k).Get(c) > 0.0 <==>
      exists s, e | 0 <= s < k && s < e <= WindowEnd(s, maxLen, |t|) :: Hit(index, t, s, e, c)
  {
    if k > 0 {
      StartsSumSign(index, t, maxLen, k - 1, c);
      EndsSumSign(index, t, k - 1, WindowEnd(k - 1, maxLen, |t|), c);
      if exists s, e | 0 <= s < k && s < e <= WindowEnd(s, maxLen, |t|) :: Hit(index, t, s, e, c) {
        var s, e :| 0 <= s < k && s < e <= WindowEnd(s, maxLen, |t|) && Hit(index, t, s, e, c);
        if s < k - 1 {
          assert exists s', e' | 0 <= s' < k - 1 && s' < e' <= WindowEnd(s', maxLen, |t|) :: Hit(index, t, s', e', c);
        } else {
          var s0 := k - 1;
          assert exists e' | s0 < e' <= WindowEnd(s0, maxLen, |t|) :: Hit(index, t, s0, e', c);
        }
      }
    }
  }

  /** `fast_search(text)[c]` is never negative, and is positive exactly when some
      window of `text.lower()` of length at most `maxLen` is a key filing a triple
      of category `c`. */
  lemma FastSearchSign(index: Index, maxLen: nat, text: String, c: Category)
    requires PositiveWeights(index)
    ensures FastSearchScores(index, maxLen, text).Get(c) >= 0.0
    ensures FastSearchScores(index, maxLen, text).Get(c) > 0.0 <==>
      exists s, e | 0 <= s < e <= |text| && e - s <= maxLen :: Hit(index, Lower(text), s, e, c)
  {
    if text != [] {
      var t := Lower(text);
      StartsSumSign(index, t, maxLen, |t|, c);
      if exists s, e | 0 <= s < e <= |text| && e - s <= maxLen :: Hit(index, t, s, e, c) {
        var s, e :| 0 <= s < e <= |text| && e - s <= maxLen && Hit(index, t, s, e, c);
        assert 0 <= s < |t| && s < e <= WindowEnd(s, maxLen, |t|);
      }
      if exists s, e | 0 <= s < |t| && s < e <= WindowEnd(s, maxLen, |t|) :: Hit(index, t, s, e, c) {
        var s, e :| 0 <= s < |t| && s < e <= WindowEnd(s, maxLen, |t|) && Hit(index, t, s, e, c);
        assert 0 <= s < e <= |text| && e - s <= maxLen;
      }
    }
  }

  // ---------------------------------------------------------------------------
  // _linear_search

  /** One keyword of the naive scan: its type weight once when
      `keyword.lower() in text.lower()`, however often it occurs. */
  function LinearHit(p: Posting, text: String): ScoreVector
  {
    if Contains(Lower(text), Lower(p.keyword)) then Contribution(p.entry) else Zero
  }

  /** `_linear_search(text)` over the postings in order. */
  function LinearScores(ps: seq<Posting>, text: String): ScoreVector
  {
    if ps == [] then Zero else LinearScores(ps[..|ps| - 1], text).Plus(LinearHit(ps[|ps| - 1], text))
  }

  lemma LinearSnoc(ps: seq<Posting>, p: Posting, text: String)
    ensures LinearScores(ps + [p], text) == LinearScores(ps, text).Plus(LinearHit(p, text))
  {
    assert (ps + [p])[..|ps|] == ps;
  }

  lemma {:induction false} LinearAppend(a: seq<Posting>, b: seq<Posting>, text: String)
    ensures LinearScores(a + b, text) == LinearScores(a, text).Plus(LinearScores(b, text))
  {
    if b == [] {
      assert a + b == a;
    } else {
      assert (a + b)[..|a + b| - 1] == a + b[..|b| - 1];
      assert (a + b)[|a + b| - 1] == b[|b| - 1];
      LinearAppend(a, b[..|b| - 1], text);
    }
  }

  /** The naive scan depends only on which keywords occur, not on how often or
      where. */
  lemma {:induction false} LinearSamePresence(ps: seq<Posting>, t1: String, t2: String)
    requires forall p | p in ps :: Contains(Lower(t1), Lower(p.keyword)) <==> Contains(Lower(t2), Lower(p.keyword))
    ensures LinearScores(ps, t1) == LinearScores(ps, t2)
  {
    if ps != [] {
      assert ps[|ps| - 1] in ps;
      assert forall p | p in ps[..|ps| - 1] :: p in ps;
      LinearSamePresence(ps[..|ps| - 1], t1, t2);
    }
  }

  /** Every posting carries a positive weight. */
  predicate PositivePostings(ps: seq<Posting>)
  {
    forall p | p in ps :: p.entry.weight > 0.0
  }

  /** With positive weights the naive score of `c` is never negative, and is
      positive exactly when some keyword of `c` occurs in the text. */
  lemma {:induction false} LinearSign(ps: seq<Posting>, text: String, c: Category)
    requires PositivePostings(ps)
    ensures LinearScores(ps, text).Get(c) >= 0.0
    ensures LinearScores(ps, text).Get(c) > 0.0 <==>
      exists p | p in ps :: p.entry.category == Name(c) && Contains(Lower(text), Lower(p.keyword))
  {
    if ps != [] {
      var init := ps[..|ps| - 1];
      assert ps == init + [ps[|ps| - 1]];
      LinearSign(init, text, c);
    }
  }

  // ---------------------------------------------------------------------------
  // fast_search against _linear_search

  /** Keywords as the tables list them: non-empty, with no surrounding whitespace. */
  predicate CleanKeywords(dict: KeywordsDict)
  {
    forall i, j, k | 0 <= i < |dict| && 0 <= j < |dict[i].lists| && 0 <= k < |dict[i].lists[j].words| ::
      dict[i].lists[j].words[k] != [] && IsStripped(dict[i].lists[j].words[k])
  }

  lemma CleanListed(dict: KeywordsDict, p: Posting)
    requires CleanKeywords(dict) && Listed(dict, p)
    ensures p.keyword != [] && IsStripped(p.keyword)
  {
    var i :| 0 <= i < |dict| && p.entry.category == dict[i].category && InLists(dict[i].category, dict[i].lists, p);
    var lists := dict[i].lists;
    var j, k :| 0 <= j < |lists| && 0 <= k < |lists[j].words| &&
      p == Posting(lists[j].words[k], IndexEntry(dict[i].category, lists[j].wordType, TypeWeight(lists[j].wordType)));
  }

  /** A listed posting carries the type weight of its type. */
  lemma ListedWeight(dict: KeywordsDict, p: Posting)
    requires Listed(dict, p)
    ensures p.entry.weight == TypeWeight(p.entry.wordType)
  {
    var i :| 0 <= i < |dict| && p.entry.category == dict[i].category && InLists(dict[i].category, dict[i].lists, p);
    var lists := dict[i].lists;
    var j, k :| 0 <= j < |lists| && 0 <= k < |lists[j].words| &&
      p == Posting(lists[j].words[k], IndexEntry(dict[i].category, lists[j].wordType, TypeWeight(lists[j].wordType)));
  }

  /** Filing postings of positive weight keeps every weight positive. */
  lemma PositiveIndexOf(index: Index, ps: seq<Posting>)
    requires PositiveWeights(index) && PositivePostings(ps)
    ensures PositiveWeights(IndexOf(index, ps))
  {
    IndexOfFiled(index, ps);
    forall key, e | key in IndexOf(index, ps) && e in IndexOf(index, ps)[key] ensures e.weight > 0.0 {
      assert Filed(IndexOf(index, ps), key, e);
    }
  }

  /** Every triple the build files carries its type weight, which is positive. */
  lemma BuiltWeightsPositive(dict: KeywordsDict)
    ensures PositivePostings(DictPostings(dict))
    ensures PositiveWeights(IndexOf(map[], DictPostings(dict)))
  {
    DictPostingsMembers(dict);
    forall p | p in DictPostings(dict) ensures p.entry.weight > 0.0 {
      ListedWeight(dict, p);
    }
    PositiveIndexOf(map[], DictPostings(dict));
  }

  /** A window the fast scan counts for `c` is the key of a listed keyword of `c`. */
  lemma WindowKeyword(dict: KeywordsDict, t: String, s: nat, e: nat, c: Category) returns (p: Posting)
    requires s <= e <= |t| && Hit(IndexOf(map[], DictPostings(dict)), t, s, e, c)
    ensures Listed(dict, p) && p.entry.category == Name(c) && Key(p) == t[s..e]
  {
    var ix := IndexOf(map[], DictPostings(dict));
    BuiltIndex(dict);
    var x: IndexEntry :| x in ix[t[s..e]] && x.category == Name(c);
    assert Filed(ix, t[s..e], x);
    p :| Listed(dict, p) && Key(p) == t[s..e] && p.entry == x;
  }

  /** A window the fast scan counts for `c` is a keyword of `c` the naive scan finds. */
  lemma WindowFoundByLinear(dict: KeywordsDict, t: String, s: nat, e: nat, c: Category)
    requires CleanKeywords(dict)
    requires s <= e <= |t| && Hit(IndexOf(map[], DictPostings(dict)), t, s, e, c)
    ensures exists p | p in DictPostings(dict) :: p.entry.category == Name(c) && Contains(t, Lower(p.keyword))
  {
    var p := WindowKeyword(dict, t, s, e, c);
    CleanListed(dict, p);
    StripFixpoint(p.keyword);
    var w := Lower(p.keyword);
    assert Key(p) == w;
    assert t[s..s + |w|] == w;
    assert OccursAt(t, w, s);
    DictPostingsMembers(dict);
    assert p in DictPostings(dict);
  }

  /** A keyword of `c` the naive scan finds is a window the fast scan counts. */
  lemma LinearFoundByWindow(dict: KeywordsDict, t: String, p: Posting, c: Category)
    requires CleanKeywords(dict)
    requires p in DictPostings(dict) && p.entry.category == Name(c) && Contains(t, Lower(p.keyword))
    ensures exists s, e | 0 <= s < e <= |t| && e - s <= Longest(DictPostings(dict)) ::
      Hit(IndexOf(map[], DictPostings(dict)), t, s, e, c)
  {
    var ps := DictPostings(dict);
    var ix := IndexOf(map[], ps);
    assert Listed(dict, p) by { DictPostingsMembers(dict); }
    assert |p.keyword| <= Longest(ps) by { LongestMeaning(ps); }
    var w := Lower(p.keyword);
    CleanListed(dict, p);
    StripFixpoint(p.keyword);
    assert Key(p) == w && |w| == |p.keyword| > 0;
    var i :| 0 <= i <= |t| - |w| && OccursAt(t, w, i);
    assert Filed(ix, w, p.entry) by {
      assert Indexes(dict, w, p.entry);
      BuiltIndex(dict);
    }
    FiledWindowHits(ix, t, w, i, p.entry, c);
  }

  /** An occurrence of a key holding a triple of `c` is a window counted for `c`. */
  lemma FiledWindowHits(ix: Index, t: String, w: String, i: nat, x: IndexEntry, c: Category)
    requires OccursAt(t, w, i) && Filed(ix, w, x) && x.category == Name(c)
    ensures Hit(ix, t, i, i + |w|, c)
  {
  }

  /** On clean keywords the sliding window and the naive scan find the same
      categories: `fast_search(text)[c] > 0` exactly when `_linear_search(text)[c] > 0`.
      (An empty keyword is found by the naive scan in every text and by the
      window scan in none.) */
  lemma FastAgreesWithLinear(dict: KeywordsDict, text: String, c: Category)
    requires CleanKeywords(dict)
    ensures FastSearchScores(IndexOf(map[], DictPostings(dict)), Longest(DictPostings(dict)), text).Get(c) > 0.0
        <==> LinearScores(DictPostings(dict), text).Get(c) > 0.0
  {
    var ps := DictPostings(dict);
    var ix := IndexOf(map[], ps);
    var t := Lower(text);
    BuiltWeightsPositive(dict);
    FastSearchSign(ix, Longest(ps), text, c);
    LinearSign(ps, text, c);
    if FastSearchScores(ix, Longest(ps), text).Get(c) > 0.0 {
      var s, e :| 0 <= s < e <= |text| && e - s <= Longest(ps) && Hit(ix, t, s, e, c);
      WindowFoundByLinear(dict, t, s, e, c);
    }
    if LinearScores(ps, text).Get(c) > 0.0 {
      var p :| p in ps && p.entry.category == Name(c) && Contains(t, Lower(p.keyword));
      LinearFoundByWindow(dict, t, p, c);
    }
  }

  // ---------------------------------------------------------------------------
  // AdvancedKeywordMatcher

  /** `'！' in text or '!!' in text` */
  predicate Exclaims(text: String)
  {
    Contains(text, "！") || Contains(text, "!!")
  }

  /** `'？' in text or '??' in text` */
  predicate Asks(text: String)
  {
    Contains(text, "？") || Contains(text, "??")
  }

  /** The rescaling of `contextual_search`, in place on the result of
      `fast_search`. */
  function ContextualBoost(scores: ScoreVector, text: String, boost: real): ScoreVector
  {
    var s1 := if Exclaims(text) then scores.(sense := scores.sense * boost, act := scores.act * boost) else scores;
    if Asks(text) then s1.(think := s1.think * boost) else s1
  }

  /** A factor of at least 1 never lowers a non-negative score. */
  lemma NoLess(x: real, k: real)
    requires x >= 0.0 && k >= 1.0
    ensures x <= x * k
  {
    assert x * k - x == x * (k - 1.0);
  }

  /** SENSE and ACT are multiplied by the boost exactly when the text exclaims,
      THINK exactly when it asks, and RELATE is never changed; with a boost of at
      least 1 no score of a non-negative vector goes down. */
  lemma ContextualMeaning(scores: ScoreVector, text: String, boost: real)
    ensures ContextualBoost(scores, text, boost).Get(RELATE) == scores.Get(RELATE)
    ensures ContextualBoost(scores, text, boost).Get(SENSE) == if Exclaims(text) then scores.Get(SENSE) * boost else scores.Get(SENSE)
    ensures ContextualBoost(scores, text, boost).Get(ACT) == if Exclaims(text) then scores.Get(ACT) * boost else scores.Get(ACT)
    ensures ContextualBoost(scores, text, boost).Get(THINK) == if Asks(text) then scores.Get(THINK) * boost else scores.Get(THINK)
    ensures boost >= 1.0 && scores.NonNegative() ==>
      forall c: Category :: scores.Get(c) <= ContextualBoost(scores, text, boost).Get(c)
  {
    ContextualFields(scores, Exclaims(text), Asks(text), boost);
    if boost >= 1.0 && scores.NonNegative() {
      ContextualNoLess(scores, text, boost);
    }
  }

  lemma ContextualNoLess(scores: ScoreVector, text: String, boost: real)
    requires boost >= 1.0 && scores.NonNegative()
    ensures forall c: Category :: scores.Get(c) <= ContextualBoost(scores, text, boost).Get(c)
  {
    var r := ContextualBoost(scores, text, boost);
    ContextualFields(scores, Exclaims(text), Asks(text), boost);
    forall c: Category ensures scores.Get(c) <= r.Get(c) {
      assert scores.Get(c) >= 0.0;
      NoLess(scores.Get(c), boost);
    }
  }

  /** The rescaling with the two tests on the text already decided. */
  lemma ContextualFields(scores: ScoreVector, exclaims: bool, asks: bool, boost: real)
    ensures var s1 := if exclaims then scores.(sense := scores.sense * boost, act := scores.act * boost) else scores;
      var s2 := if asks then s1.(think := s1.think * boost) else s1;
      && s2.relate == scores.relate
      && s2.sense == (if exclaims then scores.sense * boost else scores.sense)
      && s2.act == (if exclaims then scores.act * boost else scores.act)
      && s2.think == (if asks then scores.think * boost else scores.think)
  {
  }

  /** The markers of the two sentence patterns of `pattern_based_search`. */
  const SVMarkers: seq<String> := ["は", "が", "を"]
  const SOVMarkers: seq<String> := ["を", "に", "で"]

  /** `any(marker in text for marker in markers)` */
  predicate AnyMarker(text: String, markers: seq<String>)
  {
    exists m | m in markers :: Contains(text, m)
  }

  /** The rescaling of `pattern_based_search`, the SV pattern first. */
  function PatternBoost(scores: ScoreVector, text: String): ScoreVector
  {
    var s1 := if AnyMarker(text, SVMarkers) then scores.(sense := scores.sense * 1.1, think := scores.think * 1.1) else scores;
    if AnyMarker(text, SOVMarkers) then s1.(act := s1.act * 1.1, relate := s1.relate * 1.1) else s1
  }

  /** SENSE and THINK are multiplied by 1.1 exactly when は, が or を occurs, ACT
      and RELATE exactly when を, に or で occurs; so を alone boosts all four, and
      a non-negative vector never goes down. */
  lemma PatternMeaning(scores: ScoreVector, text: String)
    ensures forall c: Category | c == SENSE || c == THINK ::
      PatternBoost(scores, text).Get(c) == if AnyMarker(text, SVMarkers) then scores.Get(c) * 1.1 else scores.Get(c)
    ensures forall c: Category | c == ACT || c == RELATE ::
      PatternBoost(scores, text).Get(c) == if AnyMarker(text, SOVMarkers) then scores.Get(c) * 1.1 else scores.Get(c)
    ensures Contains(text, "を") ==> PatternBoost(scores, text) == scores.Scale(1.1)
    ensures scores.NonNegative() ==> forall c: Category :: scores.Get(c) <= PatternBoost(scores, text).Get(c)
  {
    if Contains(text, "を") {
      assert SVMarkers[2] == "を" && SOVMarkers[0] == "を";
      assert AnyMarker(text, SVMarkers) && AnyMarker(text, SOVMarkers);
    }
    if scores.NonNegative() {
      assert scores.Get(SENSE) >= 0.0 && scores.Get(THINK) >= 0.0 && scores.Get(ACT) >= 0.0 && scores.Get(RELATE) >= 0.0;
    }
  }
}
