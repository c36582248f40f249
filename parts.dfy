/** `_split_into_parts` (star_analyzer.py:767-781) and `_track_emotion_progression`
    (731-765) as specification functions: the text is split on each separator in
    turn, the pieces stripped and the empty ones dropped; every remaining part of at
    least two characters with a keyword hit gets an entry naming its dominant
    category. */
module Parts {
  import opened Wrappers
  import opened Text
  import opened Categories
  import opened KeywordTable
  import opened Scoring

  /** `separators` in the order they are applied. */
  const Separators: seq<String> :=
    ["。", "、", "が", "けれど", "しかし", "でも", "そして", "また", "そこで", "！", "!"]

  predicate NonEmptySeparators(seps: seq<String>)
  {
    forall k | 0 <= k < |seps| :: seps[k] != []
  }

  /** `new_parts` once the inner loop has split every part of `parts`. */
  function SplitEach(parts: seq<String>, sep: String): seq<String>
    requires sep != []
  {
    if parts == [] then []
    else SplitEach(parts[..|parts| - 1], sep) + SplitOn(parts[|parts| - 1], sep)
  }

  /** `[p.strip() for p in ps if p.strip()]` */
  function StripNonEmpty(ps: seq<String>): seq<String>
  {
    if ps == [] then []
    else
      var q := Strip(ps[|ps| - 1]);
      StripNonEmpty(ps[..|ps| - 1]) + (if q != [] then [q] else [])
  }

  /** `parts` after the outer loop has applied the separators `seps` in order. */
  function SplitWith(text: String, seps: seq<String>): seq<String>
    requires NonEmptySeparators(seps)
  {
    if seps == [] then [text]
    else StripNonEmpty(SplitEach(SplitWith(text, seps[..|seps| - 1]), seps[|seps| - 1]))
  }

  /** `_split_into_parts` */
  function SplitParts(text: String): seq<String>
  {
    SplitWith(text, Separators)
  }

  /** Every piece of every split part avoids the separator, and avoids each word no
      part contained before the split. */
  lemma {:induction false} SplitEachAvoids(parts: seq<String>, sep: String, avoid: seq<String>)
    requires sep != []
    requires forall p, w | p in parts && w in avoid :: !Contains(p, w)
    ensures forall q | q in SplitEach(parts, sep) :: !Contains(q, sep)
    ensures forall q, w | q in SplitEach(parts, sep) && w in avoid :: !Contains(q, w)
    decreases |parts|
  {
    if parts != [] {
      var init := parts[..|parts| - 1];
      var last := parts[|parts| - 1];
      assert forall p | p in init :: p in parts;
      SplitEachAvoids(init, sep, avoid);
      SplitPiecesAvoid(last, sep, sep);
      forall w | w in avoid ensures forall q | q in SplitOn(last, sep) :: !Contains(q, w) {
        SplitPiecesAvoid(last, sep, w);
      }
    }
  }

  /** The stripped, non-empty pieces are non-empty and stripped, and avoid whatever
      the pieces avoided. */
  lemma {:induction false} StripNonEmptyShape(ps: seq<String>, avoid: seq<String>)
    requires forall p, w | p in ps && w in avoid :: !Contains(p, w)
    ensures forall q | q in StripNonEmpty(ps) :: q != [] && IsStripped(q)
    ensures forall q, w | q in StripNonEmpty(ps) && w in avoid :: !Contains(q, w)
    decreases |ps|
  {
    if ps != [] {
      var init := ps[..|ps| - 1];
      var last := ps[|ps| - 1];
      assert forall p | p in init :: p in ps;
      StripNonEmptyShape(init, avoid);
      var a, b := StripSlice(last);
      forall w | w in avoid ensures !Contains(Strip(last), w) {
        StripAvoids(last, w);
      }
    }
  }

  /** After at least one separator, every part is non-empty, stripped, and contains
      none of the separators applied so far. */
  lemma {:induction false} SplitWithShape(text: String, seps: seq<String>)
    requires NonEmptySeparators(seps) && seps != []
    ensures forall p | p in SplitWith(text, seps) :: p != [] && IsStripped(p)
    ensures forall p, w | p in SplitWith(text, seps) && w in seps :: !Contains(p, w)
    decreases |seps|
  {
    var init := seps[..|seps| - 1];
    var sep := seps[|seps| - 1];
    var before := SplitWith(text, init);
    if init != [] {
      SplitWithShape(text, init);
    }
    SplitEachAvoids(before, sep, init);
    var pieces := SplitEach(before, sep);
    StripNonEmptyShape(pieces, init + [sep]);
    assert forall w | w in seps :: w in init + [sep];
  }

  /** `_split_into_parts` returns non-empty, stripped parts that contain none of the
      separators. */
  lemma SplitPartsShape(text: String)
    ensures forall p | p in SplitParts(text) :: p != [] && IsStripped(p)
    ensures forall p, sep | p in SplitParts(text) && sep in Separators :: !Contains(p, sep)
  {
    SplitWithShape(text, Separators);
  }

  /** One stage applied to a single part without the separator strips it. */
  lemma StageOfAbsent(p: String, sep: String)
    requires sep != [] && !Contains(p, sep)
    ensures StripNonEmpty(SplitEach([p], sep)) == (if Strip(p) == [] then [] else [Strip(p)])
  {
    SplitOnAbsent(p, sep);
    assert SplitEach([p], sep) == SplitEach([], sep) + [p];
    assert [p][..0] == [];
  }

  /** A text without any separator stays whole: `_split_into_parts` gives the text
      stripped, or nothing when the text is blank. */
  lemma {:induction false} SplitWithAbsent(text: String, seps: seq<String>)
    requires NonEmptySeparators(seps)
    requires forall w | w in seps :: !Contains(text, w)
    ensures seps != [] ==> SplitWith(text, seps) == (if Strip(text) == [] then [] else [Strip(text)])
    decreases |seps|
  {
    if seps != [] {
      var init := seps[..|seps| - 1];
      var sep := seps[|seps| - 1];
      assert sep in seps;
      assert forall w | w in init :: w in seps;
      SplitWithAbsent(text, init);
      if init == [] {
        StageOfAbsent(text, sep);
      } else if Strip(text) != [] {
        var q := Strip(text);
        StripAvoids(text, sep);
        var _, _ := StripSlice(text);
        StripFixpoint(q);
        StageOfAbsent(q, sep);
      }
    }
  }

  lemma SplitPartsWhole(text: String)
    requires forall w | w in Separators :: !Contains(text, w)
    ensures SplitParts(text) == (if Strip(text) == [] then [] else [Strip(text)])
  {
    SplitWithAbsent(text, Separators);
  }

  // ---------------------------------------------------------------------------
  // _track_emotion_progression

  /** One entry of the progression: `position`, `text_part`, `dominant_emotion`,
      `score` and `all_scores`. */
  datatype ProgressionEntry = ProgressionEntry(
    position: nat, textPart: String, dominant: Category, score: real, allScores: ScoreVector)

  /** `part_scores`: 1.0 for every keyword entry present in the part, so a
      category scores above zero exactly when one of its words occurs in the part. */
  function PartScores(kw: KeywordDictionary, part: String): (s: ScoreVector)
    ensures forall c: Category :: s.Get(c) == KeywordHits(kw, c, part) as real
    ensures s.NonNegative()
    ensures forall c: Category :: s.Get(c) > 0.0 <==> AnyPresent(part, kw.Lists(c))
  {
    ListsHitsPositive(part, kw.sense);
    ListsHitsPositive(part, kw.think);
    ListsHitsPositive(part, kw.act);
    ListsHitsPositive(part, kw.relate);
    ScoreVector(KeywordHits(kw, SENSE, part) as real, KeywordHits(kw, THINK, part) as real,
                KeywordHits(kw, ACT, part) as real, KeywordHits(kw, RELATE, part) as real)
  }

  /** A part takes part in the progression: at least two characters once stripped,
      and some keyword hit. */
  predicate Tracked(kw: KeywordDictionary, part: String)
  {
    |Strip(part)| >= 2 && MaxScore(PartScores(kw, part)) > 0.0
  }

  /** The entry of a tracked part at `position`. */
  function EntryFor(kw: KeywordDictionary, position: nat, part: String): ProgressionEntry
  {
    var s := PartScores(kw, part);
    ProgressionEntry(position, part, ArgMax(s), s.Get(ArgMax(s)), s)
  }

  /** What the loop body produces for the part at `position`: an entry when the
      part is tracked, nothing otherwise. */
  function PartEntry(kw: KeywordDictionary, position: nat, part: String): Option<ProgressionEntry>
  {
    if Tracked(kw, part) then Some(EntryFor(kw, position, part)) else None
  }

  /** The loop body's outcome for every part, by position. */
  function PartEntries(kw: KeywordDictionary, parts: seq<String>): (xs: seq<Option<ProgressionEntry>>)
    ensures |xs| == |parts|
    ensures forall i | 0 <= i < |parts| :: xs[i] == PartEntry(kw, i, parts[i])
  {
    seq(|parts|, i requires 0 <= i < |parts| => PartEntry(kw, i, parts[i]))
  }

  /** The entries present among `xs`, in order: what the loop has appended once it
      has seen `|xs|` parts. */
  function Present(xs: seq<Option<ProgressionEntry>>): seq<ProgressionEntry>
  {
    if xs == [] then []
    else Present(xs[..|xs| - 1]) + (if xs[|xs| - 1].Some? then [xs[|xs| - 1].value] else [])
  }

  /** `_track_emotion_progression` given the parts of the text. */
  function ProgressionOf(kw: KeywordDictionary, parts: seq<String>): seq<ProgressionEntry>
  {
    Present(PartEntries(kw, parts))
  }

  /** Each outcome that is present carries its own index as position. */
  predicate IndexedBy(xs: seq<Option<ProgressionEntry>>)
  {
    forall i | 0 <= i < |xs| && xs[i].Some? :: xs[i].value.position == i
  }

  /** The present entries of a position-indexed sequence come from their own
      positions, in rising order. */
  lemma {:induction false} PresentFrom(xs: seq<Option<ProgressionEntry>>)
    requires IndexedBy(xs)
    ensures forall k | 0 <= k < |Present(xs)| ::
              Present(xs)[k].position < |xs| && xs[Present(xs)[k].position] == Some(Present(xs)[k])
    ensures forall k, l | 0 <= k < l < |Present(xs)| :: Present(xs)[k].position < Present(xs)[l].position
    decreases |xs|
  {
    if xs != [] {
      var init := xs[..|xs| - 1];
      var n := |xs| - 1;
      PresentFrom(init);
      var rest := Present(init);
      assert forall k | 0 <= k < |rest| :: xs[rest[k].position] == init[rest[k].position];
      if xs[n].Some? {
        assert Present(xs) == rest + [xs[n].value];
      } else {
        assert Present(xs) == rest;
      }
    }
  }

  /** A present outcome of a position-indexed sequence is among its present
      entries, and only a present one is. */
  lemma {:induction false} PresentCovers(xs: seq<Option<ProgressionEntry>>, i: nat)
    requires IndexedBy(xs) && i < |xs|
    ensures xs[i].Some? <==> exists k | 0 <= k < |Present(xs)| :: Present(xs)[k].position == i
    decreases |xs|
  {
    var n := |xs| - 1;
    var init := xs[..n];
    var rest := Present(init);
    var r := Present(xs);
    var last := if xs[n].Some? then [xs[n].value] else [];
    assert r == rest + last;
    if exists k | 0 <= k < |r| :: r[k].position == i {
      PresentFrom(xs);
      var k :| 0 <= k < |r| && r[k].position == i;
      assert xs[i] == Some(r[k]);
    }
    if xs[i].Some? {
      if i < n {
        assert init[i] == xs[i];
        PresentCovers(init, i);
        var k :| 0 <= k < |rest| && rest[k].position == i;
        assert k < |r| && r[k] == rest[k];
        assert r[k].position == i;
      } else {
        assert |rest| < |r| && r[|rest|].position == i;
      }
      assert exists k | 0 <= k < |Present(xs)| :: Present(xs)[k].position == i;
    }
  }

  /** The present entries of a position-indexed sequence come from their own
      positions, in rising order, and every present outcome is among them. */
  lemma PresentShape(xs: seq<Option<ProgressionEntry>>)
    requires IndexedBy(xs)
    ensures forall k | 0 <= k < |Present(xs)| ::
              Present(xs)[k].position < |xs| && xs[Present(xs)[k].position] == Some(Present(xs)[k])
    ensures forall k, l | 0 <= k < l < |Present(xs)| :: Present(xs)[k].position < Present(xs)[l].position
    ensures forall i | 0 <= i < |xs| :: xs[i].Some? <==> exists k | 0 <= k < |Present(xs)| :: Present(xs)[k].position == i
  {
    PresentFrom(xs);
    forall i | 0 <= i < |xs|
      ensures xs[i].Some? <==> exists k | 0 <= k < |Present(xs)| :: Present(xs)[k].position == i
    {
      PresentCovers(xs, i);
    }
  }

  /** What an entry records about the scores of its part. */
  predicate EntryScores(kw: KeywordDictionary, e: ProgressionEntry)
  {
    && Tracked(kw, e.textPart)
    && e.allScores == PartScores(kw, e.textPart)
    && e.dominant == ArgMax(e.allScores)
    && e.score == MaxScore(e.allScores) > 0.0
  }

  /** The loop body records each part's own position. */
  lemma EntriesIndexed(kw: KeywordDictionary, parts: seq<String>)
    ensures IndexedBy(PartEntries(kw, parts))
  {
  }

  /** Each entry of the progression names its part's position and text, the part's
      scores, the first category with the largest score, and that score, which is
      positive; the positions rise with the text. */
  lemma ProgressionEntries(kw: KeywordDictionary, parts: seq<String>)
    ensures forall k | 0 <= k < |ProgressionOf(kw, parts)| ::
              && ProgressionOf(kw, parts)[k].position < |parts|
              && ProgressionOf(kw, parts)[k].textPart == parts[ProgressionOf(kw, parts)[k].position]
              && EntryScores(kw, ProgressionOf(kw, parts)[k])
    ensures forall k, l | 0 <= k < l < |ProgressionOf(kw, parts)| ::
              ProgressionOf(kw, parts)[k].position < ProgressionOf(kw, parts)[l].position
  {
    var xs := PartEntries(kw, parts);
    var r := Present(xs);
    EntriesIndexed(kw, parts);
    PresentShape(xs);
    forall k | 0 <= k < |r|
      ensures r[k].position < |parts| && r[k].textPart == parts[r[k].position] && EntryScores(kw, r[k])
    {
      var e := r[k];
      assert xs[e.position] == Some(e);
      assert PartEntry(kw, e.position, parts[e.position]) == Some(e);
    }
  }

  /** The progression has an entry for a part exactly when the part is tracked. */
  lemma ProgressionComplete(kw: KeywordDictionary, parts: seq<String>)
    ensures forall i | 0 <= i < |parts| ::
              Tracked(kw, parts[i]) <==> exists k | 0 <= k < |ProgressionOf(kw, parts)| :: ProgressionOf(kw, parts)[k].position == i
  {
    PresentComplete(kw, parts);
    assert forall i | 0 <= i < |parts| :: PartEntries(kw, parts)[i].Some? <==> Tracked(kw, parts[i]);
  }

  lemma PresentComplete(kw: KeywordDictionary, parts: seq<String>)
    ensures forall i | 0 <= i < |parts| ::
              PartEntries(kw, parts)[i].Some? <==> exists k | 0 <= k < |ProgressionOf(kw, parts)| :: ProgressionOf(kw, parts)[k].position == i
  {
    var xs := PartEntries(kw, parts);
    EntriesIndexed(kw, parts);
    PresentShape(xs);
    assert ProgressionOf(kw, parts) == Present(xs);
  }

  /** A part with keyword hits has a positive maximum exactly when one of the
      categories' words occurs in it. */
  lemma TrackedIffKeyword(kw: KeywordDictionary, part: String)
    ensures Tracked(kw, part) <==>
              |Strip(part)| >= 2 && exists c: Category :: AnyPresent(part, kw.Lists(c))
  {
    var s := PartScores(kw, part);
    forall c: Category ensures s.Get(c) > 0.0 <==> AnyPresent(part, kw.Lists(c)) {
      ListsHitsPositive(part, kw.Lists(c));
    }
    if exists c: Category :: AnyPresent(part, kw.Lists(c)) {
      var c: Category :| AnyPresent(part, kw.Lists(c));
      assert s.Get(c) <= MaxScore(s);
    }
  }
}
