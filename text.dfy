/** Character-level text primitives the analyzer relies on: Python's whitespace,
    `strip`, the whitespace collapse of `_preprocess`, substring containment
    (`w in t`), `str.count`, `str.split` with a separator, and `lower`. */
module Text {

  type String = seq<char>

  /** Python's `str.isspace()`, which is also the set `\s` matches in a `str` regex. */
  predicate IsSpace(c: char)
  {
    || c == ' '
    || '\t' <= c <= '\r'
    || '\U{1c}' <= c <= '\U{1f}'
    || c == '\U{85}' || c == '\U{a0}' || c == '\U{1680}'
    || '\U{2000}' <= c <= '\U{200a}'
    || c == '\U{2028}' || c == '\U{2029}' || c == '\U{202f}' || c == '\U{205f}'
    || c == '\U{3000}'
  }

  // ---------------------------------------------------------------------------
  // strip

  /** `s.lstrip()`: drops the leading whitespace and keeps the rest as a suffix. */
  function TrimStart(s: String): (r: String)
    ensures |r| <= |s| && r == s[|s| - |r|..]
    ensures r == [] || !IsSpace(r[0])
    ensures forall i | 0 <= i < |s| - |r| :: IsSpace(s[i])
  {
    if s != [] && IsSpace(s[0]) then TrimStart(s[1..]) else s
  }

  /** `s.rstrip()`: drops the trailing whitespace and keeps the rest as a prefix. */
  function TrimEnd(s: String): (r: String)
    ensures |r| <= |s| && r == s[..|r|]
    ensures r == [] || !IsSpace(r[|r| - 1])
    ensures forall i | |r| <= i < |s| :: IsSpace(s[i])
  {
    if s != [] && IsSpace(s[|s| - 1]) then TrimEnd(s[..|s| - 1]) else s
  }

  /** No whitespace at either end. */
  predicate IsStripped(s: String)
  {
    s == [] || (!IsSpace(s[0]) && !IsSpace(s[|s| - 1]))
  }

  /** `s.strip()` */
  function Strip(s: String): String
  {
    TrimEnd(TrimStart(s))
  }

  /** `strip` removes whitespace from both ends, and only whitespace: the result is
      the slice `s[a..b]` and everything outside it is whitespace. */
  lemma StripSlice(s: String) returns (a: nat, b: nat)
    ensures a <= b <= |s| && Strip(s) == s[a..b]
    ensures IsStripped(Strip(s))
    ensures forall i | 0 <= i < a :: IsSpace(s[i])
    ensures forall i | b <= i < |s| :: IsSpace(s[i])
  {
    var t := TrimStart(s);
    var u := TrimEnd(t);
    a := |s| - |t|;
    b := a + |u|;
    assert t == s[a..];
    assert u == t[..|u|];
    assert u == s[a..b];
    forall i | b <= i < |s| ensures IsSpace(s[i]) {
      assert s[i] == t[i - a] && |u| <= i - a < |t|;
    }
  }

  /** Stripping a stripped string changes nothing. */
  lemma StripFixpoint(s: String)
    requires IsStripped(s)
    ensures Strip(s) == s
  {
  }

  // ---------------------------------------------------------------------------
  // re.sub(r'\s+', ' ', s)

  /** Every maximal run of whitespace becomes one blank `' '`. */
  function CollapseSpaces(s: String): String
    decreases |s|
  {
    if s == [] then []
    else if IsSpace(s[0]) then [' '] + CollapseSpaces(TrimStart(s[1..]))
    else [s[0]] + CollapseSpaces(s[1..])
  }

  /** `_preprocess` (star_analyzer.py:278-282). */
  function Preprocess(s: String): String
  {
    CollapseSpaces(Strip(s))
  }

  /** No two whitespace characters in a row. */
  predicate NoDoubleSpace(s: String)
  {
    forall i | 0 <= i < |s| - 1 :: !(IsSpace(s[i]) && IsSpace(s[i + 1]))
  }

  /** The only whitespace character that occurs is the blank. */
  predicate OnlyBlanks(s: String)
  {
    forall i | 0 <= i < |s| :: IsSpace(s[i]) ==> s[i] == ' '
  }

  /** The non-whitespace characters of `s`, in order. */
  function NonSpace(s: String): String
  {
    if s == [] then [] else (if IsSpace(s[0]) then [] else [s[0]]) + NonSpace(s[1..])
  }

  lemma {:induction false} NonSpaceAppend(a: String, b: String)
    ensures NonSpace(a + b) == NonSpace(a) + NonSpace(b)
  {
    if a == [] {
      assert a + b == b;
    } else {
      assert (a + b)[0] == a[0] && (a + b)[1..] == a[1..] + b;
      NonSpaceAppend(a[1..], b);
    }
  }

  lemma {:induction false} NonSpaceTrimStart(s: String)
    ensures NonSpace(TrimStart(s)) == NonSpace(s)
  {
    if s != [] && IsSpace(s[0]) {
      NonSpaceTrimStart(s[1..]);
    }
  }

  lemma {:induction false} NonSpaceTrimEnd(s: String)
    ensures NonSpace(TrimEnd(s)) == NonSpace(s)
  {
    if s != [] && IsSpace(s[|s| - 1]) {
      var init := s[..|s| - 1];
      NonSpaceTrimEnd(init);
      assert s == init + [s[|s| - 1]];
      NonSpaceAppend(init, [s[|s| - 1]]);
      assert NonSpace([s[|s| - 1]]) == [];
    }
  }

  /** Collapsing keeps emptiness and the character class of the first and the
      last character. */
  lemma {:induction false} CollapseEnds(s: String)
    ensures s == [] <==> CollapseSpaces(s) == []
    ensures s != [] ==> IsSpace(CollapseSpaces(s)[0]) == IsSpace(s[0])
    ensures s != [] ==> IsSpace(CollapseSpaces(s)[|CollapseSpaces(s)| - 1]) == IsSpace(s[|s| - 1])
    decreases |s|
  {
    if s == [] {
    } else if IsSpace(s[0]) {
      var rest := TrimStart(s[1..]);
      CollapseEnds(rest);
      if rest != [] {
        assert rest[|rest| - 1] == s[|s| - 1];
      }
    } else {
      CollapseEnds(s[1..]);
    }
  }

  /** After collapsing there are no two whitespace characters in a row. */
  lemma {:induction false} CollapseNoDoubleSpace(s: String)
    ensures NoDoubleSpace(CollapseSpaces(s))
    decreases |s|
  {
    if s != [] {
      var rest := if IsSpace(s[0]) then TrimStart(s[1..]) else s[1..];
      CollapseNoDoubleSpace(rest);
      CollapseEnds(rest);
      var x := CollapseSpaces(rest);
      var r := CollapseSpaces(s);
      assert r[1..] == x;
      assert IsSpace(r[0]) ==> x == [] || !IsSpace(x[0]);
      forall i | 0 <= i < |r| - 1 ensures !(IsSpace(r[i]) && IsSpace(r[i + 1])) {
        if i > 0 { assert r[i] == x[i - 1] && r[i + 1] == x[i]; }
      }
    }
  }

  /** After collapsing every whitespace character is a blank. */
  lemma {:induction false} CollapseOnlyBlanks(s: String)
    ensures OnlyBlanks(CollapseSpaces(s))
    decreases |s|
  {
    if s != [] {
      var rest := if IsSpace(s[0]) then TrimStart(s[1..]) else s[1..];
      CollapseOnlyBlanks(rest);
      var x := CollapseSpaces(rest);
      var r := CollapseSpaces(s);
      assert r[1..] == x;
      forall i | 0 <= i < |r| ensures IsSpace(r[i]) ==> r[i] == ' ' {
        if i > 0 { assert r[i] == x[i - 1]; }
      }
    }
  }

  /** Collapsing keeps every non-whitespace character, in order. */
  lemma {:induction false} CollapseNonSpace(s: String)
    ensures NonSpace(CollapseSpaces(s)) == NonSpace(s)
    decreases |s|
  {
    if s == [] {
    } else if IsSpace(s[0]) {
      var rest := TrimStart(s[1..]);
      CollapseNonSpace(rest);
      var x := CollapseSpaces(rest);
      assert ([' '] + x)[1..] == x;
      NonSpaceTrimStart(s[1..]);
    } else {
      CollapseNonSpace(s[1..]);
      var x := CollapseSpaces(s[1..]);
      assert ([s[0]] + x)[1..] == x;
    }
  }

  /** A string already in collapsed form is left as it is. */
  lemma {:induction false} CollapseFixpoint(s: String)
    requires NoDoubleSpace(s) && OnlyBlanks(s)
    ensures CollapseSpaces(s) == s
    decreases |s|
  {
    if s != [] {
      var t := s[1..];
      assert NoDoubleSpace(t) by {
        forall i | 0 <= i < |t| - 1 ensures !(IsSpace(t[i]) && IsSpace(t[i + 1])) {
          assert t[i] == s[i + 1] && t[i + 1] == s[i + 2];
        }
      }
      CollapseFixpoint(t);
      if IsSpace(s[0]) {
        assert t == [] || !IsSpace(t[0]);
        assert TrimStart(t) == t;
      }
    }
  }

  /** `_preprocess` leaves no whitespace at either end, no two whitespace characters
      in a row, no whitespace other than the blank, and keeps every other character
      in order. */
  lemma PreprocessShape(s: String)
    ensures IsStripped(Preprocess(s))
    ensures NoDoubleSpace(Preprocess(s)) && OnlyBlanks(Preprocess(s))
    ensures NonSpace(Preprocess(s)) == NonSpace(s)
  {
    var t := Strip(s);
    var _, _ := StripSlice(s);
    CollapseEnds(t);
    CollapseNoDoubleSpace(t);
    CollapseOnlyBlanks(t);
    CollapseNonSpace(t);
    NonSpaceTrimStart(s);
    NonSpaceTrimEnd(TrimStart(s));
  }

  /** `_preprocess` is idempotent. */
  lemma PreprocessIdempotent(s: String)
    ensures Preprocess(Preprocess(s)) == Preprocess(s)
  {
    var p := Preprocess(s);
    PreprocessShape(s);
    StripFixpoint(p);
    CollapseFixpoint(p);
  }

  // ---------------------------------------------------------------------------
  // w in t, t.count(c), t.startswith(w)

  /** `w` occurs in `t` starting at index `i`. */
  predicate OccursAt(t: String, w: String, i: int)
  {
    0 <= i && i + |w| <= |t| && t[i..i + |w|] == w
  }

  /** Python's `w in t` for strings. */
  predicate Contains(t: String, w: String)
  {
    exists i | 0 <= i <= |t| - |w| :: OccursAt(t, w, i)
  }

  /** `t.startswith(w)` */
  predicate StartsWith(t: String, w: String)
  {
    |w| <= |t| && t[..|w|] == w
  }

  /** `t.count(c)` for a one-character string `c`. */
  function Count(t: String, c: char): nat
  {
    if t == [] then 0 else (if t[0] == c then 1 else 0) + Count(t[1..], c)
  }

  /** What occurs in a slice occurs in the whole. */
  lemma ContainsWithin(t: String, a: int, b: int, w: String)
    requires 0 <= a <= b <= |t|
    requires Contains(t[a..b], w)
    ensures Contains(t, w)
  {
    var i :| 0 <= i <= (b - a) - |w| && OccursAt(t[a..b], w, i);
    forall k | 0 <= k < |w| ensures t[a + i + k] == w[k] {
      assert t[a..b][i..i + |w|][k] == w[k];
    }
    assert t[a + i..a + i + |w|] == w;
    assert OccursAt(t, w, a + i);
  }

  /** `c in t` for one character is `t.count(c) > 0`. */
  lemma {:induction false} CountPositive(t: String, c: char)
    ensures Count(t, c) > 0 <==> Contains(t, [c])
  {
    if t == [] {
    } else {
      CountPositive(t[1..], c);
      if t[0] == c {
        assert OccursAt(t, [c], 0);
      } else if Contains(t, [c]) {
        var i :| 0 <= i <= |t| - 1 && OccursAt(t, [c], i);
        assert i > 0 && OccursAt(t[1..], [c], i - 1);
      } else if Contains(t[1..], [c]) {
        assert t[1..] == t[1..|t|];
        ContainsWithin(t, 1, |t|, [c]);
      }
    }
  }

  // ---------------------------------------------------------------------------
  // s.split(sep)

  /** Python's `s.split(sep)` for a non-empty separator: the separator is found
      left to right, occurrences do not overlap, and empty pieces are kept. */
  function SplitOn(s: String, sep: String): (parts: seq<String>)
    requires sep != []
    ensures |parts| >= 1 && parts[0] <= s
    decreases |s|
  {
    if |s| < |sep| then [s]
    else if s[..|sep|] == sep then [[]] + SplitOn(s[|sep|..], sep)
    else
      var rest := SplitOn(s[1..], sep);
      [[s[0]] + rest[0]] + rest[1..]
  }

  /** `sep.join(parts)` */
  function Join(parts: seq<String>, sep: String): String
    requires |parts| >= 1
  {
    if |parts| == 1 then parts[0] else parts[0] + sep + Join(parts[1..], sep)
  }

  /** Gluing a character onto the first piece glues it onto the joined string. */
  lemma JoinPrepend(x: char, parts: seq<String>, sep: String)
    requires |parts| >= 1
    ensures Join([[x] + parts[0]] + parts[1..], sep) == [x] + Join(parts, sep)
  {
    var glued := [[x] + parts[0]] + parts[1..];
    assert glued[1..] == parts[1..];
  }

  /** Joining a piece in front of at least one more puts the separator between. */
  lemma JoinCons(p: String, parts: seq<String>, sep: String)
    requires |parts| >= 1
    ensures Join([p] + parts, sep) == p + sep + Join(parts, sep)
  {
    assert ([p] + parts)[1..] == parts;
  }

  /** Splitting loses nothing: joining the pieces gives the string back. */
  lemma {:induction false} SplitJoin(s: String, sep: String)
    requires sep != []
    ensures Join(SplitOn(s, sep), sep) == s
    decreases |s|
  {
    if |s| < |sep| {
    } else if s[..|sep|] == sep {
      var tail := s[|sep|..];
      var rest := SplitOn(tail, sep);
      assert SplitOn(s, sep) == [[]] + rest;
      SplitJoin(tail, sep);
      JoinCons([], rest, sep);
      assert s == sep + tail;
    } else {
      var rest := SplitOn(s[1..], sep);
      assert SplitOn(s, sep) == [[s[0]] + rest[0]] + rest[1..];
      SplitJoin(s[1..], sep);
      JoinPrepend(s[0], rest, sep);
      assert s == [s[0]] + s[1..];
    }
  }


  /** No piece of `s.split(sep)` contains the separator, and no piece contains
      a word `w` that `s` does not contain. */
  lemma {:induction false} SplitPiecesAvoid(s: String, sep: String, w: String)
    requires sep != []
    ensures forall p | p in SplitOn(s, sep) :: !Contains(p, sep)
    ensures !Contains(s, w) ==> forall p | p in SplitOn(s, sep) :: !Contains(p, w)
    decreases |s|
  {
    var parts := SplitOn(s, sep);
    if |s| < |sep| {
      assert parts == [s];
    } else if s[..|sep|] == sep {
      var tail := s[|sep|..];
      SplitPiecesAvoid(tail, sep, w);
      assert tail == s[|sep|..|s|];
      if Contains(tail, w) { ContainsWithin(s, |sep|, |s|, w); }
      assert !Contains([], sep);
      assert OccursAt(s, [], 0);
      forall p | p in parts ensures !Contains(p, sep) && (!Contains(s, w) ==> !Contains(p, w)) {
        if p != [] { assert p in SplitOn(tail, sep); }
      }
    } else {
      var rest := SplitOn(s[1..], sep);
      SplitPiecesAvoid(s[1..], sep, w);
      assert s[1..] == s[1..|s|];
      if Contains(s[1..], w) { ContainsWithin(s, 1, |s|, w); }
      var first := [s[0]] + rest[0];
      assert first == s[..|first|];
      forall i | 0 <= i <= |first| - |sep| ensures !OccursAt(first, sep, i) {
        if i == 0 {
          assert first[..|sep|] == s[..|sep|];
        } else {
          assert first[i..i + |sep|] == rest[0][i - 1..i - 1 + |sep|];
          assert rest[0] in rest;
          assert !OccursAt(rest[0], sep, i - 1);
        }
      }
      if !Contains(s, w) && Contains(first, w) {
        ContainsWithin(s, 0, |first|, w);
      }
      forall p | p in parts ensures !Contains(p, sep) && (!Contains(s, w) ==> !Contains(p, w)) {
        if p != first { assert p in rest[1..]; }
      }
    }
  }

  /** Splitting a text on a separator it does not contain gives the text alone. */
  lemma {:induction false} SplitOnAbsent(s: String, sep: String)
    requires sep != [] && !Contains(s, sep)
    ensures SplitOn(s, sep) == [s]
    decreases |s|
  {
    if |s| >= |sep| {
      assert s[..|sep|] != sep by {
        if s[..|sep|] == sep { assert OccursAt(s, sep, 0); }
      }
      if Contains(s[1..], sep) {
        assert s[1..] == s[1..|s|];
        ContainsWithin(s, 1, |s|, sep);
      }
      SplitOnAbsent(s[1..], sep);
      assert s == [s[0]] + s[1..];
    }
  }

  /** A one-character separator that does not occur in `s` is absent from it. */
  lemma NoCharNoContains(s: String, c: char)
    requires forall i | 0 <= i < |s| :: s[i] != c
    ensures !Contains(s, [c])
  {
    forall i | 0 <= i <= |s| - 1
      ensures !OccursAt(s, [c], i)
    {
      assert s[i..i + |[c]|] == [s[i]];
    }
  }

  /** A word whose first character does not occur in `s` is absent from it. */
  lemma NoLeadNoContains(s: String, w: String)
    requires |w| > 0
    requires forall i | 0 <= i < |s| :: s[i] != w[0]
    ensures !Contains(s, w)
  {
    forall i | 0 <= i <= |s| - |w|
      ensures !OccursAt(s, w, i)
    {
      assert s[i..i + |w|][0] == s[i];
    }
  }

  /** Splitting on a one-character separator cuts off everything up to its
      first occurrence as the first piece. */
  lemma {:induction false} SplitOnFirst(a: String, c: char, b: String)
    requires forall i | 0 <= i < |a| :: a[i] != c
    ensures SplitOn(a + [c] + b, [c]) == [a] + SplitOn(b, [c])
    decreases |a|
  {
    var s := a + [c] + b;
    if a == [] {
      assert s[..1] == [c] && s[1..] == b;
    } else {
      assert s[..1] != [c] by { assert s[..1][0] == a[0]; }
      assert s[1..] == a[1..] + [c] + b;
      SplitOnFirst(a[1..], c, b);
      assert [s[0]] + a[1..] == a;
    }
  }

  /** Whatever a string does not contain, its stripped form does not contain either. */
  lemma StripAvoids(s: String, w: String)
    requires !Contains(s, w)
    ensures !Contains(Strip(s), w)
  {
    var a, b := StripSlice(s);
    if Contains(Strip(s), w) { ContainsWithin(s, a, b, w); }
  }

  // ---------------------------------------------------------------------------
  // lower()

  /** Case folding of one character: ASCII and full-width Latin capitals. */
  function LowerChar(c: char): char
  {
    if 'A' <= c <= 'Z' || '\U{FF21}' <= c <= '\U{FF3A}' then (c as int + 32) as char else c
  }

  /** `s.lower()`, one character at a time. */
  function Lower(s: String): (r: String)
    ensures |r| == |s|
  {
    seq(|s|, i requires 0 <= i < |s| => LowerChar(s[i]))
  }
}
