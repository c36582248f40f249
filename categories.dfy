/** The four STAR categories and the score vector every stage of the analyzer
    passes along: a dictionary that always holds exactly the keys SENSE, THINK,
    ACT and RELATE (star_analyzer.py:286). */
module Categories {
  import opened Text

  /** The categories in declaration order; the order breaks ties. */
  datatype Category = SENSE | THINK | ACT | RELATE

  const AllCategories: seq<Category> := [SENSE, THINK, ACT, RELATE]

  /** Position in declaration order. */
  function Index(c: Category): nat
  {
    match c
    case SENSE => 0
    case THINK => 1
    case ACT => 2
    case RELATE => 3
  }

  /** The dictionary key of a category. */
  function Name(c: Category): String
  {
    match c
    case SENSE => "SENSE"
    case THINK => "THINK"
    case ACT => "ACT"
    case RELATE => "RELATE"
  }

  lemma AllCategoriesInOrder()
    ensures |AllCategories| == 4
    ensures forall i | 0 <= i < 4 :: Index(AllCategories[i]) == i
    ensures forall c: Category :: c in AllCategories
  {
    forall c: Category ensures c in AllCategories {
      assert AllCategories[Index(c)] == c;
    }
  }

  /** `{'SENSE': s, 'THINK': t, 'ACT': a, 'RELATE': r}` */
  datatype ScoreVector = ScoreVector(sense: real, think: real, act: real, relate: real)
  {
    function Get(c: Category): real
    {
      match c
      case SENSE => sense
      case THINK => think
      case ACT => act
      case RELATE => relate
    }

    /** `scores[c] = v` on a copy. */
    function Set(c: Category, v: real): (r: ScoreVector)
      ensures r.Get(c) == v
      ensures forall d | d != c :: r.Get(d) == Get(d)
    {
      match c
      case SENSE => this.(sense := v)
      case THINK => this.(think := v)
      case ACT => this.(act := v)
      case RELATE => this.(relate := v)
    }

    /** `sum(scores.values())` */
    function Total(): real
    {
      sense + think + act + relate
    }

    predicate NonNegative()
    {
      forall c: Category :: Get(c) >= 0.0
    }

    /** Every score times the matching entry of `f`. */
    function Times(f: ScoreVector): (r: ScoreVector)
      ensures forall c: Category :: r.Get(c) == Get(c) * f.Get(c)
    {
      ScoreVector(sense * f.sense, think * f.think, act * f.act, relate * f.relate)
    }

    /** Every score plus the matching entry of `f`. */
    function Plus(f: ScoreVector): (r: ScoreVector)
      ensures forall c: Category :: r.Get(c) == Get(c) + f.Get(c)
    {
      ScoreVector(sense + f.sense, think + f.think, act + f.act, relate + f.relate)
    }

    /** `for c in scores: scores[c] *= k` */
    function Scale(k: real): (r: ScoreVector)
      ensures forall c: Category :: r.Get(c) == k * Get(c)
    {
      ScoreVector(k * sense, k * think, k * act, k * relate)
    }
  }

  /** Two vectors that agree on every category are equal. */
  lemma EqualByCategory(a: ScoreVector, b: ScoreVector)
    requires forall c: Category :: a.Get(c) == b.Get(c)
    ensures a == b
  {
    assert a.Get(SENSE) == b.Get(SENSE) && a.Get(THINK) == b.Get(THINK);
    assert a.Get(ACT) == b.Get(ACT) && a.Get(RELATE) == b.Get(RELATE);
  }

  lemma PlusAssoc(a: ScoreVector, b: ScoreVector, c: ScoreVector)
    ensures a.Plus(b).Plus(c) == a.Plus(b.Plus(c))
  {
  }

  /** Every category at 0.0. */
  const Zero: ScoreVector := ScoreVector(0.0, 0.0, 0.0, 0.0)

  /** `max(scores, key=scores.get)`: the first category in declaration order whose
      score is the largest (star_analyzer.py:230). */
  function ArgMax(s: ScoreVector): (c: Category)
    ensures forall d: Category :: s.Get(d) <= s.Get(c)
    ensures forall d: Category :: Index(d) < Index(c) ==> s.Get(d) < s.Get(c)
  {
    var b1 := if s.think > s.sense then THINK else SENSE;
    var b2 := if s.act > s.Get(b1) then ACT else b1;
    if s.relate > s.Get(b2) then RELATE else b2
  }

  /** A vector with all four scores equal, the all-zero one among them, has SENSE as
      its maximum. */
  lemma ArgMaxOfTie(s: ScoreVector)
    requires s.sense == s.think == s.act == s.relate
    ensures ArgMax(s) == SENSE
  {
  }

  /** `max(scores.values())` */
  function MaxScore(s: ScoreVector): (m: real)
    ensures forall c: Category :: s.Get(c) <= m
    ensures exists c: Category :: s.Get(c) == m
  {
    s.Get(ArgMax(s))
  }

  function Max3(a: real, b: real, c: real): (m: real)
    ensures m == a || m == b || m == c
    ensures a <= m && b <= m && c <= m
  {
    if a >= b && a >= c then a else if b >= c then b else c
  }

  /** `sorted(scores.values(), reverse=True)[1]`: the largest score once one copy of
      the maximum is set aside, so two equal top scores give the maximum itself. */
  function SecondMax(s: ScoreVector): (m: real)
    ensures m <= MaxScore(s)
    ensures exists c: Category :: c != ArgMax(s) && s.Get(c) == m
    ensures forall c: Category :: c != ArgMax(s) ==> s.Get(c) <= m
  {
    var p := ArgMax(s);
    var m := match p
      case SENSE => Max3(s.think, s.act, s.relate)
      case THINK => Max3(s.sense, s.act, s.relate)
      case ACT => Max3(s.sense, s.think, s.relate)
      case RELATE => Max3(s.sense, s.think, s.act);
    assert || (p != SENSE && m == s.Get(SENSE)) || (p != THINK && m == s.Get(THINK))
           || (p != ACT && m == s.Get(ACT)) || (p != RELATE && m == s.Get(RELATE));
    m
  }

  /** The gap between the two largest scores is zero exactly when the maximum is
      shared by two categories. */
  lemma GapZeroIffTie(s: ScoreVector)
    ensures MaxScore(s) - SecondMax(s) == 0.0 <==>
            exists c: Category, d: Category :: c != d && s.Get(c) == s.Get(d) == MaxScore(s)
  {
    var p := ArgMax(s);
    if MaxScore(s) - SecondMax(s) == 0.0 {
      var c :| c != p && s.Get(c) == SecondMax(s);
      assert s.Get(p) == s.Get(c) == MaxScore(s);
    }
  }

  /** `{k: v / total for k, v in scores.items()}` when `total > 0`, otherwise the
      scores as they are (star_analyzer.py:317-320). */
  function Normalize(s: ScoreVector): (r: ScoreVector)
    ensures s.Total() > 0.0 ==> r.Total() == 1.0
    ensures s.Total() > 0.0 ==> forall c: Category :: r.Get(c) * s.Total() == s.Get(c)
    ensures s.Total() <= 0.0 ==> r == s
  {
    var t := s.Total();
    if t > 0.0 then
      var r := ScoreVector(s.sense / t, s.think / t, s.act / t, s.relate / t);
      assert r.Total() == (s.sense + s.think + s.act + s.relate) / t;
      r
    else s
  }

  /** Normalizing keeps the sign of every score and the order between any two, so
      it keeps the primary category. */
  lemma NormalizeKeepsOrder(s: ScoreVector)
    ensures forall c: Category :: (Normalize(s).Get(c) > 0.0 <==> s.Get(c) > 0.0)
    ensures forall c: Category :: (Normalize(s).Get(c) == 0.0 <==> s.Get(c) == 0.0)
    ensures forall c: Category, d: Category ::
              s.Get(c) < s.Get(d) <==> Normalize(s).Get(c) < Normalize(s).Get(d)
    ensures ArgMax(Normalize(s)) == ArgMax(s)
  {
    NormalizeSameOrder(s);
    ArgMaxSameOrder(s, Normalize(s));
  }

  lemma NormalizeSameOrder(s: ScoreVector)
    ensures forall c: Category :: (Normalize(s).Get(c) > 0.0 <==> s.Get(c) > 0.0)
    ensures forall c: Category :: (Normalize(s).Get(c) == 0.0 <==> s.Get(c) == 0.0)
    ensures forall c: Category, d: Category ::
              s.Get(c) < s.Get(d) <==> Normalize(s).Get(c) < Normalize(s).Get(d)
  {
    var t := s.Total();
    var r := Normalize(s);
    if t > 0.0 {
      forall c: Category, d: Category
        ensures r.Get(c) > 0.0 <==> s.Get(c) > 0.0
        ensures r.Get(c) == 0.0 <==> s.Get(c) == 0.0
        ensures s.Get(c) < s.Get(d) <==> r.Get(c) < r.Get(d)
      {
        assert r.Get(c) == s.Get(c) / t && r.Get(d) == s.Get(d) / t;
        DivMonotone(s.Get(c), s.Get(d), t);
      }
    }
  }

  /** Two vectors that order the categories alike have the same first maximum. */
  lemma ArgMaxSameOrder(s: ScoreVector, r: ScoreVector)
    requires forall c: Category, d: Category :: s.Get(c) < s.Get(d) <==> r.Get(c) < r.Get(d)
    ensures ArgMax(r) == ArgMax(s)
  {
    var a, b := ArgMax(s), ArgMax(r);
    assert s.Get(b) == s.Get(a) by {
      assert !(r.Get(b) < r.Get(a));
    }
    assert !(Index(a) < Index(b)) by {
      assert !(s.Get(a) < s.Get(b));
    }
    assert !(Index(b) < Index(a));
  }

  lemma DivMonotone(x: real, y: real, t: real)
    requires t > 0.0
    ensures x < y <==> x / t < y / t
    ensures x > 0.0 <==> x / t > 0.0
    ensures x == 0.0 <==> x / t == 0.0
  {
    assert x == (x / t) * t && y == (y / t) * t;
  }
}
