/** `_determine_sentence_type` (star_analyzer.py:370-426): ten SOV patterns are tried
    first, then five SV patterns, then a particle-and-verb fallback; with no evidence
    the sentence is SV. Each regular expression is written out as the existence of
    the positions its groups would occupy; a `(.+?)` group is a non-empty run of
    characters other than a newline, and laziness does not change whether a match
    exists. */
module SentenceTypes {
  import opened Wrappers
  import opened Text

  /** "SV型" (subject-verb) or "SOV型" (subject-object-verb). */
  datatype SentenceType = SV | SOV
  {
    function Label(): String
    {
      if SV? then "SV型" else "SOV型"
    }
  }

  // ---------------------------------------------------------------------------
  // Building blocks of the patterns

  /** A `(.+?)` group ending just before index `i`: it can always be shrunk to the
      single character `t[i - 1]`, which must not be a newline. */
  predicate LeadEndsAt(t: String, i: int)
  {
    1 <= i <= |t| && t[i - 1] != '\n'
  }

  /** A `(.+?)` group occupying exactly `t[a..b]`. */
  predicate RunSpans(t: String, a: int, b: int)
  {
    0 <= a < b <= |t| && forall p | a <= p < b :: t[p] != '\n'
  }

  /** `(?:w1|w2|...)` at index `i`. */
  predicate AnyAt(t: String, i: int, ws: seq<String>)
  {
    exists w | w in ws :: OccursAt(t, w, i)
  }

  /** `(.+?)P1(.+?)P2(.+?)(?:verbs)` with the particles at `i` and `j` and the verb at `k`. */
  predicate ChainAt(t: String, p1: String, p2: String, verbs: seq<String>, i: int, j: int, k: int)
  {
    && LeadEndsAt(t, i) && OccursAt(t, p1, i)
    && RunSpans(t, i + |p1|, j) && OccursAt(t, p2, j)
    && RunSpans(t, j + |p2|, k) && AnyAt(t, k, verbs)
  }

  predicate Chain(t: String, p1: String, p2: String, verbs: seq<String>)
  {
    exists i, j, k | 0 <= i <= |t| && 0 <= j <= |t| && 0 <= k <= |t| :: ChainAt(t, p1, p2, verbs, i, j, k)
  }

  /** `(.+?)P(.+?)(?:verbs)` with the particle at `i` and the verb at `k`. */
  predicate ParticleRunAt(t: String, p: String, verbs: seq<String>, i: int, k: int)
  {
    LeadEndsAt(t, i) && OccursAt(t, p, i) && RunSpans(t, i + |p|, k) && AnyAt(t, k, verbs)
  }

  predicate ParticleRun(t: String, p: String, verbs: seq<String>)
  {
    exists i, k | 0 <= i <= |t| && 0 <= k <= |t| :: ParticleRunAt(t, p, verbs, i, k)
  }

  /** `(.+?)(?:particles)(?:words)` with the particle at `i`. */
  predicate ParticleWordAt(t: String, particles: seq<String>, words: seq<String>, i: int)
  {
    LeadEndsAt(t, i) && exists p | p in particles :: OccursAt(t, p, i) && AnyAt(t, i + |p|, words)
  }

  predicate ParticleWord(t: String, particles: seq<String>, words: seq<String>)
  {
    exists i | 0 <= i <= |t| :: ParticleWordAt(t, particles, words, i)
  }

  // ---------------------------------------------------------------------------
  // The two pattern lists

  /** One constructor per regular expression, named after what it detects. */
  datatype Rule =
    | GaWoVerb        // star_analyzer.py:377
    | GaNiVerb        // star_analyzer.py:378
    | GaToVerb        // star_analyzer.py:379
    | WoVerb          // star_analyzer.py:382
    | NiVerb          // star_analyzer.py:383
    | ToVerb          // star_analyzer.py:384
    | WoAchievement   // star_analyzer.py:387
    | NiChallenge     // star_analyzer.py:388
    | SupportOther    // star_analyzer.py:391
    | SupportedBy     // star_analyzer.py:392
    | Perception      // star_analyzer.py:399
    | SensoryState    // star_analyzer.py:400
    | Understanding   // star_analyzer.py:403
    | Impression      // star_analyzer.py:404
    | ChangeOfState   // star_analyzer.py:407

  const DoVerbs: seq<String> := ["する", "した", "している", "してる"]

  /** `re.search(pattern, t)` succeeds. */
  predicate Matches(r: Rule, t: String)
  {
    match r
    case GaWoVerb => Chain(t, "が", "を", DoVerbs)
    case GaNiVerb => Chain(t, "が", "に", DoVerbs)
    case GaToVerb => Chain(t, "が", "と", DoVerbs)
    case WoVerb => ParticleRun(t, "を", ["する", "した", "できる", "できた", "やる", "やった"])
    case NiVerb => ParticleRun(t, "に", ["する", "した", "なる", "なった", "与える", "与えた"])
    case ToVerb => ParticleRun(t, "と", ["する", "した", "いる", "いた", "なる", "なった"])
    case WoAchievement => ParticleWord(t, ["を"], ["完走", "達成", "克服", "成功", "クリア"])
    case NiChallenge => ParticleWord(t, ["に"], ["挑戦", "参加", "貢献", "協力"])
    case SupportOther => ParticleWord(t, ["を", "に"], ["助け", "支え", "励まし", "応援", "理解"])
    case SupportedBy => ParticleWord(t, ["から", "に"], ["助けられ", "支えられ", "励まされ", "応援され"])
    case Perception => ParticleWord(t, ["を", "が"], ["見", "聞", "感じ", "味わ", "触", "嗅"])
    case SensoryState => ParticleWord(t, ["が", "は"], ["美し", "きれ", "おいし", "心地よ", "かぐわし"])
    case Understanding => ParticleWord(t, ["が", "を"], ["わか", "理解", "発見", "解", "判明"])
    case Impression => ParticleWord(t, ["が", "は"], ["すご", "面白", "興味深", "素晴らし"])
    case ChangeOfState => ParticleWord(t, ["が", "は"], ["なっ", "変わっ", "見え", "聞こえ"])
  }

  /** `sov_patterns` in declaration order (star_analyzer.py:375-393). */
  const SOVRules: seq<Rule> :=
    [GaWoVerb, GaNiVerb, GaToVerb, WoVerb, NiVerb, ToVerb, WoAchievement, NiChallenge, SupportOther, SupportedBy]

  /** `sv_indicators` in declaration order (star_analyzer.py:397-408). */
  const SVRules: seq<Rule> := [Perception, SensoryState, Understanding, Impression, ChangeOfState]

  /** `for pattern in rules: if re.search(pattern, t): return ...`: the first rule
      in list order that matches, if any. */
  function FirstMatch(rules: seq<Rule>, t: String): (m: Option<Rule>)
    ensures m.Some? ==> m.value in rules && Matches(m.value, t)
    ensures m.Some? ==> exists k | 0 <= k < |rules| :: rules[k] == m.value && forall j | 0 <= j < k :: !Matches(rules[j], t)
    ensures m.None? <==> forall r | r in rules :: !Matches(r, t)
  {
    if rules == [] then None
    else if Matches(rules[0], t) then Some(rules[0])
    else
      var m := FirstMatch(rules[1..], t);
      if m.Some? then
        var k :| 0 <= k < |rules[1..]| && rules[1..][k] == m.value && forall j | 0 <= j < k :: !Matches(rules[1..][j], t);
        assert rules[k + 1] == m.value && forall j | 0 <= j < k + 1 :: !Matches(rules[j], t);
        m
      else m
  }

  /** The coarse fallback of star_analyzer.py:421-423: one of を, に, と and one of
      する, した, やる, やった, できた occur anywhere. */
  predicate ParticleFallback(t: String)
  {
    && (exists p | p in ["を", "に", "と"] :: Contains(t, p))
    && (exists v | v in ["する", "した", "やる", "やった", "できた"] :: Contains(t, v))
  }

  /** `_determine_sentence_type` */
  function DetermineSentenceType(t: String): (st: SentenceType)
    ensures st == SOV <==>
              || (exists r | r in SOVRules :: Matches(r, t))
              || ((forall r | r in SVRules :: !Matches(r, t)) && ParticleFallback(t))
  {
    if FirstMatch(SOVRules, t).Some? then SOV
    else if FirstMatch(SVRules, t).Some? then SV
    else if ParticleFallback(t) then SOV
    else SV
  }

  /** SOV patterns are tried first: whenever one of them matches, the sentence is
      SOV whatever the SV patterns say. */
  lemma SOVTakesPriority(t: String, r: Rule)
    requires r in SOVRules && Matches(r, t)
    ensures DetermineSentenceType(t) == SOV
  {
  }

  /** A match of every SOV pattern and of the fallback needs one of the particles
      を, に, と or から, so a text with none of them is SV. */
  lemma WithoutObjectParticlesIsSV(t: String)
    requires !Contains(t, "を") && !Contains(t, "に") && !Contains(t, "と") && !Contains(t, "から")
    ensures DetermineSentenceType(t) == SV
  {
    NoChain(t, "が", "を", DoVerbs);
    NoChain(t, "が", "に", DoVerbs);
    NoChain(t, "が", "と", DoVerbs);
    NoRun(t, "を", ["する", "した", "できる", "できた", "やる", "やった"]);
    NoRun(t, "に", ["する", "した", "なる", "なった", "与える", "与えた"]);
    NoRun(t, "と", ["する", "した", "いる", "いた", "なる", "なった"]);
    NoWord(t, ["を"], ["完走", "達成", "克服", "成功", "クリア"]);
    NoWord(t, ["に"], ["挑戦", "参加", "貢献", "協力"]);
    NoWord(t, ["を", "に"], ["助け", "支え", "励まし", "応援", "理解"]);
    NoWord(t, ["から", "に"], ["助けられ", "支えられ", "励まされ", "応援され"]);
    assert forall r | r in SOVRules :: !Matches(r, t);
  }

  /** A chain cannot match without its second particle. */
  lemma NoChain(t: String, p1: String, p2: String, verbs: seq<String>)
    requires !Contains(t, p2)
    ensures !Chain(t, p1, p2, verbs)
  {
    forall i, j, k | 0 <= i <= |t| && 0 <= j <= |t| && 0 <= k <= |t|
      ensures !ChainAt(t, p1, p2, verbs, i, j, k)
    {
      assert !OccursAt(t, p2, j);
    }
  }

  /** A particle-run pattern cannot match without its particle. */
  lemma NoRun(t: String, p: String, verbs: seq<String>)
    requires !Contains(t, p)
    ensures !ParticleRun(t, p, verbs)
  {
    forall i, k | 0 <= i <= |t| && 0 <= k <= |t| ensures !ParticleRunAt(t, p, verbs, i, k) {
      assert !OccursAt(t, p, i);
    }
  }

  /** A particle-word pattern cannot match when none of its particles occurs. */
  lemma NoWord(t: String, particles: seq<String>, words: seq<String>)
    requires forall p | p in particles :: !Contains(t, p)
    ensures !ParticleWord(t, particles, words)
  {
    forall i, p | 0 <= i <= |t| && p in particles ensures !OccursAt(t, p, i) {
      assert !Contains(t, p);
    }
  }

  /** A particle at `i` after a non-empty lead, followed by one of the words. */
  lemma ParticleWordHit(t: String, particles: seq<String>, words: seq<String>, p: String, w: String, i: int)
    requires LeadEndsAt(t, i) && p in particles && w in words
    requires OccursAt(t, p, i) && OccursAt(t, w, i + |p|)
    ensures ParticleWord(t, particles, words)
  {
    assert ParticleWordAt(t, particles, words, i);
  }

  /** "マラソンを完走できて嬉しい" is SOV through the achievement pattern
      `(.+?)を(?:完走|...)` of star_analyzer.py:387. */
  lemma MarathonIsSOV()
    ensures Matches(WoAchievement, "マラソンを完走できて嬉しい")
    ensures DetermineSentenceType("マラソンを完走できて嬉しい") == SOV
  {
    var t: String := "マラソンを完走できて嬉しい";
    assert t[4..5] == "を" && t[5..7] == "完走";
    ParticleWordHit(t, ["を"], ["完走", "達成", "克服", "成功", "クリア"], "を", "完走", 4);
    SOVTakesPriority(t, WoAchievement);
  }
}
