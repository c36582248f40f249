/** `ConfigManager` (config_manager.py): the parsed contents of config.json and
    keywords.json, dotted-path reads and writes into the nested configuration,
    the keyword tables with the two pattern entries held apart, the built-in
    defaults, and the validity check the analyzer relies on. */
module Config {
  import opened Wrappers
  import opened Text
  import opened Categories

  /** A value as `json.load` returns it. Objects are maps: the order of their
      keys is not modelled. */
  datatype Json =
    | JNull
    | JBool(b: bool)
    | JNum(n: real)
    | JStr(s: String)
    | JArr(items: seq<Json>)
    | JObj(fields: map<String, Json>)

  /** What reading one of the two files produced: its parsed contents, a missing
      file, a file that is not JSON, or any other failure to read it. */
  datatype Loaded<T> = Parsed(contents: T) | NotFound | BadJson | Unreadable

  // ---------------------------------------------------------------------------
  // Dotted paths

  /** `key_path.split('.')` */
  function PathOf(keyPath: String): (keys: seq<String>)
    ensures |keys| >= 1
  {
    SplitOn(keyPath, ".")
  }

  /** A path of two dot-free names joined by a dot splits into those names. */
  lemma DottedPath(a: String, b: String)
    requires forall i | 0 <= i < |a| :: a[i] != '.'
    requires forall i | 0 <= i < |b| :: b[i] != '.'
    ensures PathOf(a + "." + b) == [a, b]
  {
    SplitOnFirst(a, '.', b);
    NoCharNoContains(b, '.');
    SplitOnAbsent(b, ".");
  }

  // ---------------------------------------------------------------------------
  // get_config

  /** `value = value[key]` for each key in turn, starting from `v`. `None` is
      where Python raises: KeyError for a missing key, TypeError when the value
      reached is not a dictionary. */
  function Lookup(v: Json, keys: seq<String>): Option<Json>
    decreases |keys|
  {
    if keys == [] then Some(v)
    else match v
      case JObj(m) => if keys[0] in m then Lookup(m[keys[0]], keys[1..]) else None
      case _ => None
  }

  /** `get_config(key_path, default)` on the configuration `config`. */
  function GetConfigOf(config: Json, keyPath: String, default: Json): Json
  {
    match Lookup(config, PathOf(keyPath))
    case Some(v) => v
    case None => default
  }

  /** The walk stops at segment `i`: it got that far, but the value reached is
      not a dictionary or lacks the key `keys[i]`. */
  predicate Blocked(v: Json, keys: seq<String>, i: int)
  {
    0 <= i < |keys| &&
    match Lookup(v, keys[..i])
    case Some(w) => !(w.JObj? && keys[i] in w.fields)
    case None => false
  }

  /** The walk fails exactly when some segment is missing or meets a value that is
      not a dictionary; `get_config` then returns its default. */
  lemma {:induction false} LookupFails(v: Json, keys: seq<String>)
    ensures Lookup(v, keys) == None <==> exists i :: Blocked(v, keys, i)
    decreases |keys|
  {
    if keys == [] {
    } else if v.JObj? && keys[0] in v.fields {
      var child := v.fields[keys[0]];
      LookupFails(child, keys[1..]);
      assert !Blocked(v, keys, 0) by { assert keys[..0] == []; }
      forall i | 1 <= i < |keys|
        ensures Blocked(v, keys, i) <==> Blocked(child, keys[1..], i - 1)
      {
        assert keys[..i][1..] == keys[1..][..i - 1];
        assert keys[..i][0] == keys[0];
      }
      if Lookup(v, keys) == None {
        var j :| Blocked(child, keys[1..], j);
        assert Blocked(v, keys, j + 1);
      }
    } else {
      assert keys[..0] == [];
      assert Blocked(v, keys, 0);
    }
  }

  /** Walking a path is walking a prefix of it and then the rest. */
  lemma {:induction false} LookupAppend(v: Json, a: seq<String>, b: seq<String>)
    ensures Lookup(v, a + b) == (match Lookup(v, a) case Some(w) => Lookup(w, b) case None => None)
    decreases |a|
  {
    if a != [] {
      assert (a + b)[0] == a[0] && (a + b)[1..] == a[1..] + b;
      if v.JObj? && a[0] in v.fields {
        LookupAppend(v.fields[a[0]], a[1..], b);
      }
    } else {
      assert a + b == b;
    }
  }

  // ---------------------------------------------------------------------------
  // save_config (the part before the file write)

  /** The walk of `save_config` from `node`: every key but the last is followed,
      a missing one first receiving an empty dictionary, and the last key is
      set. A value on the way that is not a dictionary raises TypeError, which
      `save_config` catches, so the configuration stays as it was. */
  function Assign(node: Json, keys: seq<String>, value: Json): Json
    requires |keys| >= 1
    decreases |keys|
  {
    match node
    case JObj(m) =>
      if |keys| == 1 then JObj(m[keys[0] := value])
      else
        var child := if keys[0] in m then m[keys[0]] else JObj(map[]);
        JObj(m[keys[0] := Assign(child, keys[1..], value)])
    case _ => node
  }

  /** Every value the walk of `save_config` meets already exists as a dictionary,
      or is missing and gets created. */
  predicate Writable(node: Json, keys: seq<String>)
    requires |keys| >= 1
    decreases |keys|
  {
    node.JObj? &&
    (|keys| > 1 && keys[0] in node.fields ==> Writable(node.fields[keys[0]], keys[1..]))
  }

  /** After a write that goes through, reading the same path gives the value. */
  lemma {:induction false} SaveThenGet(config: Json, keys: seq<String>, value: Json)
    requires |keys| >= 1 && Writable(config, keys)
    ensures Lookup(Assign(config, keys, value), keys) == Some(value)
    decreases |keys|
  {
    if |keys| > 1 {
      var m := config.fields;
      var child := if keys[0] in m then m[keys[0]] else JObj(map[]);
      SaveThenGet(child, keys[1..], value);
    }
  }

  /** A write that meets a value that is not a dictionary changes nothing. */
  lemma {:induction false} SaveBlocked(config: Json, keys: seq<String>, value: Json)
    requires |keys| >= 1 && !Writable(config, keys)
    ensures Assign(config, keys, value) == config
    decreases |keys|
  {
    if config.JObj? {
      var m := config.fields;
      SaveBlocked(m[keys[0]], keys[1..], value);
      assert m[keys[0] := m[keys[0]]] == m;
    }
  }

  /** Two paths part ways at some segment both have. */
  predicate Diverge(p: seq<String>, q: seq<String>)
  {
    exists i | 0 <= i < |p| && i < |q| :: p[i] != q[i]
  }

  /** A write leaves every path that parts ways with its own as it was. */
  lemma {:induction false} SaveOffPath(config: Json, keys: seq<String>, value: Json, q: seq<String>)
    requires |keys| >= 1 && Diverge(keys, q)
    ensures Lookup(Assign(config, keys, value), q) == Lookup(config, q)
    decreases |keys|
  {
    if config.JObj? {
      var m := config.fields;
      var i :| 0 <= i < |keys| && i < |q| && keys[i] != q[i];
      if q[0] == keys[0] {
        assert i >= 1 && |keys| > 1;
        assert Diverge(keys[1..], q[1..]) by { assert keys[1..][i - 1] != q[1..][i - 1]; }
        var child := if keys[0] in m then m[keys[0]] else JObj(map[]);
        SaveOffPath(child, keys[1..], value, q[1..]);
      }
    }
  }

  // ---------------------------------------------------------------------------
  // Keyword tables

  /** The two entries of keywords.json that are not category tables. */
  const PatternKeys: set<String> := {"negation_patterns", "sentence_patterns"}

  /** What `get_keywords` returns: every entry but the two pattern entries. */
  function KeywordTables(keywords: map<String, Json>): (tables: map<String, Json>)
    ensures tables.Keys <= keywords.Keys
    ensures "negation_patterns" !in tables && "sentence_patterns" !in tables
    ensures forall k | k in keywords && k !in PatternKeys :: k in tables && tables[k] == keywords[k]
  {
    map k | k in keywords && k !in PatternKeys :: keywords[k]
  }

  /** A category name is never one of the pattern entries, so a category has a
      table exactly when keywords.json has an entry for it. */
  lemma CategoryTables(keywords: map<String, Json>, c: Category)
    ensures Name(c) in KeywordTables(keywords) <==> Name(c) in keywords
    ensures Name(c) in keywords ==> KeywordTables(keywords)[Name(c)] == keywords[Name(c)]
  {
    assert Name(c) !in PatternKeys by {
      match c
      case SENSE =>
      case THINK =>
      case ACT =>
      case RELATE =>
    }
  }

  // ---------------------------------------------------------------------------
  // validate_config

  /** The keys whose lookup must not give None. */
  const RequiredKeys: seq<String> := ["system.name", "analysis.confidence_thresholds", "analysis.intensity_words"]

  /** `validate_config()` returns True: no required key looks up to None (missing,
      blocked or JSON null), and the keyword tables hold all four categories. */
  predicate ConfigValid(config: Json, keywords: map<String, Json>)
  {
    (forall j | 0 <= j < |RequiredKeys| :: GetConfigOf(config, RequiredKeys[j], JNull) != JNull) &&
    (forall c: Category :: Name(c) in KeywordTables(keywords))
  }

  /** The segments of the three required keys. */
  lemma RequiredPaths()
    ensures PathOf(RequiredKeys[0]) == ["system", "name"]
    ensures PathOf(RequiredKeys[1]) == ["analysis", "confidence_thresholds"]
    ensures PathOf(RequiredKeys[2]) == ["analysis", "intensity_words"]
  {
    SystemNamePath();
    ThresholdsPath();
    IntensityWordsPath();
  }

  lemma SystemNamePath()
    ensures PathOf("system.name") == ["system", "name"]
  {
    assert "system.name" == "system" + "." + "name";
    DottedPath("system", "name");
  }

  lemma ThresholdsPath()
    ensures PathOf("analysis.confidence_thresholds") == ["analysis", "confidence_thresholds"]
  {
    assert "analysis.confidence_thresholds" == "analysis" + "." + "confidence_thresholds";
    DottedPath("analysis", "confidence_thresholds");
  }

  lemma IntensityWordsPath()
    ensures PathOf("analysis.intensity_words") == ["analysis", "intensity_words"]
  {
    assert "analysis.intensity_words" == "analysis" + "." + "intensity_words";
    DottedPath("analysis", "intensity_words");
  }

  lemma ContextWeightsPath()
    ensures PathOf("analysis.context_weights") == ["analysis", "context_weights"]
  {
    assert "analysis.context_weights" == "analysis" + "." + "context_weights";
    DottedPath("analysis", "context_weights");
  }

  /** A write whose path parts ways with all three required keys leaves the
      verdict of `validate_config` as it was. */
  lemma SaveKeepsValidity(config: Json, keywords: map<String, Json>, keyPath: String, value: Json)
    requires forall j | 0 <= j < |RequiredKeys| :: Diverge(PathOf(keyPath), PathOf(RequiredKeys[j]))
    ensures ConfigValid(Assign(config, PathOf(keyPath), value), keywords) <==> ConfigValid(config, keywords)
  {
    var after := Assign(config, PathOf(keyPath), value);
    forall j | 0 <= j < |RequiredKeys|
      ensures GetConfigOf(after, RequiredKeys[j], JNull) == GetConfigOf(config, RequiredKeys[j], JNull)
    {
      SaveOffPath(config, PathOf(keyPath), value, PathOf(RequiredKeys[j]));
    }
  }

  // ---------------------------------------------------------------------------
  // Defaults

  /** `_create_default_config` */
  const DefaultConfig: Json := JObj(map[
    "version" := JStr("1.0.0"),
    "system" := DefaultSystem,
    "analysis" := DefaultAnalysis])

  const DefaultSystem: Json := JObj(map[
    "name" := JStr("STAR Analysis System"),
    "default_analyzer" := JStr("janome")])

  const DefaultAnalysis: Json := JObj(map[
    "confidence_thresholds" := DefaultThresholds,
    "intensity_words" := DefaultIntensityWords,
    "context_weights" := DefaultContextWeights])

  const DefaultThresholds: Json :=
    JObj(map["high" := JNum(0.7), "medium" := JNum(0.4), "low" := JNum(0.2)])

  const DefaultIntensityWords: Json :=
    JObj(map["本当に" := JNum(1.5), "とても" := JNum(1.3), "すごく" := JNum(1.4)])

  const DefaultContextWeights: Json := JObj(map[
    "sentence_type_match_bonus" := JNum(1.3),
    "sentence_type_mismatch_penalty" := JNum(0.8),
    "negation_penalty" := JNum(0.4)])

  /** A list of strings as JSON. */
  function Strings(words: seq<String>): (r: Json)
    ensures r.JArr? && |r.items| == |words|
    ensures forall i | 0 <= i < |words| :: r.items[i] == JStr(words[i])
  {
    JArr(seq(|words|, i requires 0 <= i < |words| => JStr(words[i])))
  }

  /** The table of one category: its feeling expressions and core keywords. */
  function CategoryTable(feeling: seq<String>, core: seq<String>): Json
  {
    JObj(map["feeling_expressions" := Strings(feeling), "core_keywords" := Strings(core)])
  }

  /** `_create_default_keywords` */
  const DefaultKeywords: map<String, Json> := map[
    "SENSE" := CategoryTable(["おいしい", "美しい", "気持ちいい"], ["感じる", "実感", "五感"]),
    "THINK" := CategoryTable(["なるほど", "わかった", "すごい"], ["考える", "理解", "知る"]),
    "ACT" := CategoryTable(["できた", "達成", "成功"], ["行動", "実践", "挑戦"]),
    "RELATE" := CategoryTable(["感謝", "一緒", "温かい"], ["人間関係", "協力", "信頼"]),
    "negation_patterns" := Strings(["ない", "ません"]),
    "sentence_patterns" := JObj(map["SV型" := Strings(["は", "が"]), "SOV型" := Strings(["を", "に", "で"])])]

  /** Each required key of the default configuration leads to a value. */
  lemma DefaultRequiredKeys()
    ensures forall j | 0 <= j < |RequiredKeys| :: GetConfigOf(DefaultConfig, RequiredKeys[j], JNull) != JNull
  {
    forall j | 0 <= j < |RequiredKeys|
      ensures GetConfigOf(DefaultConfig, RequiredKeys[j], JNull) != JNull
    {
      if j == 0 {
        DefaultSystemName();
      } else if j == 1 {
        DefaultThresholdsKey();
      } else {
        DefaultIntensityWordsKey();
      }
    }
  }

  /** One step of the walk through a dictionary that has the key. */
  lemma LookupStep(m: map<String, Json>, k: String, rest: seq<String>)
    requires k in m
    ensures Lookup(JObj(m), [k] + rest) == Lookup(m[k], rest)
  {
    assert ([k] + rest)[1..] == rest;
  }

  /** Two steps of the walk through nested dictionaries that have the keys. */
  lemma LookupPair(v: Json, a: String, b: String)
    requires v.JObj? && a in v.fields && v.fields[a].JObj? && b in v.fields[a].fields
    ensures Lookup(v, [a, b]) == Some(v.fields[a].fields[b])
  {
    LookupStep(v.fields, a, [b]);
    LookupStep(v.fields[a].fields, b, []);
  }

  lemma DefaultSections()
    ensures "system" in DefaultConfig.fields && DefaultConfig.fields["system"] == DefaultSystem
    ensures "analysis" in DefaultConfig.fields && DefaultConfig.fields["analysis"] == DefaultAnalysis
  {
  }

  lemma DefaultAnalysisEntries()
    ensures "confidence_thresholds" in DefaultAnalysis.fields
    ensures DefaultAnalysis.fields["confidence_thresholds"] == DefaultThresholds
    ensures "intensity_words" in DefaultAnalysis.fields
    ensures DefaultAnalysis.fields["intensity_words"] == DefaultIntensityWords
  {
  }

  lemma DefaultSystemName()
    ensures GetConfigOf(DefaultConfig, "system.name", JNull) == JStr("STAR Analysis System")
  {
    SystemNamePath();
    DefaultSections();
    LookupPair(DefaultConfig, "system", "name");
  }

  lemma DefaultThresholdsKey()
    ensures GetConfigOf(DefaultConfig, "analysis.confidence_thresholds", JNull) == DefaultThresholds
  {
    ThresholdsPath();
    DefaultSections();
    DefaultAnalysisEntries();
    LookupPair(DefaultConfig, "analysis", "confidence_thresholds");
  }

  lemma DefaultIntensityWordsKey()
    ensures GetConfigOf(DefaultConfig, "analysis.intensity_words", JNull) == DefaultIntensityWords
  {
    IntensityWordsPath();
    DefaultSections();
    DefaultAnalysisEntries();
    LookupPair(DefaultConfig, "analysis", "intensity_words");
  }

  /** The defaults pass `validate_config`: all three required keys lead to
      values and all four categories have tables. */
  lemma DefaultsValid()
    ensures ConfigValid(DefaultConfig, DefaultKeywords)
  {
    DefaultRequiredKeys();
    DefaultCategories();
    ValidWhenPresent(DefaultConfig, DefaultKeywords);
  }

  /** `validate_config` passes when every required key leads to something other
      than null and every category has an entry. */
  lemma ValidWhenPresent(config: Json, keywords: map<String, Json>)
    requires forall j | 0 <= j < |RequiredKeys| :: GetConfigOf(config, RequiredKeys[j], JNull) != JNull
    requires forall c: Category :: Name(c) in keywords
    ensures ConfigValid(config, keywords)
  {
    forall c: Category ensures Name(c) in KeywordTables(keywords) {
      CategoryTables(keywords, c);
    }
  }

  /** The default keywords have an entry for every category. */
  lemma DefaultCategories()
    ensures forall c: Category :: Name(c) in DefaultKeywords
  {
    var keys := DefaultKeywords.Keys;
    assert "SENSE" in keys && "THINK" in keys && "ACT" in keys && "RELATE" in keys;
    forall c: Category ensures Name(c) in keys {
      match c
      case SENSE =>
      case THINK =>
      case ACT =>
      case RELATE =>
    }
  }

  // ---------------------------------------------------------------------------
  // The manager

  /** `all(category in keywords for category in ['SENSE', 'THINK', 'ACT', 'RELATE'])` */
  method HasAllCategories(tables: map<String, Json>) returns (ok: bool)
    ensures ok <==> forall c: Category :: Name(c) in tables
  {
    AllCategoriesInOrder();
    var k := 0;
    while k < |AllCategories|
      invariant 0 <= k <= |AllCategories|
      invariant forall j | 0 <= j < k :: Name(AllCategories[j]) in tables
    {
      if Name(AllCategories[k]) !in tables {
        return false;
      }
      k := k + 1;
    }
    forall c: Category ensures Name(c) in tables {
      assert AllCategories[Index(c)] == c;
    }
    return true;
  }

  class ConfigManager {
    /** `_config`: the parsed config.json. */
    var config: Json
    /** `_keywords`: the parsed keywords.json. */
    var keywords: map<String, Json>

    /** `__init__` through `load_all_configs`: a missing or malformed file is
        replaced by its defaults; any other failure to read either file loads
        both defaults. */
    constructor(configFile: Loaded<Json>, keywordsFile: Loaded<map<String, Json>>)
      ensures configFile.Unreadable? || keywordsFile.Unreadable? ==>
        config == DefaultConfig && keywords == DefaultKeywords
      ensures !configFile.Unreadable? && !keywordsFile.Unreadable? ==>
        config == (if configFile.Parsed? then configFile.contents else DefaultConfig) &&
        keywords == (if keywordsFile.Parsed? then keywordsFile.contents else DefaultKeywords)
    {
      config := JObj(map[]);
      keywords := map[];
      new;
      if configFile.Unreadable? || keywordsFile.Unreadable? {
        LoadDefaultConfigs();
      } else {
        if configFile.Parsed? {
          config := configFile.contents;
        } else {
          CreateDefaultConfig();
        }
        if keywordsFile.Parsed? {
          keywords := keywordsFile.contents;
        } else {
          CreateDefaultKeywords();
        }
      }
    }

    /** `get_config`: the walk along the dotted path, or `default` where it fails. */
    method GetConfig(keyPath: String, default: Json) returns (value: Json)
      ensures value == GetConfigOf(config, keyPath, default)
    {
      var keys := PathOf(keyPath);
      var node := config;
      var i := 0;
      while i < |keys|
        invariant 0 <= i <= |keys|
        invariant Lookup(config, keys) == Lookup(node, keys[i..])
      {
        if node.JObj? && keys[i] in node.fields {
          assert keys[i..][1..] == keys[i + 1..];
          node := node.fields[keys[i]];
          i := i + 1;
        } else {
          return default;
        }
      }
      assert keys[i..] == [];
      return node;
    }

    /** `get_intensity_words`: the dictionary under analysis.intensity_words, or
        an empty one when there is nothing there. */
    method GetIntensityWords() returns (words: Json)
      ensures Lookup(config, ["analysis", "intensity_words"]) == None ==> words == JObj(map[])
      ensures Lookup(config, ["analysis", "intensity_words"]).Some? ==> words == Lookup(config, ["analysis", "intensity_words"]).value
      ensures words == GetConfigOf(config, "analysis.intensity_words", JObj(map[]))
    {
      IntensityWordsPath();
      words := GetConfig("analysis.intensity_words", JObj(map[]));
    }

    /** `get_context_weights`: the dictionary under analysis.context_weights, or
        an empty one when there is nothing there. */
    method GetContextWeights() returns (weights: Json)
      ensures Lookup(config, ["analysis", "context_weights"]) == None ==> weights == JObj(map[])
      ensures Lookup(config, ["analysis", "context_weights"]).Some? ==> weights == Lookup(config, ["analysis", "context_weights"]).value
      ensures weights == GetConfigOf(config, "analysis.context_weights", JObj(map[]))
    {
      ContextWeightsPath();
      weights := GetConfig("analysis.context_weights", JObj(map[]));
    }

    /** `save_config` without the file write. */
    method SaveConfig(keyPath: String, value: Json)
      modifies this
      ensures config == Assign(old(config), PathOf(keyPath), value)
      ensures keywords == old(keywords)
    {
      config := Assign(config, PathOf(keyPath), value);
    }

    /** `get_keywords`: copies every entry but the two pattern entries, and
        leaves `_keywords` alone. */
    method GetKeywords() returns (tables: map<String, Json>)
      ensures tables == KeywordTables(keywords)
    {
      tables := map[];
      var rest := keywords.Keys;
      while rest != {}
        invariant rest <= keywords.Keys
        invariant forall k :: k in tables <==> k in keywords && k !in rest && k !in PatternKeys
        invariant forall k | k in tables :: tables[k] == keywords[k]
        decreases rest
      {
        var key :| key in rest;
        if key != "negation_patterns" && key != "sentence_patterns" {
          tables := tables[key := keywords[key]];
        }
        rest := rest - {key};
      }
    }

    /** `get_negation_patterns`: the negation_patterns entry, or `[]` without one. */
    method GetNegationPatterns() returns (patterns: Json)
      ensures "negation_patterns" in keywords ==> patterns == keywords["negation_patterns"]
      ensures "negation_patterns" !in keywords ==> patterns == JArr([])
    {
      patterns := if "negation_patterns" in keywords then keywords["negation_patterns"] else JArr([]);
    }

    /** `get_sentence_patterns`: the sentence_patterns entry, or `{}` without one. */
    method GetSentencePatterns() returns (patterns: Json)
      ensures "sentence_patterns" in keywords ==> patterns == keywords["sentence_patterns"]
      ensures "sentence_patterns" !in keywords ==> patterns == JObj(map[])
    {
      patterns := if "sentence_patterns" in keywords then keywords["sentence_patterns"] else JObj(map[]);
    }

    /** `validate_config` */
    method ValidateConfig() returns (ok: bool)
      ensures ok <==> ConfigValid(config, keywords)
    {
      ok := HasRequiredKeys();
      if !ok {
        return false;
      }
      var tables := GetKeywords();
      ok := HasAllCategories(tables);
    }

    /** The loop over `required_keys`: false at the first one `get_config` does
        not find. */
    method HasRequiredKeys() returns (ok: bool)
      ensures ok <==> forall j | 0 <= j < |RequiredKeys| :: GetConfigOf(config, RequiredKeys[j], JNull) != JNull
    {
      var i := 0;
      while i < |RequiredKeys|
        invariant 0 <= i <= |RequiredKeys|
        invariant forall j | 0 <= j < i :: GetConfigOf(config, RequiredKeys[j], JNull) != JNull
      {
        var v := GetConfig(RequiredKeys[i], JNull);
        if v == JNull {
          return false;
        }
        i := i + 1;
      }
      return true;
    }

    /** `_create_default_config` */
    method CreateDefaultConfig()
      modifies this
      ensures config == DefaultConfig && keywords == old(keywords)
    {
      config := DefaultConfig;
    }

    /** `_create_default_keywords` */
    method CreateDefaultKeywords()
      modifies this
      ensures keywords == DefaultKeywords && config == old(config)
    {
      keywords := DefaultKeywords;
    }

    /** `_load_default_configs`: afterwards the configuration is valid. */
    method LoadDefaultConfigs()
      modifies this
      ensures config == DefaultConfig && keywords == DefaultKeywords
      ensures ConfigValid(config, keywords)
    {
      CreateDefaultConfig();
      CreateDefaultKeywords();
      DefaultsValid();
    }
  }
}
