/**
 * The configuration loader: a nested mapping read once at start-up (or
 * replaced wholesale by `reload`) and queried with dotted keys such as
 * `dlp.ml_threshold`.
 */
module Config {
  import opened Wrappers
  import opened Values

  /** The character `get` splits its key on. */
  const KeySeparator: char := '.'

  // ---------------------------------------------------------------------
  // Python's `str.split(sep)` and its inverse `sep.join(parts)`
  // ---------------------------------------------------------------------

  /** `sep.join(parts)`. */
  function Join(parts: seq<string>, sep: char): string {
    if |parts| == 0 then ""
    else if |parts| == 1 then parts[0]
    else parts[0] + [sep] + Join(parts[1..], sep)
  }

  /** Puts `c` in front of the first piece. */
  function ExtendFirst(c: char, parts: seq<string>): (r: seq<string>)
    requires |parts| >= 1
    ensures |r| == |parts| && r[0] == [c] + parts[0] && r[1..] == parts[1..]
  {
    [[c] + parts[0]] + parts[1..]
  }

  /**
   * `s.split(sep)`: the pieces between separators, empty pieces included, so
   * there is always at least one piece and no piece holds a separator.
   */
  function Split(s: string, sep: char): (parts: seq<string>)
    ensures |parts| >= 1
    ensures forall i :: 0 <= i < |parts| ==> sep !in parts[i]
    decreases |s|
  {
    if s == [] then [""]
    else if s[0] == sep then [""] + Split(s[1..], sep)
    else ExtendFirst(s[0], Split(s[1..], sep))
  }

  /** Joining the pieces gives the split string back. */
  lemma {:induction false} JoinSplit(s: string, sep: char)
    ensures Join(Split(s, sep), sep) == s
    decreases |s|
  {
    if s != [] {
      var rest := Split(s[1..], sep);
      JoinSplit(s[1..], sep);
      if s[0] == sep {
        assert ([""] + rest)[1..] == rest;
      } else if |rest| > 1 {
        assert ExtendFirst(s[0], rest)[1..] == rest[1..];
      }
      assert s == [s[0]] + s[1..];
    }
  }

  /** A string without a separator is a single piece. */
  lemma {:induction false} SplitWithoutSeparator(a: string, sep: char)
    requires sep !in a
    ensures Split(a, sep) == [a]
    decreases |a|
  {
    if a != [] {
      assert a[0] in a;
      assert forall x :: x in a[1..] ==> x in a;
      SplitWithoutSeparator(a[1..], sep);
      assert [a[0]] + a[1..] == a;
    }
  }

  /** The pieces of `a.b` are the pieces of `a` followed by the pieces of `b`. */
  lemma {:induction false} SplitConcat(a: string, b: string, sep: char)
    ensures Split(a + [sep] + b, sep) == Split(a, sep) + Split(b, sep)
    decreases |a|
  {
    var s := a + [sep] + b;
    if a == [] {
      assert s[0] == sep;
      assert s[1..] == b;
    } else {
      assert s[0] == a[0];
      assert s[1..] == a[1..] + [sep] + b;
      SplitConcat(a[1..], b, sep);
    }
  }

  /** Splitting a joined list of separator-free pieces gives the pieces back. */
  lemma {:induction false} SplitJoin(parts: seq<string>, sep: char)
    requires |parts| >= 1
    requires forall i :: 0 <= i < |parts| ==> sep !in parts[i]
    ensures Split(Join(parts, sep), sep) == parts
    decreases |parts|
  {
    if |parts| == 1 {
      SplitWithoutSeparator(parts[0], sep);
    } else {
      SplitJoin(parts[1..], sep);
      SplitConcat(parts[0], Join(parts[1..], sep), sep);
      SplitWithoutSeparator(parts[0], sep);
      assert parts == [parts[0]] + parts[1..];
    }
  }

  // ---------------------------------------------------------------------
  // Dotted-key lookup
  // ---------------------------------------------------------------------

  /**
   * Follows `keys` from `v` one mapping at a time. A missing key reads as
   * `None`, as `dict.get` does; meeting a value that is not a mapping while
   * keys remain gives `None` (Python returns the caller's default there).
   */
  function Walk(v: Value, keys: seq<string>): Option<Value>
    decreases |keys|
  {
    if keys == [] then Some(v)
    else
      match v
      case Dict(m) => Walk(Lookup(m, keys[0]), keys[1..])
      case _ => None
  }

  /** `ConfigLoader.get` starting from an arbitrary value instead of the stored configuration. */
  function Resolve(root: Value, key: string, default: Value): (r: Value)
    ensures r == default || r != Null
  {
    match Walk(root, Split(key, KeySeparator))
    case None => default
    case Some(v) => if v == Null then default else v
  }

  /** Walking a path in two legs is walking the first leg and then the second. */
  lemma {:induction false} WalkAppend(v: Value, ks1: seq<string>, ks2: seq<string>)
    ensures Walk(v, ks1 + ks2) ==
      match Walk(v, ks1)
      case None => None
      case Some(w) => Walk(w, ks2)
    decreases |ks1|
  {
    if ks1 == [] {
      assert ks1 + ks2 == ks2;
    } else {
      assert (ks1 + ks2)[0] == ks1[0];
      assert (ks1 + ks2)[1..] == ks1[1..] + ks2;
      match v
      case Dict(m) =>
        WalkAppend(Lookup(m, ks1[0]), ks1[1..], ks2);
      case _ =>
    }
  }

  /** A key without a separator reads one entry; a stored `None` or a non-mapping reads as the default. */
  lemma ResolveSingleKey(root: Value, key: string, default: Value)
    requires KeySeparator !in key
    ensures root.Dict? && key in root.entries && root.entries[key] != Null ==>
              Resolve(root, key, default) == root.entries[key]
    ensures !(root.Dict? && key in root.entries && root.entries[key] != Null) ==>
              Resolve(root, key, default) == default
  {
    SplitWithoutSeparator(key, KeySeparator);
    assert [key][1..] == [];
    match root
    case Dict(m) =>
      assert Walk(root, [key]) == Walk(Lookup(m, key), []);
    case _ =>
      assert Walk(root, [key]) == None;
  }

  /**
   * `get("a.b", d)` is `get("b", d)` applied to whatever `get("a")` found: a
   * missing, `None` or non-mapping intermediate therefore yields `d`.
   */
  lemma ResolveDotted(root: Value, a: string, b: string, default: Value)
    ensures Resolve(root, a + [KeySeparator] + b, default) ==
            Resolve(Resolve(root, a, Null), b, default)
  {
    var ka := Split(a, KeySeparator);
    var kb := Split(b, KeySeparator);
    SplitConcat(a, b, KeySeparator);
    WalkAppend(root, ka, kb);
    match Walk(root, ka)
    case None =>
      assert kb != [];
    case Some(w) =>
      if w == Null {
        assert kb != [];
      }
  }

  /** Reaching a value that is not a mapping before the key is used up yields the default. */
  lemma ResolveThroughLeaf(root: Value, a: string, b: string, default: Value)
    requires !Resolve(root, a, Null).Dict?
    ensures Resolve(root, a + [KeySeparator] + b, default) == default
  {
    ResolveDotted(root, a, b, default);
    assert Split(b, KeySeparator) != [];
  }

  // ---------------------------------------------------------------------
  // The loader
  // ---------------------------------------------------------------------

  /** `ConfigLoader`: the file path it reads and the validated configuration it holds. */
  datatype ConfigLoader = ConfigLoader(configPath: string, config: map<string, Value>)

  /** `ConfigLoader.get(key, default)`: look `key` up in the stored configuration. */
  function Get(loader: ConfigLoader, key: string, default: Value): (r: Value)
    ensures r == default || r != Null
  {
    Resolve(Dict(loader.config), key, default)
  }

  /** The `dlp` section and the fields of it that the engine reads and `add-term` writes. */
  const DlpSection: string := "dlp"
  const StaticTermsField: string := "static_terms"
  const ReplacementTokenField: string := "replacement_token"
  const MlEnabledField: string := "ml_enabled"
  const MlThresholdField: string := "ml_threshold"

  /** The fields `ProxyConfig` declares, at their defaults. */
  const ProxyDefaults: map<string, Value> := map[
    "port" := Int(8080),
    "host" := Str("0.0.0.0"),
    "ssl_bump" := Bool(true),
    "metrics_port" := Int(9090)]

  /** The fields `DLPConfig` declares, at their defaults; there is no `static_terms` among them. */
  const DlpDefaults: map<string, Value> := map[
    "static_terms_file" := Str("terms.txt"),
    MlEnabledField := Bool(true),
    MlThresholdField := Float(0.5),
    "nlp_model" := Str("en_core_web_sm"),
    "entities" := Null,
    "secrets_provider" := Dict(map["type" := Str("file"), "vault" := Null]),
    ReplacementTokenField := Str("[REDACTED]")]

  /** The fields `UpstreamConfig` declares, at their defaults. */
  const UpstreamDefaults: map<string, Value> := map["default_scheme" := Str("https")]

  /** A configuration model: each declared section with its declared fields at their defaults. */
  type Schema = map<string, map<string, Value>>

  /** `AppConfig`: the `proxy`, `dlp` and `upstream` sections. */
  const AppSchema: Schema := map["proxy" := ProxyDefaults, DlpSection := DlpDefaults, "upstream" := UpstreamDefaults]

  /**
   * `AppConfig` with the term list that `reload_config` reads and `add-term`
   * writes declared as a `dlp` field, defaulting to the empty list.
   */
  const CorrectedAppSchema: Schema := AppSchema[DlpSection := DlpDefaults[StaticTermsField := List([])]]

  /** `Model().model_dump()`: every section and field at its declared default. */
  function Defaults(schema: Schema): map<string, Value> {
    map s | s in schema :: Dict(schema[s])
  }

  /** `AppConfig().model_dump()`. */
  const DefaultConfig: map<string, Value> := Defaults(AppSchema)

  /** The value a document gives to field `k` of section `s`, if it gives one. */
  function Given(doc: Value, s: string, k: string): Option<Value> {
    if doc.Dict? && s in doc.entries && doc.entries[s].Dict? && k in doc.entries[s].entries
    then Some(doc.entries[s].entries[k])
    else None
  }

  /** Whether a document has a shape the model accepts: each declared section it holds is a mapping. */
  predicate Conforms(raw: map<string, Value>, schema: Schema) {
    forall s :: s in schema && s in raw ==> raw[s].Dict?
  }

  /** One section of the dump: each declared field as given, or at its default; other keys are dropped. */
  function DumpSection(raw: map<string, Value>, fields: map<string, Value>): map<string, Value> {
    map k | k in fields :: if k in raw then raw[k] else fields[k]
  }

  /**
   * `Model(**(doc or {})).model_dump()`: an empty or falsy document stands for
   * `{}`; a document that is not a mapping, or whose declared sections are not
   * mappings, is refused.
   */
  function Validate(doc: Value, schema: Schema): (r: Result<map<string, Value>, LoadError>)
    ensures r.Success? <==> !Truthy(doc) || (doc.Dict? && Conforms(doc.entries, schema))
    ensures r.Success? ==>
      && r.value.Keys == schema.Keys
      && forall s :: s in schema ==> r.value[s].Dict? && r.value[s].entries.Keys == schema[s].Keys
    ensures r.Success? ==>
      forall s, k :: s in schema && k in schema[s] ==> r.value[s].entries[k] == Given(doc, s, k).GetOr(schema[s][k])
  {
    var raw := if Truthy(doc) then doc else Dict(map[]);
    if raw.Dict? && Conforms(raw.entries, schema) then
      Success(map s | s in schema :: Dict(DumpSection(if s in raw.entries then raw.entries[s].entries else map[], schema[s])))
    else Failure(LoadFailed("configuration validation failed"))
  }

  /**
   * What reading the configuration file can find: no file, a parsed YAML
   * document, or a file that could not be read or parsed.
   */
  datatype ConfigSource = Missing | Parsed(doc: Value) | Rejected(reason: string)

  datatype LoadError = LoadFailed(reason: string)

  /** `_load_config` against a configuration model. */
  function LoadConfigWith(schema: Schema, src: ConfigSource): (r: Result<map<string, Value>, LoadError>)
    ensures src.Missing? ==> r == Success(Defaults(schema))
    ensures src.Parsed? ==> r == Validate(src.doc, schema)
    ensures src.Rejected? ==> r.Failure?
  {
    match src
    case Missing => Success(Defaults(schema))
    case Parsed(doc) => Validate(doc, schema)
    case Rejected(reason) => Failure(LoadFailed(reason))
  }

  /**
   * `_load_config`: defaults for a missing file, the validated dump of a parsed
   * document otherwise, and a raise for a file that cannot be read, parsed or
   * validated. A dump never holds `dlp.static_terms`, as `DLPConfig` does not
   * declare it.
   */
  function LoadConfig(src: ConfigSource): (r: Result<map<string, Value>, LoadError>)
    ensures src.Missing? ==> r == Success(DefaultConfig)
    ensures src.Rejected? ==> r.Failure?
    ensures src.Parsed? ==> (r.Success? <==> !Truthy(src.doc) || (src.doc.Dict? && Conforms(src.doc.entries, AppSchema)))
    ensures r.Success? ==>
      && r.value.Keys == AppSchema.Keys
      && (forall s :: s in AppSchema ==> r.value[s].Dict? && r.value[s].entries.Keys == AppSchema[s].Keys)
      && StaticTermsField !in r.value[DlpSection].entries
  {
    assert StaticTermsField !in AppSchema[DlpSection];
    LoadConfigWith(AppSchema, src)
  }

  /** A missing file and an empty one load alike: `AppConfig()` and `AppConfig(**{})` dump the same. */
  lemma MissingIsEmptyFile(schema: Schema)
    ensures LoadConfigWith(schema, Missing) == LoadConfigWith(schema, Parsed(Dict(map[])))
    ensures LoadConfigWith(schema, Missing) == LoadConfigWith(schema, Parsed(Null))
  {
    var d := Validate(Dict(map[]), schema).value;
    forall s | s in schema
      ensures d[s] == Dict(schema[s])
    {
      assert d[s].entries == schema[s];
    }
    assert d == Defaults(schema);
  }

  /** Validating a dump again gives the same dump: what is loaded is already in normal form. */
  lemma DumpIsFixpoint(doc: Value, schema: Schema)
    requires Validate(doc, schema).Success?
    ensures Validate(Dict(Validate(doc, schema).value), schema) == Validate(doc, schema)
  {
    var d := Validate(doc, schema).value;
    assert Conforms(d, schema);
    var d' := Validate(Dict(d), schema).value;
    forall s | s in schema
      ensures d'[s] == d[s]
    {
      assert d'[s].entries == d[s].entries;
    }
    assert d' == d;
  }

  /**
   * `reload`: the stored configuration is replaced as a whole by what the file
   * now holds; when loading raises, the exception reaches the caller and the
   * loader keeps its previous configuration.
   */
  function Reload(loader: ConfigLoader, src: ConfigSource): (r: Result<ConfigLoader, LoadError>)
    ensures r.Success? <==> LoadConfig(src).Success?
    ensures r.Success? ==> r.value.configPath == loader.configPath
    ensures r.Success? ==> r.value.config == LoadConfig(src).value
    ensures src.Missing? ==> r.Success? && r.value.config == DefaultConfig
  {
    match LoadConfig(src)
    case Success(c) => Success(loader.(config := c))
    case Failure(e) => Failure(e)
  }

  /** Reloading forgets everything the loader held before: two loaders on the same path reload alike. */
  lemma ReloadIsWholesale(l1: ConfigLoader, l2: ConfigLoader, src: ConfigSource)
    requires l1.configPath == l2.configPath
    ensures Reload(l1, src) == Reload(l2, src)
  {
  }
}
