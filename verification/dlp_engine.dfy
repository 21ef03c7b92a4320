/**
 * The redaction engine: a static keyword pass followed, when enabled, by
 * entity detection filtered at a score threshold and anonymization of the
 * surviving spans. The keyword processor, the analyzer and the anonymizer
 * are third-party libraries and appear here only as uninterpreted functions.
 */
module DlpEngine {
  import opened Wrappers
  import opened Values
  import Config

  // ---------------------------------------------------------------------
  // The libraries, kept abstract
  // ---------------------------------------------------------------------

  /** One `add_keyword(term, clean_name)` call made on a keyword processor. */
  datatype Keyword = Keyword(term: string, cleanName: string)

  /**
   * A keyword processor, identified by the keywords added to it since it
   * was created empty, in the order they were added.
   */
  datatype KeywordProcessor = KeywordProcessor(added: seq<Keyword>)

  /** A detected span: its entity type, its bounds in the analyzed text and its confidence. */
  datatype RecognizerResult = RecognizerResult(entityType: string, start: int, end: int, score: real)

  /** An anonymizer operator: its name and its parameters. */
  datatype OperatorConfig = OperatorConfig(operatorName: string, params: map<string, string>)

  /**
   * The library entry points the engine calls: keyword extraction and
   * replacement, span detection for a text in a language, and anonymization
   * of a text given spans and per-entity operators.
   */
  datatype Libraries = Libraries(
    extractKeywords: (KeywordProcessor, string) -> seq<string>,
    replaceKeywords: (KeywordProcessor, string) -> string,
    analyze: (string, string) -> seq<RecognizerResult>,
    anonymize: (string, seq<RecognizerResult>, map<string, OperatorConfig>) -> string)

  /** The language every analysis is run in. */
  const Language: string := "en"

  const DefaultReplacementToken: string := "[REDACTED]"
  const DefaultMlThreshold: real := 0.5

  /** The dotted key of a field of the `dlp` configuration section. */
  function DlpKey(field: string): string {
    Config.DlpSection + [Config.KeySeparator] + field
  }

  /** The configuration keys the engine reads. */
  const StaticTermsKey: string := DlpKey(Config.StaticTermsField)
  const ReplacementTokenKey: string := DlpKey(Config.ReplacementTokenField)
  const MlEnabledKey: string := DlpKey(Config.MlEnabledField)
  const MlThresholdKey: string := DlpKey(Config.MlThresholdField)

  /** The two keys of the statistics `redact` reports. */
  const StaticReplacements: string := "static_replacements"
  const MlReplacements: string := "ml_replacements"

  // ---------------------------------------------------------------------
  // Engine state and reload
  // ---------------------------------------------------------------------

  /** `DLPEngine`: its keyword processor and the ML settings read at the last reload. */
  datatype Engine = Engine(
    keywords: KeywordProcessor,
    mlEnabled: bool,
    mlThreshold: real,
    replacementToken: string)

  /** The engine the engine's own fallbacks give: no keywords, ML on, threshold 0.5, token `[REDACTED]`. */
  const FallbackEngine: Engine := Engine(KeywordProcessor([]), true, DefaultMlThreshold, DefaultReplacementToken)

  /** Configuration values of a type the engine cannot use. */
  datatype ConfigError = StaticTermsNotStrings | TokenNotString | ThresholdNotNumber

  /** `add_keyword`: one more keyword, after all those already added. */
  function AddKeyword(kp: KeywordProcessor, term: string, cleanName: string): KeywordProcessor {
    KeywordProcessor(kp.added + [Keyword(term, cleanName)])
  }

  /** The `for term in static_terms: add_keyword(term, token)` loop. */
  function AddKeywords(kp: KeywordProcessor, terms: seq<string>, cleanName: string): (r: KeywordProcessor)
    ensures |r.added| == |kp.added| + |terms|
    ensures r.added[..|kp.added|] == kp.added
    ensures forall i :: 0 <= i < |terms| ==> r.added[|kp.added| + i] == Keyword(terms[i], cleanName)
    decreases |terms|
  {
    if terms == [] then kp
    else AddKeywords(AddKeyword(kp, terms[0], cleanName), terms[1..], cleanName)
  }

  /** The configured static terms, when the value is a list of strings. */
  function TermList(v: Value): (r: Option<seq<string>>)
    ensures r.Some? <==> v.List? && forall i :: 0 <= i < |v.items| ==> v.items[i].Str?
    ensures r.Some? ==> |r.value| == |v.items| && forall i :: 0 <= i < |r.value| ==> v.items[i] == Str(r.value[i])
  {
    if v.List? && forall i :: 0 <= i < |v.items| ==> v.items[i].Str? then
      Some(seq(|v.items|, i requires 0 <= i < |v.items| => v.items[i].s))
    else None
  }

  /** A number compared against a float; Python's `int` and `float` both qualify. */
  function AsReal(v: Value): (r: Option<real>)
    ensures r.Some? <==> v.Int? || v.Float?
  {
    match v
    case Int(i) => Some(i as real)
    case Float(f) => Some(f)
    case _ => None
  }

  /** The four configuration values `reload_config` reads, each with its fallback applied. */
  datatype Settings = Settings(staticTerms: Value, replacementToken: Value, mlEnabled: Value, mlThreshold: Value)

  /** `config.get` of each setting the engine uses, with the engine's own fallbacks. */
  function ReadSettings(loader: Config.ConfigLoader): Settings {
    Settings(
      Config.Get(loader, StaticTermsKey, List([])),
      Config.Get(loader, ReplacementTokenKey, Str(DefaultReplacementToken)),
      Config.Get(loader, MlEnabledKey, Bool(true)),
      Config.Get(loader, MlThresholdKey, Float(DefaultMlThreshold)))
  }

  /**
   * The body of `reload_config` once the settings are read: a fresh keyword
   * processor holding every configured term with the replacement token as
   * its clean name, and the ML settings.
   */
  function BuildEngine(s: Settings): (r: Result<Engine, ConfigError>)
    ensures r.Success? <==> TermList(s.staticTerms).Some? && s.replacementToken.Str? && AsReal(s.mlThreshold).Some?
    ensures r.Success? ==>
      && |r.value.keywords.added| == |s.staticTerms.items|
      && forall i :: 0 <= i < |s.staticTerms.items| ==>
           Str(r.value.keywords.added[i].term) == s.staticTerms.items[i] &&
           r.value.keywords.added[i].cleanName == r.value.replacementToken
    ensures r.Success? ==>
      && Str(r.value.replacementToken) == s.replacementToken
      && r.value.mlEnabled == Truthy(s.mlEnabled)
      && Some(r.value.mlThreshold) == AsReal(s.mlThreshold)
  {
    match TermList(s.staticTerms)
    case None => Failure(StaticTermsNotStrings)
    case Some(terms) =>
      if !s.replacementToken.Str? then Failure(TokenNotString)
      else
        match AsReal(s.mlThreshold)
        case None => Failure(ThresholdNotNumber)
        case Some(threshold) =>
          var token := s.replacementToken.s;
          Success(Engine(AddKeywords(KeywordProcessor([]), terms, token), Truthy(s.mlEnabled), threshold, token))
  }

  /**
   * `reload_config`: the engine is rebuilt from the current configuration
   * alone. The terms under `dlp.static_terms` (default none) become keywords,
   * in order, each replaced by `dlp.replacement_token` (default
   * `[REDACTED]`); `dlp.ml_enabled` (default true) and `dlp.ml_threshold`
   * (default 0.5) set the ML pass. Nothing of the previous engine survives.
   */
  function ReloadConfig(loader: Config.ConfigLoader): (r: Result<Engine, ConfigError>)
    ensures
      var terms := Config.Get(loader, StaticTermsKey, List([]));
      var token := Config.Get(loader, ReplacementTokenKey, Str(DefaultReplacementToken));
      var threshold := Config.Get(loader, MlThresholdKey, Float(DefaultMlThreshold));
      r.Success? <==> TermList(terms).Some? && token.Str? && AsReal(threshold).Some?
    ensures r.Success? ==>
      var terms := Config.Get(loader, StaticTermsKey, List([]));
      && |r.value.keywords.added| == |terms.items|
      && forall i :: 0 <= i < |terms.items| ==>
           Str(r.value.keywords.added[i].term) == terms.items[i] &&
           r.value.keywords.added[i].cleanName == r.value.replacementToken
    ensures r.Success? ==>
      && Str(r.value.replacementToken) == Config.Get(loader, ReplacementTokenKey, Str(DefaultReplacementToken))
      && r.value.mlEnabled == Truthy(Config.Get(loader, MlEnabledKey, Bool(true)))
      && Some(r.value.mlThreshold) == AsReal(Config.Get(loader, MlThresholdKey, Float(DefaultMlThreshold)))
  {
    BuildEngine(ReadSettings(loader))
  }

  /**
   * `config.get("dlp.<field>", default)`: the field's value when the `dlp`
   * section is a mapping holding it as something other than `None`, and the
   * default otherwise.
   */
  lemma DlpSetting(loader: Config.ConfigLoader, field: string, default: Value)
    requires Config.KeySeparator !in field
    ensures
      var c := loader.config;
      Config.Get(loader, DlpKey(field), default) ==
        if Config.DlpSection in c && c[Config.DlpSection].Dict? && field in c[Config.DlpSection].entries
           && c[Config.DlpSection].entries[field] != Null
        then c[Config.DlpSection].entries[field]
        else default
  {
    var root := Values.Dict(loader.config);
    Config.ResolveDotted(root, Config.DlpSection, field, default);
    Config.ResolveSingleKey(root, Config.DlpSection, Null);
    Config.ResolveSingleKey(Config.Resolve(root, Config.DlpSection, Null), field, default);
  }

  /**
   * A configuration whose `dlp` section has no term list and holds the
   * default token, ML flag and threshold gives the engine with no keywords,
   * ML on, threshold 0.5 and token `[REDACTED]`.
   */
  lemma EngineFromDefaultSettings(loader: Config.ConfigLoader)
    requires Config.DlpSection in loader.config && loader.config[Config.DlpSection].Dict?
    requires
      var section := loader.config[Config.DlpSection].entries;
      && Config.StaticTermsField !in section
      && Config.ReplacementTokenField in section && section[Config.ReplacementTokenField] == Str(DefaultReplacementToken)
      && Config.MlEnabledField in section && section[Config.MlEnabledField] == Bool(true)
      && Config.MlThresholdField in section && section[Config.MlThresholdField] == Float(DefaultMlThreshold)
    ensures ReloadConfig(loader) == Success(FallbackEngine)
  {
    DlpSetting(loader, Config.StaticTermsField, List([]));
    DlpSetting(loader, Config.ReplacementTokenField, Str(DefaultReplacementToken));
    DlpSetting(loader, Config.MlEnabledField, Bool(true));
    DlpSetting(loader, Config.MlThresholdField, Float(DefaultMlThreshold));
    assert ReadSettings(loader) == Settings(List([]), Str(DefaultReplacementToken), Bool(true), Float(DefaultMlThreshold));
  }

  /**
   * With the configuration at its defaults the engine has no keywords, runs
   * detection, and uses threshold 0.5 and token `[REDACTED]`: the loader's
   * defaults and the engine's own fallbacks agree.
   */
  lemma ReloadFromDefaults(path: string)
    ensures ReloadConfig(Config.ConfigLoader(path, Config.DefaultConfig)) ==
      Success(FallbackEngine)
  {
    assert Config.DefaultConfig[Config.DlpSection] == Values.Dict(Config.DlpDefaults);
    EngineFromDefaultSettings(Config.ConfigLoader(path, Config.DefaultConfig));
  }

  // ---------------------------------------------------------------------
  // The threshold filter
  // ---------------------------------------------------------------------

  /** `[r for r in results if r.score >= threshold]`. */
  function KeepAtOrAbove(results: seq<RecognizerResult>, threshold: real): (kept: seq<RecognizerResult>)
    ensures |kept| <= |results|
    ensures forall i :: 0 <= i < |kept| ==> kept[i].score >= threshold
    ensures forall x :: x in kept <==> x in results && x.score >= threshold
    ensures kept == [] <==> forall x :: x in results ==> x.score < threshold
    ensures forall x :: multiset(kept)[x] == if x.score >= threshold then multiset(results)[x] else 0
    decreases |results|
  {
    if results == [] then []
    else
      var rest := KeepAtOrAbove(results[1..], threshold);
      assert results == [results[0]] + results[1..];
      assert multiset(results) == multiset{results[0]} + multiset(results[1..]);
      if results[0].score >= threshold then [results[0]] + rest else rest
  }

  /** The filter keeps order: filtering a concatenation filters each part in place. */
  lemma {:induction false} KeepAtOrAboveAppend(a: seq<RecognizerResult>, b: seq<RecognizerResult>, threshold: real)
    ensures KeepAtOrAbove(a + b, threshold) == KeepAtOrAbove(a, threshold) + KeepAtOrAbove(b, threshold)
    decreases |a|
  {
    if a == [] {
      assert a + b == b;
    } else {
      assert (a + b)[0] == a[0];
      assert (a + b)[1..] == a[1..] + b;
      KeepAtOrAboveAppend(a[1..], b, threshold);
    }
  }

  // ---------------------------------------------------------------------
  // Redaction
  // ---------------------------------------------------------------------

  /** The text `redact` returns and the statistics it reports. */
  datatype Redaction = Redaction(text: string, stats: map<string, int>)

  /** The single anonymizer operator: replace every span by the token. */
  function DefaultOperators(token: string): map<string, OperatorConfig> {
    map["DEFAULT" := OperatorConfig("replace", map["new_value" := token])]
  }

  /**
   * `redact`: the static pass counts the keywords found in the original text
   * and replaces them; with ML disabled that is the answer, otherwise the
   * analyzer looks at the statically redacted text, the spans at or above the
   * threshold are counted and handed to the anonymizer with the replace
   * operator.
   */
  function Redact(libs: Libraries, e: Engine, text: string): (r: Redaction)
    ensures r.stats.Keys == {StaticReplacements, MlReplacements}
    ensures r.stats[StaticReplacements] == |libs.extractKeywords(e.keywords, text)|
    ensures !e.mlEnabled ==>
      r.text == libs.replaceKeywords(e.keywords, text) && r.stats[MlReplacements] == 0
    ensures e.mlEnabled ==>
      0 <= r.stats[MlReplacements] <= |libs.analyze(libs.replaceKeywords(e.keywords, text), Language)|
    ensures e.mlEnabled ==>
      var afterStatic := libs.replaceKeywords(e.keywords, text);
      var kept := KeepAtOrAbove(libs.analyze(afterStatic, Language), e.mlThreshold);
      && r.stats[MlReplacements] == |kept|
      && r.text == libs.anonymize(afterStatic, kept, DefaultOperators(e.replacementToken))
  {
    var found := libs.extractKeywords(e.keywords, text);
    var afterStatic := libs.replaceKeywords(e.keywords, text);
    if !e.mlEnabled then
      Redaction(afterStatic, map[StaticReplacements := |found|, MlReplacements := 0])
    else
      var kept := KeepAtOrAbove(libs.analyze(afterStatic, Language), e.mlThreshold);
      var anonymized := libs.anonymize(afterStatic, kept, DefaultOperators(e.replacementToken));
      Redaction(anonymized, map[StaticReplacements := |found|, MlReplacements := |kept|])
  }

  /** With ML disabled neither the analyzer nor the anonymizer has any say in the result. */
  lemma MlDisabledIgnoresDetection(l1: Libraries, l2: Libraries, e: Engine, text: string)
    requires !e.mlEnabled
    requires l1.extractKeywords == l2.extractKeywords && l1.replaceKeywords == l2.replaceKeywords
    ensures Redact(l1, e, text) == Redact(l2, e, text)
  {
  }

  /**
   * Detection and anonymization see only the statically redacted text: two
   * inputs the keyword pass maps to the same text redact alike, apart from
   * the static count.
   */
  lemma DetectionSeesStaticOutput(libs: Libraries, e: Engine, t1: string, t2: string)
    requires libs.replaceKeywords(e.keywords, t1) == libs.replaceKeywords(e.keywords, t2)
    ensures Redact(libs, e, t1).text == Redact(libs, e, t2).text
    ensures Redact(libs, e, t1).stats[MlReplacements] == Redact(libs, e, t2).stats[MlReplacements]
  {
  }

  /**
   * The anonymizer sees only the spans at or above the threshold and only the
   * replace-with-token operator: analyzers that agree on the kept spans, and
   * anonymizers that agree on those spans with that operator, give the same
   * redaction, however differently they treat anything else.
   */
  lemma AnonymizerSeesKeptSpansOnly(l1: Libraries, l2: Libraries, e: Engine, text: string)
    requires l1.extractKeywords == l2.extractKeywords && l1.replaceKeywords == l2.replaceKeywords
    requires
      var s := l1.replaceKeywords(e.keywords, text);
      var kept := KeepAtOrAbove(l1.analyze(s, Language), e.mlThreshold);
      && kept == KeepAtOrAbove(l2.analyze(s, Language), e.mlThreshold)
      && l1.anonymize(s, kept, DefaultOperators(e.replacementToken)) ==
         l2.anonymize(s, kept, DefaultOperators(e.replacementToken))
    ensures Redact(l1, e, text) == Redact(l2, e, text)
  {
  }

  /** Spans scored below the threshold are never counted and never reach the anonymizer. */
  lemma BelowThresholdNotCounted(libs: Libraries, e: Engine, text: string)
    requires e.mlEnabled
    requires
      var s := libs.replaceKeywords(e.keywords, text);
      forall x :: x in libs.analyze(s, Language) ==> x.score < e.mlThreshold
    ensures Redact(libs, e, text).stats[MlReplacements] == 0
    ensures Redact(libs, e, text).text ==
      libs.anonymize(libs.replaceKeywords(e.keywords, text), [], DefaultOperators(e.replacementToken))
  {
    var s := libs.replaceKeywords(e.keywords, text);
    var kept := KeepAtOrAbove(libs.analyze(s, Language), e.mlThreshold);
  }

  /**
   * A text in which the keyword pass finds and changes nothing and in which no
   * span reaches the threshold comes back unchanged with both counts zero,
   * provided the anonymizer leaves a text without spans alone.
   */
  lemma NothingToRedact(libs: Libraries, e: Engine, text: string)
    requires libs.extractKeywords(e.keywords, text) == []
    requires libs.replaceKeywords(e.keywords, text) == text
    requires e.mlEnabled ==> forall x :: x in libs.analyze(text, Language) ==> x.score < e.mlThreshold
    requires e.mlEnabled ==> libs.anonymize(text, [], DefaultOperators(e.replacementToken)) == text
    ensures Redact(libs, e, text) == Redaction(text, map[StaticReplacements := 0, MlReplacements := 0])
  {
    if e.mlEnabled {
      BelowThresholdNotCounted(libs, e, text);
    }
  }
}
