/**
 * Properties that span components: what a term written by the `add-term`
 * command becomes once the configuration is loaded and the engine reloaded
 * (nothing, as `AppConfig` stands; a keyword, once `static_terms` is
 * declared), the engine built from a missing configuration file, and a
 * request the engine leaves alone passing the addon untouched.
 */
module Pipeline {
  import opened Wrappers
  import opened Values
  import Config
  import DlpEngine
  import Cli
  import ProxyAddon

  /** Every engine reloaded from a loaded configuration has an empty keyword processor. */
  lemma LoadedEngineHasNoKeywords(path: string, src: Config.ConfigSource)
    requires Config.LoadConfig(src).Success?
    requires DlpEngine.ReloadConfig(Config.ConfigLoader(path, Config.LoadConfig(src).value)).Success?
    ensures DlpEngine.ReloadConfig(Config.ConfigLoader(path, Config.LoadConfig(src).value)).value.keywords.added == []
  {
    var dump := Config.LoadConfig(src).value;
    assert Config.StaticTermsField !in dump[Config.DlpSection].entries;
    var loader := Config.ConfigLoader(path, dump);
    DlpEngine.DlpSetting(loader, Config.StaticTermsField, List([]));
    assert Config.Get(loader, DlpEngine.StaticTermsKey, List([])) == List([]);
  }

  /**
   * As written, a term `add-term` appends never reaches the engine: loading
   * the document it wrote validates it against `AppConfig`, whose `dlp`
   * section does not declare `static_terms`, so the next reload finds no
   * terms at all.
   */
  lemma AddedTermDroppedOnReload(path: string, data: Value, term: string)
    requires Cli.AddTerm(data, term).Success? && Cli.AddTerm(data, term).value.Added?
    ensures
      var loaded := Config.LoadConfig(Config.Parsed(Cli.AddTerm(data, term).value.data));
      loaded.Success? && DlpEngine.ReloadConfig(Config.ConfigLoader(path, loaded.value)).Success? ==>
        DlpEngine.ReloadConfig(Config.ConfigLoader(path, loaded.value)).value.keywords.added == []
  {
    var src := Config.Parsed(Cli.AddTerm(data, term).value.data);
    if Config.LoadConfig(src).Success? && DlpEngine.ReloadConfig(Config.ConfigLoader(path, Config.LoadConfig(src).value)).Success? {
      LoadedEngineHasNoKeywords(path, src);
    }
  }

  /** A field a document leaves unset is loaded at its declared default. */
  lemma UnsetFieldLoadsAsDefault(doc: Value, field: string)
    requires Config.LoadConfig(Config.Parsed(doc)).Success?
    requires field in Config.DlpDefaults
    requires Config.Given(doc, Config.DlpSection, field).None?
    ensures Config.LoadConfig(Config.Parsed(doc)).value[Config.DlpSection].entries[field] == Config.DlpDefaults[field]
  {
    assert Config.AppSchema[Config.DlpSection] == Config.DlpDefaults;
  }

  /** A loaded document that sets none of the engine's ML and token fields reloads to the default engine. */
  lemma UnsetFieldsReloadAsDefaults(path: string, doc: Value)
    requires Config.LoadConfig(Config.Parsed(doc)).Success?
    requires Config.Given(doc, Config.DlpSection, Config.ReplacementTokenField).None?
    requires Config.Given(doc, Config.DlpSection, Config.MlEnabledField).None?
    requires Config.Given(doc, Config.DlpSection, Config.MlThresholdField).None?
    ensures DlpEngine.ReloadConfig(Config.ConfigLoader(path, Config.LoadConfig(Config.Parsed(doc)).value)) ==
      Success(DlpEngine.FallbackEngine)
  {
    UnsetFieldLoadsAsDefault(doc, Config.ReplacementTokenField);
    UnsetFieldLoadsAsDefault(doc, Config.MlEnabledField);
    UnsetFieldLoadsAsDefault(doc, Config.MlThresholdField);
    DlpEngine.EngineFromDefaultSettings(Config.ConfigLoader(path, Config.LoadConfig(Config.Parsed(doc)).value));
  }

  /** A document whose `dlp` section holds only a one-term list. */
  function OnlyTerm(term: string): Value {
    Dict(map[Config.DlpSection := Dict(map[Config.StaticTermsField := List([Str(term)])])])
  }

  /** The document `add-term` writes for the empty mapping `{}` is the one holding only the new term. */
  lemma AddToEmptyDocument(term: string)
    ensures Cli.AddTerm(Dict(map[]), term) == Success(Cli.Added(OnlyTerm(term)))
  {
    var empty: map<string, Value> := map[];
    assert Cli.SectionOf(empty) == Dict(empty) && Cli.TermsOf(empty) == List([]);
    assert [] + [Str(term)] == [Str(term)];
    assert empty[Config.StaticTermsField := List([Str(term)])] == map[Config.StaticTermsField := List([Str(term)])];
  }

  /** That document passes validation. */
  lemma OnlyTermLoads(term: string)
    ensures Config.LoadConfig(Config.Parsed(OnlyTerm(term))).Success?
  {
    var doc := OnlyTerm(term);
    assert doc.entries.Keys == {Config.DlpSection};
    assert Truthy(doc);
    forall s | s in Config.AppSchema && s in doc.entries
      ensures doc.entries[s].Dict?
    {
      assert s == Config.DlpSection;
    }
    assert Config.Conforms(doc.entries, Config.AppSchema);
  }

  /** That document sets none of the engine's fields other than the term list. */
  lemma OnlyTermSetsNothingElse(term: string)
    ensures Config.Given(OnlyTerm(term), Config.DlpSection, Config.ReplacementTokenField).None?
    ensures Config.Given(OnlyTerm(term), Config.DlpSection, Config.MlEnabledField).None?
    ensures Config.Given(OnlyTerm(term), Config.DlpSection, Config.MlThresholdField).None?
  {
    assert OnlyTerm(term).entries[Config.DlpSection].entries.Keys == {Config.StaticTermsField};
  }

  /**
   * The plainest case: whatever term is added to the empty mapping `{}`, the
   * document loads and the reloaded engine is the default one, without
   * keywords.
   */
  lemma EmptyDocumentLosesAddedTerm(path: string, term: string)
    ensures Cli.AddTerm(Dict(map[]), term).Success?
    ensures Cli.AddTerm(Dict(map[]), term).value.Added?
    ensures
      var loaded := Config.LoadConfig(Config.Parsed(Cli.AddTerm(Dict(map[]), term).value.data));
      && loaded.Success?
      && DlpEngine.ReloadConfig(Config.ConfigLoader(path, loaded.value)) ==
           Success(DlpEngine.FallbackEngine)
  {
    AddToEmptyDocument(term);
    OnlyTermLoads(term);
    OnlyTermSetsNothingElse(term);
    UnsetFieldsReloadAsDefaults(path, OnlyTerm(term));
  }

  /**
   * A truly empty file is not that case: the loader reads it as `{}`, but
   * `add-term` reads it as `None` and fails before writing anything.
   */
  lemma EmptyFileRejectedByAddTerm(term: string)
    ensures Config.LoadConfig(Config.Parsed(Null)) == Config.LoadConfig(Config.Parsed(Dict(map[])))
    ensures Cli.AddTerm(Null, term) == Failure(Cli.DocumentNotMapping)
    ensures Cli.AddTerm(Dict(map[]), term).Success?
  {
    Config.MissingIsEmptyFile(Config.AppSchema);
    AddToEmptyDocument(term);
  }

  /** With `static_terms` declared, the loaded configuration holds the document's term list. */
  lemma CorrectedDumpKeepsTerms(doc: Value, items: seq<Value>)
    requires Config.Given(doc, Config.DlpSection, Config.StaticTermsField) == Some(List(items))
    requires Config.LoadConfigWith(Config.CorrectedAppSchema, Config.Parsed(doc)).Success?
    ensures
      var dump := Config.LoadConfigWith(Config.CorrectedAppSchema, Config.Parsed(doc)).value;
      && Config.DlpSection in dump && dump[Config.DlpSection].Dict?
      && Config.StaticTermsField in dump[Config.DlpSection].entries
      && dump[Config.DlpSection].entries[Config.StaticTermsField] == List(items)
  {
    var schema := Config.CorrectedAppSchema;
    assert Config.DlpSection in schema;
    assert Config.StaticTermsField in schema[Config.DlpSection];
  }

  /**
   * With `static_terms` declared, the loaded configuration keeps a document's
   * term list, and the reloaded engine holds exactly those terms in order.
   */
  lemma CorrectedLoadKeepsTerms(path: string, doc: Value, items: seq<Value>)
    requires Config.Given(doc, Config.DlpSection, Config.StaticTermsField) == Some(List(items))
    requires Config.LoadConfigWith(Config.CorrectedAppSchema, Config.Parsed(doc)).Success?
    requires
      var dump := Config.LoadConfigWith(Config.CorrectedAppSchema, Config.Parsed(doc)).value;
      DlpEngine.ReloadConfig(Config.ConfigLoader(path, dump)).Success?
    ensures
      var dump := Config.LoadConfigWith(Config.CorrectedAppSchema, Config.Parsed(doc)).value;
      var e := DlpEngine.ReloadConfig(Config.ConfigLoader(path, dump)).value;
      && |e.keywords.added| == |items|
      && forall i :: 0 <= i < |items| ==> Str(e.keywords.added[i].term) == items[i]
  {
    CorrectedDumpKeepsTerms(doc, items);
    var dump := Config.LoadConfigWith(Config.CorrectedAppSchema, Config.Parsed(doc)).value;
    DlpEngine.DlpSetting(Config.ConfigLoader(path, dump), Config.StaticTermsField, List([]));
  }

  /**
   * With `static_terms` declared in the `dlp` section, the document
   * `add-term` wrote survives validation, and the next reload maps the new
   * term to the replacement token, after every term listed before it.
   */
  lemma AddedTermBecomesKeyword(path: string, data: Value, term: string)
    requires Cli.AddTerm(data, term).Success? && Cli.AddTerm(data, term).value.Added?
    requires Config.LoadConfigWith(Config.CorrectedAppSchema, Config.Parsed(Cli.AddTerm(data, term).value.data)).Success?
    requires
      var dump := Config.LoadConfigWith(Config.CorrectedAppSchema, Config.Parsed(Cli.AddTerm(data, term).value.data)).value;
      DlpEngine.ReloadConfig(Config.ConfigLoader(path, dump)).Success?
    ensures
      var dump := Config.LoadConfigWith(Config.CorrectedAppSchema, Config.Parsed(Cli.AddTerm(data, term).value.data)).value;
      var e := DlpEngine.ReloadConfig(Config.ConfigLoader(path, dump)).value;
      var before := Cli.TermsOf(Cli.SectionOf(data.entries).entries).items;
      && |e.keywords.added| == |before| + 1
      && e.keywords.added[|before|] == DlpEngine.Keyword(term, e.replacementToken)
  {
    var written := Cli.AddTerm(data, term).value.data;
    var before := Cli.TermsOf(Cli.SectionOf(data.entries).entries).items;
    assert Cli.StaticTerms(written) == Some(before + [Str(term)]);
    assert Config.Given(written, Config.DlpSection, Config.StaticTermsField) == Some(List(before + [Str(term)]));
    CorrectedLoadKeepsTerms(path, written, before + [Str(term)]);
    assert (before + [Str(term)])[|before|] == Str(term);
  }

  /**
   * Without a configuration file the loader holds the declared defaults, and
   * the engine built from them has no keywords, runs detection at threshold
   * 0.5 and replaces with `[REDACTED]`.
   */
  lemma MissingFileGivesDefaultEngine(loader: Config.ConfigLoader)
    ensures Config.Reload(loader, Config.Missing).Success?
    ensures DlpEngine.ReloadConfig(Config.Reload(loader, Config.Missing).value) ==
      Success(DlpEngine.FallbackEngine)
  {
    DlpEngine.ReloadFromDefaults(loader.configPath);
  }

  /**
   * A body in which the engine finds nothing to redact goes upstream as it
   * came: the flow is unchanged and neither the persisted counters nor
   * `REDACTED_TOTAL` move, although `REQUESTS_TOTAL` does.
   */
  lemma CleanBodyPassesThrough(a: ProxyAddon.Addon, f: ProxyAddon.Flow, env: ProxyAddon.Environment,
                               libs: DlpEngine.Libraries, e: DlpEngine.Engine)
    requires ProxyAddon.Eligible(f.request)
    requires a.stats.current.activeConnections >= 0
    requires var text := f.request.content;
      && libs.extractKeywords(e.keywords, text) == []
      && libs.replaceKeywords(e.keywords, text) == text
      && (e.mlEnabled ==> forall x :: x in libs.analyze(text, DlpEngine.Language) ==> x.score < e.mlThreshold)
      && (e.mlEnabled ==> libs.anonymize(text, [], DlpEngine.DefaultOperators(e.replacementToken)) == text)
    requires var red := DlpEngine.Redact(libs, e, f.request.content);
      env.outcome == ProxyAddon.Redacted(red.text, red.stats)
    ensures var r := ProxyAddon.OnRequest(a, f, env);
      && r.flow == f
      && r.addon.stats.current == a.stats.current
      && r.addon.metrics == a.metrics.(requestsTotal := a.metrics.requestsTotal + 1)
  {
    DlpEngine.NothingToRedact(libs, e, f.request.content);
  }
}
