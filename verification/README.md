# aidlp core in Dafny

A Dafny model of the core of `aidlp`. It is a data-loss-prevention proxy that sits between clients and LLM endpoints. It redacts sensitive text from outgoing request bodies before they go upstream. The model covers five parts:

- **Configuration loader** (`config.dfy`, module `Config`).
  - Dotted-key lookup `get("a.b", default)`, with Python's `str.split` modelled exactly.
  - `_load_config`, including the missing-file branch that yields the declared defaults, and validation against the `AppConfig` model at the level of sections and fields: declared fields take the document's value or their default, and undeclared keys are dropped.
  - `reload`.
- **Redaction engine** (`dlp_engine.dfy`, module `DlpEngine`).
  - `reload_config` builds a fresh keyword processor and the ML settings from the configuration.
  - `redact` runs a static keyword pass, then an optional ML pass. Only detections at or above the threshold are counted and anonymized.
  - The keyword and NLP libraries are kept uninterpreted. They are functions the engine is given (`Libraries`). The keyword processor is represented by the sequence of `add_keyword` calls that built it.
- **Stats manager** (`stats.dfy`, module `Stats`).
  - The persisted counters and how a saved snapshot overrides them.
  - `update`, including the host tally and the flush-due rule.
  - The guarded active-connection gauge.
  - A flush is modelled by its outcome, and the manager keeps the snapshot it last wrote. The clock is modelled as a parameter.
- **Proxy addon** (`proxy_addon.dfy`, module `ProxyAddon`).
  - `request` and `process_request`: which requests are processed, what the body becomes, and how counters and gauges move.
  - The engine's outcome is an input: its text and stats, or the exception it raised.
  - The model keeps the fail-open error handling of the code. A fail-closed variant is modelled next to it (see Findings).
  - A restart from saved stats is modelled as a new addon built from the snapshot a flush wrote.
- **`add-term` command** (`cli.dfy`, module `Cli`). This is the in-memory transformation of the loaded YAML document.

Beyond these, `values.dfy` models the Python values a YAML or JSON document holds, together with truthiness and `dict.get`. `wrappers.dfy` holds `Option` and `Result`. `pipeline.dfy` states properties that span components.

Notes on the model:

- In `process_request`, `StatsManager.update` is only called for requests whose body changed. As a consequence the persisted `total_requests` always equals `total_redacted` (`ProxyAddon.FreshRunCountsOnlyRedactions`). Only the Prometheus counter `REQUESTS_TOTAL` counts every processed request.
- A flush during `process_request` writes `active_connections` while the request is still counted, and a restart restores that count (see Findings).
- The engine reads the validated dump, not the document. `DLPConfig` does not declare `static_terms`, so the terms `add-term` writes never reach the engine (see Findings).
- Floats are `real`.

## Model

| member | source | states |
|---|---|---|
| Config.Split | src/config.py:75 | `key.split('.')` always yields at least one piece, and no piece contains the separator |
| Config.JoinSplit | src/config.py:75 | joining the pieces of a split with the separator gives back the original key |
| Config.SplitJoin | src/config.py:75 | splitting a joined list of separator-free pieces gives back exactly those pieces |
| Config.SplitConcat | src/config.py:75 | the pieces of `a.b` are the pieces of `a` followed by the pieces of `b` |
| Config.WalkAppend | src/config.py:76-81 | walking a key path in two legs equals walking it in one |
| Config.Get | src/config.py:74-82 | `get` returns either the default or a value other than `None` |
| Config.ResolveSingleKey | src/config.py:74-82 | for a key without a dot, `get` returns the stored entry when present and not `None`, and the default otherwise |
| Config.ResolveDotted | src/config.py:74-82 | `get("a.b", d)` equals `get("b", d)` applied to what `get("a")` found |
| Config.ResolveThroughLeaf | src/config.py:78-81 | meeting a non-mapping before the key is used up returns the default |
| Config.Validate | src/config.py:62-66 | an empty or falsy document stands for `{}`; a document is accepted iff it is a mapping whose declared sections are mappings; the dump holds exactly the declared sections and fields, each field as the document gives it or at its default |
| Config.LoadConfigWith | src/config.py:55-72 | a missing file gives the model's defaults, a parsed document its validated dump, and an unreadable file raises |
| Config.LoadConfig | src/config.py:55-72 | a missing file gives the declared defaults; a parsed document loads iff it validates; every dump has exactly the declared sections and fields, and never `dlp.static_terms` |
| Config.MissingIsEmptyFile | src/config.py:56-66 | a missing file, an empty mapping and an empty file load to the same configuration |
| Config.DumpIsFixpoint | src/config.py:65-66 | validating a dump again gives the same dump |
| Config.Reload | src/config.py:84-85 | reloading succeeds exactly when loading does, keeps the path, and replaces the configuration as a whole |
| Config.ReloadIsWholesale | src/config.py:84-85 | the configuration after a reload does not depend on the one held before |
| DlpEngine.AddKeywords | src/dlp_engine.py:23-24 | adding the terms keeps the earlier keywords, and appends one keyword per term, in order, each with the given clean name |
| DlpEngine.ReloadConfig | src/dlp_engine.py:19-28 | the engine is rebuilt from `dlp.static_terms` (default none), `dlp.replacement_token` (default `[REDACTED]`), `dlp.ml_enabled` (default true) and `dlp.ml_threshold` (default 0.5) alone: the terms in order, each with the token as clean name; it fails exactly for ill-typed settings |
| DlpEngine.DlpSetting | src/config.py:74-82 | `get("dlp.<field>", d)` is the field's value when the `dlp` section is a mapping holding it as something other than `None`, and `d` otherwise |
| DlpEngine.EngineFromDefaultSettings | src/dlp_engine.py:19-28 | a `dlp` section without terms and with the default token, flag and threshold gives the engine with no keywords, ML on, 0.5 and `[REDACTED]` |
| DlpEngine.BuildEngine | src/dlp_engine.py:19-28 | the rebuilt processor holds exactly the configured terms in order, each with the replacement token as clean name; the ML flag, threshold and token are those configured; the build fails exactly for ill-typed settings |
| DlpEngine.ReloadFromDefaults | src/dlp_engine.py:19-28 | with the default configuration the engine has no keywords, ML on, threshold 0.5 and token `[REDACTED]` |
| DlpEngine.KeepAtOrAbove | src/dlp_engine.py:50 | the filtered results are exactly the detections scored at or above the threshold, with multiplicity; the result is empty iff every score is below |
| DlpEngine.KeepAtOrAboveAppend | src/dlp_engine.py:50 | the filter keeps order: filtering a concatenation filters each part in place |
| DlpEngine.Redact | src/dlp_engine.py:30-64 | the stats have exactly the two keys; the static count is the number of keywords found in the original text; with ML off the result is the keyword-replaced text and the ML count is 0; with ML on the ML count is the number of detections at or above the threshold, and the result is the anonymizer's output on the statically redacted text with exactly those spans and the replace-with-token operator |
| DlpEngine.MlDisabledIgnoresDetection | src/dlp_engine.py:43-44 | with ML disabled the analyzer and the anonymizer have no influence on the result |
| DlpEngine.DetectionSeesStaticOutput | src/dlp_engine.py:41-47 | the ML pass sees only the statically redacted text |
| DlpEngine.AnonymizerSeesKeptSpansOnly | src/dlp_engine.py:50-62 | the anonymizer receives only the kept spans and the replace-with-token operator |
| DlpEngine.BelowThresholdNotCounted | src/dlp_engine.py:50-51 | when every detection scores below the threshold, the ML count is 0 and the anonymizer gets no spans |
| DlpEngine.NothingToRedact | src/dlp_engine.py:30-64 | a text with no keywords and no detection at or above the threshold comes back unchanged, with both counts 0 |
| Stats.Init | src/proxy_core.py:31-54 | without a readable snapshot the counters start at zero; with one, each of the seven counters takes the snapshot's value when the snapshot holds that key and stays at zero otherwise; `last_flush` is the start time |
| Stats.OverlayOverridesHeldKeys | src/proxy_core.py:51-52 | a snapshot overrides exactly the keys it holds and every other counter keeps its prior value; so an empty snapshot changes nothing and applying one twice is applying it once |
| Stats.LoadRestoresFlushed | src/proxy_core.py:46-54 | a successful flush writes a snapshot, and starting from it restores exactly the flushed counters |
| Stats.CountHost | src/proxy_core.py:63-66 | the host's count rises by one, it is created at 0 when new, and every other host is unchanged |
| Stats.Flush | src/proxy_core.py:79-85 | the counters are unchanged; a successful write records a snapshot holding every counter and moves `last_flush`; a failed write changes nothing |
| Stats.Update | src/proxy_core.py:56-69 | both totals rise by one; the replacement counts rise by the request's counts, missing as 0; the time rises by the duration; a truthy host is tallied; `last_flush` moves only when strictly more than the interval has passed and the write succeeded; a flush writes the counters as updated, and nothing is written otherwise |
| Stats.UpdatesKeepTotalsInStep | src/proxy_core.py:57-58 | over any run of updates, `total_requests` and `total_redacted` rise together, by the number of updates |
| Stats.HostCountsTally | src/proxy_core.py:63-66 | over any run of updates, a host's count rises by the number of updates that named it |
| Stats.IncrementActive | src/proxy_core.py:71-72 | the active count rises by one and nothing else changes |
| Stats.DecrementActive | src/proxy_core.py:75-77 | the active count falls by one only when positive, so it never becomes negative |
| Stats.UpdateInsideGauge | src/proxy_core.py:112-136 | an update between an increment and a decrement of the active count leaves the counters and `last_flush` as the update alone, but a snapshot it writes counts one more active connection |
| Stats.RestartCountsInFlightRequest | src/proxy_core.py:50-52 | as written, a manager restarted from a snapshot written during a request starts with one more active connection than the live count after that request |
| Stats.InitIdle | src/proxy_core.py:31-54 | the intended start: the counters are restored as in `Init`, except that the active count starts at zero |
| Stats.RestartIdleIgnoresInFlightRequest | src/proxy_core.py:31-54 | with the intended start, the same restart begins with no active connection and with the flushed totals and host tallies |
| Stats.IncrementThenDecrement | src/proxy_core.py:71-77 | a decrement undoes an increment from a non-negative count |
| Stats.ActiveStaysInRange | src/proxy_core.py:71-77 | from a non-negative count, no order of increments and decrements leaves the range from 0 to the start plus the increments |
| ProxyAddon.Recorded | src/proxy_core.py:112-136 | the `update` made while the request holds the active count open: its counters and `last_flush` are the update's alone, and a snapshot it writes counts the request as active |
| ProxyAddon.Process | src/proxy_core.py:112-136 | `REQUESTS_TOTAL` rises by one and `REDACTED_TOTAL` by one iff the body is non-empty and the engine returned a different text; in exactly that case the body is replaced and the stats manager records one `update` with the engine's stats, the duration and the request's host, and otherwise the stats are as before; an engine exception leaves the flow as it was or, fail-closed, attaches the 500 response |
| ProxyAddon.OnRequest | src/proxy_core.py:101-136 | only POST, PUT and PATCH with a body are processed; `REQUESTS_TOTAL` rises iff processed; the body is replaced, and `REDACTED_TOTAL` rises, iff the engine returned a different text; the stats manager then records exactly one `update` with the engine's stats, the duration and the request's host, and is otherwise unchanged; the gauges are restored; an engine exception leaves the flow untouched |
| ProxyAddon.OnRequestFailClosed | src/proxy_core.py:112-136 | as `OnRequest`, except that an engine exception on a processed request attaches a 500 `DLP Engine Error` response |
| ProxyAddon.AsWrittenFailsOpen | src/proxy_core.py:132-133 | a POST `test` whose redaction raises is forwarded unchanged and is not blocked |
| ProxyAddon.FailClosedBlocks | tests/test_integration.py:19-22 | with the fail-closed policy every engine failure on a processed request is blocked with a 5xx response |
| ProxyAddon.FailClosedAgreesOtherwise | src/proxy_core.py:132-133 | the two policies differ only in the response of a failed redaction; counters and stats agree |
| ProxyAddon.HandleAllInvariants | src/proxy_core.py:112-136 | over any run of requests, the stats totals and `REDACTED_TOTAL` move in lock step, `REQUESTS_TOTAL` keeps at least their pace, and both active counts return to their start |
| ProxyAddon.FreshRunCountsOnlyRedactions | src/proxy_core.py:127-131 | from a fresh start, persisted `total_requests` equals `total_redacted` and `REDACTED_TOTAL`, never exceeds `REQUESTS_TOTAL`, and the active count is 0 |
| ProxyAddon.RestartKeepsStaleGauge | src/proxy_core.py:50-52 | as written, after one redacted POST that flushes, the live active count is 0 but the snapshot holds 1, and an addon restarted from it reports 1 after any run of requests |
| ProxyAddon.RestartedAddonEndsIdle | src/proxy_core.py:112-136 | with the intended start, an addon restarted from any saved stats reports no active connection after any run of requests |
| Cli.AddTerm | src/cli.py:74-97 | the command succeeds exactly when the document and its `dlp` section are mappings and the term value is a list, or a string or mapping that already contains the term; otherwise it raises; on success it reports the term as present iff `term in` the term value holds, and otherwise appends the term to the list and leaves every other key unchanged |
| Cli.AddTermListsTerm | src/cli.py:86-92 | on a document with a mapping section and a term list, the command succeeds and the term is listed afterwards |
| Cli.AddTermIdempotent | src/cli.py:91-97 | a second run finds the term and writes nothing |
| Cli.AddTermKeepsTermsDistinct | src/cli.py:91-92 | a term list without duplicates stays without duplicates |
| Pipeline.LoadedEngineHasNoKeywords | src/config.py:23-30 | an engine reloaded from any loaded configuration has no keywords |
| Pipeline.AddedTermDroppedOnReload | src/config.py:65-66 | as written, after `add-term` writes, whenever the document loads and the engine reloads, the engine has no keywords at all |
| Pipeline.UnsetFieldsReloadAsDefaults | src/dlp_engine.py:19-28 | a loaded document that sets none of the token, flag and threshold fields reloads to the default engine |
| Pipeline.AddToEmptyDocument | src/cli.py:86-94 | `add-term` on the empty mapping `{}` writes a `dlp` section holding only the one-term list |
| Pipeline.OnlyTermLoads | src/config.py:62-66 | that document validates |
| Pipeline.OnlyTermSetsNothingElse | src/cli.py:86-92 | that document sets no `dlp` field other than the term list |
| Pipeline.EmptyDocumentLosesAddedTerm | src/config.py:65-66 | for every term, adding it to the empty mapping `{}` and reloading gives the default engine, without the term |
| Pipeline.EmptyFileRejectedByAddTerm | src/cli.py:83-86 | an empty file loads like `{}`, yet `add-term` fails on it (it reads `None`) while it succeeds on `{}` |
| Pipeline.CorrectedDumpKeepsTerms | src/config.py:65-66 | with `static_terms` declared, the loaded configuration holds the term list the document gives |
| Pipeline.CorrectedLoadKeepsTerms | src/dlp_engine.py:22-24 | with `static_terms` declared, a document's term list survives loading and becomes the engine's keywords in order |
| Pipeline.AddedTermBecomesKeyword | src/cli.py:91-94 | with `static_terms` declared, after `add-term` writes, loading and reloading maps the new term to the replacement token, after the earlier terms |
| Pipeline.MissingFileGivesDefaultEngine | src/config.py:56-58 | without a configuration file, the engine is built from the declared defaults |
| Pipeline.CleanBodyPassesThrough | src/proxy_core.py:127-131 | a body the engine leaves unchanged goes upstream as it came, and only `REQUESTS_TOTAL` moves |

## Left out

- Asynchrony: `request` schedules `process_request` with `asyncio.create_task` and returns before redaction ends. The model runs the processing to completion inside `request`, so the requests of a run are handled one after another. Interleavings and the thread offload are not modelled.
- Prometheus: the counters and the gauge are plain integers. The latency histogram, the metrics server, and the logging calls are left out because they do not affect the flow.
- File and YAML I/O: the configuration file and `config.yaml` are modelled as the document as read, and `add-term` returns the document to write. For `stats.json`, the stats manager keeps the snapshot it last wrote (`written`), and loading takes the snapshot found as an input. The file itself, and JSON encoding, are not modelled.
- Config.Validate: field values are not type-checked or coerced. A document pydantic rejects for an ill-typed field, such as a non-numeric string `ml_threshold`, is accepted here with the raw value. Coercions are not modelled either: a numeric string `ml_threshold` such as `"0.7"` stays a string, so the engine build fails with `ThresholdNotNumber` where the program would read 0.7; a quoted boolean `ml_enabled: "false"` stays a non-empty string and reads as true, where the program reads false; an integer is not turned into a float. The nested `secrets_provider` and `vault` models are not validated field by field, and their raw value is kept. Only the section and field structure of `AppConfig` is modelled, which is what decides whether `static_terms` survives.
- YAML parse errors and unreadable files are not modelled in detail: they are `Rejected`.
- Library internals: the keyword extraction and replacement, the analyzer and the anonymizer are uninterpreted functions. An exception they raise appears only as the addon's `EngineFailed` outcome.
- `get_text` and `set_text`: the body is modelled as already-decoded text, so decoding errors are not modelled.
- DlpEngine.BuildEngine: a non-list term value, a non-string term, a non-string token, or a non-numeric threshold makes the build fail with a `ConfigError`. Python would instead iterate a string's characters or a mapping's keys, or fail later inside the libraries. Those paths are collapsed into the error. For the token and the threshold, pydantic's type validation already excludes them. `static_terms` is not a declared field, so its value is never validated.
- Stats.Init: snapshot keys outside the seven counters, and snapshot values of other types, are not modelled. Python would store them as they are.
- Cli.AddTerm: YAML anchors and aliases are not modelled. `Value` is a tree, so the model has no shared nodes. If `dlp.static_terms` aliases another node of the document, the `append` also changes that node, and "every other key unchanged" does not hold for such a document.
- Values: mapping keys are strings only, and Python floats are exact reals. Rounding is not modelled.
- Clock: `time.time()` is an integer parameter, and the flush's later clock reading is carried in its outcome.
- The `start` and `stats` CLI commands are left out. They only launch a subprocess or fetch and print metrics over the network.
- `DLPAddon.__init__` starting the metrics server and loading the engine is left out. `NewAddon` models only the fresh counters.

## Findings

| source | as written | input that shows it | evidently intended | confidence | as-written member | corrected member |
|---|---|---|---|---|---|---|
| src/config.py:23-30 | `DLPConfig` does not declare `static_terms`, so `AppConfig(**raw).model_dump()` (src/config.py:65-66) drops it; `reload_config` (src/dlp_engine.py:22) then reads no terms, and a term written by `add-term` (src/cli.py:91-94) never becomes a keyword | a `config.yaml` holding `{}` (or any mapping without a `dlp` section) to which `add-term secret` is applied, then loaded and reloaded | `static_terms` declared as a `dlp` field defaulting to `[]`, so the written list reaches the keyword processor | not executed | Pipeline.AddedTermDroppedOnReload | Pipeline.AddedTermBecomesKeyword |
| src/proxy_core.py:132-133 | an exception from the engine is only logged; the flow goes upstream with its original, unredacted body | a POST with body `test` whose redaction raises `DLP Crash` | fail closed: attach a 500 response carrying `DLP Engine Error`, as tests/test_integration.py:19-22 expects | not executed | ProxyAddon.AsWrittenFailsOpen | ProxyAddon.FailClosedBlocks |
| src/proxy_core.py:50-52 | `_load_stats` restores `active_connections` from the snapshot, but every snapshot is written by `update` inside `process_request`, after `increment_active` (src/proxy_core.py:113) and before `decrement_active` (src/proxy_core.py:135), so it counts the request being processed; after a restart the gauge starts at one or more with nothing in flight, and never returns to zero | one redacted POST `secret` processed when a flush is due (snapshot `active_connections: 1`), then a restart from that `stats.json` | the active count starts at zero, as the constructor's defaults (src/proxy_core.py:40) set it; the cumulative counters are restored | not executed | ProxyAddon.RestartKeepsStaleGauge | ProxyAddon.RestartedAddonEndsIdle |

`ProxyAddon.FailClosedAgreesOtherwise` shows that the two policies leave the addon's counters and stats in the same state. The run lemmas proved over `OnRequest` (`HandleAllInvariants`, `FreshRunCountsOnlyRedactions`) therefore hold for the corrected pipeline as well.

The corrected start of the stats manager is `Stats.InitIdle`, used by `ProxyAddon.NewAddonIdle`. `Stats.RestartCountsInFlightRequest` and `Stats.RestartIdleIgnoresInFlightRequest` state the third finding for a single manager and any starting state, and the restored totals and host tallies are the same under both starts.

The corrected configuration model is `Config.CorrectedAppSchema`. `Config.LoadConfigWith` loads against either model. `Pipeline.EmptyDocumentLosesAddedTerm` is the concrete instance of the first finding, for the mapping `{}`: it holds for every term, including `secret`. A truly empty `config.yaml` does not show it: the loader reads such a file as `{}` (src/config.py:62), but `add-term` reads it as `None` and fails at src/cli.py:86 before writing anything; `Pipeline.EmptyFileRejectedByAddTerm` states both.
