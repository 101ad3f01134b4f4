# MT5 Signal Bot: settings, presets and signals, modelled in Dafny

This project models the core of the MT5 Signal Bot. The bot is a Flask
dashboard that keeps typed trading settings, strategy presets, trading signals
and a bot-status row in a SQL store, and talks to a MetaTrader 5 Expert Advisor
over a socket. The model covers these parts:

- **Settings** (module `Coercion`, class `App.SignalBotData`):
  - the eleven compiled defaults and seeding of missing keys at start-up;
  - typing a stored text on load: comment stripping, integer, float and boolean keys, with a fallback to the default;
  - the different processing `update_settings` applies before it saves;
  - check-box and number conversion in the settings form.
- **Presets**:
  - parsing `.set` files (`key = value` lines, comments and blank lines skipped);
  - seeding the catalog from the four mapped files and any extra files;
  - translating a preset into settings through the key and timeframe tables;
  - the `/load_preset/<name>` name resolution: the exact name, then the prefix toggle, then the first case-insensitive match.
- **Store** (module `DbManagement`, class `DbManagement.DBManager`):
  - the retry loop with linear back-off, and session resets on lost connections;
  - settings, preset, signal and status operations;
  - daily-count reset and the preset import;
  - a failed operation leaves the store unchanged.
- **Schema** (module `DbModels`): row defaults, `to_dict`, and the `DATABASE_URL` keep-alive parameter merge.
- **Terminal connector** (module `Mt5`, classes `Mt5.Connector` and `Mt5.Registry`):
  - NUL-terminated JSON framing;
  - chunked reassembly of the reply;
  - the error replies, and disconnection on failure;
  - the per-command wrappers;
  - `test_connection` and the singleton.
- **Notifications** (module `Notifier`):
  - the strength assessment buckets;
  - enable-gating of the e-mail and Telegram senders;
  - the result map of `notify`.

Python's own conversions are parameters of a `Values.Builtins` value, and none
of them is re-implemented:
- `int(s)` and `float(s)`;
- float and container `str`;
- `json.dumps` and `json.loads`;
- UTF-8 encoding and decoding;
- `strftime`.

The laws the proofs need are stated as predicates over that value, and a lemma
that relies on a law takes it as a precondition:
- `Values.IntLaws`: `int` reads back what `str` wrote, and ignores surrounding white space;
- `Values.FloatLaws`: `float` reads back the text of every float it can produce (a value `float` can produce is `Values.Representable`), that text holds no `#`, the integers up to 2^53 read exactly, and surrounding white space is ignored;
- `Values.Faithful`: both of these;
- `Mt5.FramingLaws`: the JSON text is non-empty and holds no NUL, only NUL encodes to a zero byte, and UTF-8 is a homomorphism;
- `Mt5.WireFaithful`: the framing laws, UTF-8 decoding round-trips, and `json.loads` reads back every value whose floats are representable.

The laws only speak of values Python can produce, so they can hold together. `Values.FaithfulSatisfiable` proves this for `Values.Faithful` by building builtins that meet it: these read decimal integers and print a float as its floor (`Values.DecimalIntLaws` and `Values.DecimalFloatLaws` prove the two halves). `Mt5.FramingSatisfiable` does the same for `Mt5.FramingLaws`.

The outside world is also a parameter:
- the store's transient faults are a script `faults: nat -> FaultPlan` giving the errors each operation meets on each attempt;
- the clock is the field `DBManager.now`;
- the socket peer is a `Mt5.Network` script saying which connection attempts succeed and what each exchange does;
- a delivery outcome is a `Notifier.Delivery`;
- the presets directory is a `DbManagement.Directory` value.

Several points where the code behaves differently from what one might expect are modelled as the code has them:
- **Case-insensitive preset fallback** (app.py:531-537): a single pass over the catalog takes the first name equal to `name` or to `strategy_` + `name`, ignoring case. It does not run two passes.
- **Unparseable integer or float in an update** (app.py:202-204, 217-219): the raw text is stored. Reloading it then yields the compiled default, not the previous value (`Coercion.UpdateReadsBack`).
- **Boolean strings**: `update_settings` accepts `checked` (app.py:187), but loading does not (app.py:145).
- **Executing a stored signal in simulation** (app.py:829-837) adds two to the trades-today counter: the status patch sets it to the cached value plus one, then `update_signal_execution` adds one more (`App.SignalBotData.ExecuteStoredSignal`). Executing the same signal again counts again.
- **Stop loss at the entry price** (app.py:815-819): the pip distance is zero, so the lot-size division raises ZeroDivisionError. The route answers with a 500 and writes nothing (`App.SimulationFault`, `App.StopAtEntryRaises`).
- **Telegram and strength**: the Telegram message only formats the strength. A signal whose strength is text therefore reaches Telegram but makes the e-mail's comparison raise (`Notifier.TextStrengthOnlyTelegram`).

## Model

| member | source | states |
|---|---|---|
| DbModels.NewSignal | db_models.py:88-103 | a new signal row is not executed, has no execution time, and is stamped with the current time |
| DbModels.SignalToDict | db_models.py:105-127 | `sentiment` is present exactly for non-empty stored text; undecodable text reads as `{}`; id, symbol, direction, strength, the three prices, reason and executed flag are copied, and the creation time is formatted |
| DbModels.NewBotStatus | db_models.py:132-143 | the status row's column defaults: running, not connected, version "1.0", balance 10000.0, zero counters |
| DbModels.StatusToDict | db_models.py:145-155 | running, connected, bot version, balance and both daily counters are copied, and `last_update` is formatted |
| DbModels.ParamTexts | db_models.py:42 | one `name=value` text per table entry, in order |
| DbModels.CollectParamNames | db_models.py:29-34 | the loop collects the names of exactly the existing parameters that hold `=` |
| DbModels.AppendMissing | db_models.py:36-39 | the loop appends `&name=value` for exactly the table entries whose name is not yet present |
| DbModels.AddConnectionParams | db_models.py:23-42 | the URL rewrite equals the reference merge `MergedUrl` |
| DbModels.NamesOfAppend | db_models.py:30-34 | parameter names of a concatenation are the union of the names |
| DbModels.AppendParamNames | db_models.py:39 | appending one `&name=value` adds exactly that name |
| DbModels.NamesAfterMissing | db_models.py:36-39 | after the merge a name is present iff it was present before or was added from the table |
| DbModels.AddedNamesCover | db_models.py:37-39 | every table name is either already present or added |
| DbModels.NothingMissing | db_models.py:37-39 | when all table names are present nothing is appended |
| DbModels.NamesOfHas | db_models.py:31-34 | the text before `=` of every existing parameter is recorded as a name |
| DbModels.SplitJoin | db_models.py:42 | splitting the `&`-joined parameters gives them back |
| DbModels.QueryParamsPlain | db_models.py:15-21 | the keep-alive table's names and values hold no `&` or `=` |
| DbModels.AllParamsNamed | db_models.py:40-42 | a URL without a query gets every keep-alive parameter |
| DbModels.TableNamed | db_models.py:42 | every entry of a joined table is named in its text |
| DbModels.AfterMerged | db_models.py:25-39 | appending to a URL with a query extends the query |
| DbModels.AfterFresh | db_models.py:40-42 | a URL without `?` gets the query after a new `?` |
| DbModels.MergedQueryIdempotent | db_models.py:25-39 | merging twice into a URL with a query adds nothing the second time |
| DbModels.MergedFreshIdempotent | db_models.py:40-42 | merging twice into a URL without a query adds nothing the second time |
| DbModels.MergedUrlIdempotent | db_models.py:23-42 | running the rewrite on its own output changes nothing, for every URL (absent, non-PostgreSQL or PostgreSQL) |
| DbManagement.LeadingRetryable | db_manager.py:34-37 | the number of leading attempts that fail with an error the loop catches |
| DbManagement.Backoff | db_manager.py:42-44 | the i-th wait is `RETRY_DELAY * (i + 1)` |
| DbManagement.ExecuteWithRetry | db_manager.py:29-52 | the loop's outcome, call count (1 to 3), wait sequence (one fewer than calls) and session resets equal the reference functions |
| DbManagement.FirstSuccessReturned | db_manager.py:34-36 | after fewer than three caught failures the first successful result is returned |
| DbManagement.ForeignErrorPropagates | db_manager.py:35-37 | an error of a kind the loop does not catch propagates at once from the attempt that raised it |
| DbManagement.ThirdFailureRaised | db_manager.py:34-52 | three caught failures raise the last error after three calls and waits of 1 and 2 seconds |
| DbManagement.ResetsNeedLostConnection | db_manager.py:46-48 | a session reset happens iff some retried failure was an OperationalError mentioning a connection |
| DbManagement.TwoTransientFailures | db_manager.py:29-52 | a lost connection then a deadlock: the third call succeeds, with waits 1 and 2 and one reset |
| DbManagement.NoFaultsFirstAttempt | db_manager.py:34-36 | with no fault the first call returns and nothing waits |
| DbManagement.SavedPreset | db_manager.py:167-191 | an upsert sets the parameters; a new row takes the given description, and an existing row keeps its own unless a non-empty one is given |
| DbManagement.UpsertPreset | db_manager.py:167-191 | the catalog invariant is kept; only `name`'s row changes; a new name is listed last |
| DbManagement.Without | db_manager.py:193-211 | removal keeps exactly the other names and keeps them distinct |
| DbManagement.RemovePreset | db_manager.py:193-211 | the row is gone, every other row is unchanged, and the invariant is kept |
| DbManagement.PresetList | db_manager.py:153-165 | `get_all_presets` lists every stored preset with its parameters, in catalog order |
| DbManagement.SignalAt | db_models.py:88-101 | in a valid signal table the i-th row has id i+1 and was created no later than now |
| DbManagement.Chronological | db_models.py:101 | creation times never decrease along the table |
| DbManagement.SignalsLater | db_models.py:101 | advancing the clock keeps the table valid |
| DbManagement.SignalsAppend | db_manager.py:213-250 | appending a row with the next id and the current time keeps the table valid |
| DbManagement.SignalsUpdate | db_manager.py:264-290 | replacing a row with one of the same id and creation time keeps the table valid |
| DbManagement.Newest | db_manager.py:252-262 | `limit(limit)` yields min(limit, count) rows |
| DbManagement.NewestAt | db_manager.py:252-262 | the i-th returned row is the i-th newest |
| DbManagement.NewestFirst | db_manager.py:252-262 | the window is newest first, and no row outside it is newer than a row in it |
| DbManagement.Views | db_manager.py:252-262 | one dictionary per row |
| DbManagement.ViewsAt | db_manager.py:252-262 | each dictionary is that row's `to_dict` |
| DbManagement.SignalFromFields | db_manager.py:213-250 | the saved row takes the required fields as given, missing optional ones as None, sentiment as its JSON text, the next id and the current time |
| DbManagement.MarkExecuted | db_manager.py:264-290 | the flag is set, the execution time is stamped iff executed, and identity and creation time are kept |
| DbManagement.PatchStatus | db_manager.py:306-330 | every assignable key in the patch is written, every other column is kept, and `last_update` becomes now |
| DbManagement.PatchIgnoresOtherNames | db_manager.py:317-319 | keys that are not columns make no difference |
| DbManagement.PatchIdempotent | db_manager.py:306-330 | applying the same patch twice equals applying it once |
| DbManagement.ParseLine | db_manager.py:367-374 | a line counts iff its stripped form is non-empty, does not start with `#` and holds `=`; key and value are the stripped halves around the first `=` |
| DbManagement.ParsePresetLines | db_manager.py:365-374 | the loop builds the reference preset map `PresetOf` |
| DbManagement.PresetOfIsFold | db_manager.py:367-374 | the parse is the fold of the per-line results |
| DbManagement.FoldKeys | db_manager.py:367-374 | a key is defined iff some line defines it |
| DbManagement.FoldLast | db_manager.py:374 | a key holds the value of its last definition |
| DbManagement.PresetKeys | db_manager.py:367-374 | a key is in the parsed preset iff some line parses to that key |
| DbManagement.LastDefinitionWins | db_manager.py:374 | the last line defining a key decides its value |
| DbManagement.Stem | db_manager.py:362 | `splitext` drops `.set` unless every character before it is a dot |
| DbManagement.StemExamples | db_manager.py:362 | `Scalping.set` to `Scalping`, `a.b.set` to `a.b`; `.set` and `...set` are kept whole |
| DbManagement.Lift | db_manager.py:29-52 | an attempt's result is Ok exactly when it succeeded, with the operation's value; otherwise it carries the error |
| DbManagement.CountSignal | db_manager.py:236-240 | saving a signal adds one to the signals-today counter of an existing status and stamps it |
| DbManagement.CountTrade | db_manager.py:274-278 | executing adds one to the trades-today counter of an existing status |
| DbManagement.DBManager.IntrinsicAlwaysRaises | db_manager.py:29-52 | an operation whose own data is at fault raises whatever the transient faults; an error the loop does not catch, such as a KeyError, is raised at the first attempt, before any injected fault |
| DbManagement.DBManager.HealthyReturns | db_manager.py:29-36 | with no transient faults an operation succeeds on its first attempt |
| DbManagement.DBManager.Run | db_manager.py:29-52 | each operation consumes one entry of the fault script and ends with that entry's fate |
| DbManagement.DBManager.Initialize | db_manager.py:21-27 | the tables are created, then a default status row is added iff none exists |
| DbManagement.DBManager.GetSetting | db_manager.py:86-96 | the stored text of the key, or None |
| DbManagement.DBManager.SaveSettings | db_manager.py:98-117 | on success the key maps to the text; on failure the store is unchanged |
| DbManagement.DBManager.DeleteSettings | db_manager.py:119-137 | True and the key removed iff it existed; on failure the store is unchanged |
| DbManagement.DBManager.GetPreset | db_manager.py:139-151 | the preset's parameters, or `{}` for an unknown name |
| DbManagement.DBManager.GetAllPresets | db_manager.py:153-165 | the whole catalog with parameters |
| DbManagement.DBManager.SavePreset | db_manager.py:167-191 | on success the catalog is the upsert; on failure it is unchanged |
| DbManagement.DBManager.DeletePreset | db_manager.py:193-211 | True and the row removed iff it existed; on failure nothing changes |
| DbManagement.DBManager.SaveSignal | db_manager.py:213-250 | a signal missing a required field raises that KeyError at once, whatever the database faults, with nothing stored; otherwise the row is appended with the next id and the status signal counter is incremented |
| DbManagement.DBManager.AppendSignal | db_manager.py:234-243 | appends the row and counts it, keeping the table valid |
| DbManagement.DBManager.GetSignals | db_manager.py:252-262 | the `to_dict` of the newest `limit` rows, newest first |
| DbManagement.DBManager.UpdateSignalExecution | db_manager.py:264-290 | True iff the id exists; then the row is marked and, when executed, the trades counter is incremented; otherwise nothing changes |
| DbManagement.DBManager.GetStatus | db_manager.py:292-304 | the status row's dictionary, or `{}` when there is no row (None here) |
| DbManagement.DBManager.UpdateStatus | db_manager.py:306-330 | a patch the model's column types refuse (`DbManagement.Fits`) is rejected with nothing changed; otherwise the row (created if missing) is patched |
| DbManagement.DBManager.ResetDailyCounts | db_manager.py:332-351 | True iff a status row exists, whose two daily counters become zero |
| DbManagement.DBManager.Imported | db_manager.py:353-380 | the catalog invariant is kept through the import, and operations are only added |
| DbManagement.DBManager.ImportEntry | db_manager.py:361-378 | one `.set` file is parsed and saved under its stem |
| DbManagement.DBManager.ImportPresetsFromFiles | db_manager.py:353-380 | False and no change for a missing directory; otherwise every `.set` entry is imported in listing order |
| Coercion.LoadedOverAll | app.py:122-151 | the loop over all default keys builds the whole loaded map |
| Coercion.LoadedStep | app.py:123-151 | each loop step adds exactly that key's loaded value |
| Coercion.DefaultsTyped | app.py:35-47 | every compiled default has its key's type |
| Coercion.LoadedTyped | app.py:120-154 | the loaded map has exactly the eleven default keys, each of its key's type, whatever the store holds |
| Coercion.CommentIgnored | app.py:126-142 | a stored text is read as its part before the first `#`, stripped |
| Coercion.CutAtComment | app.py:127-128 | cutting at the first `#` and stripping gives the stripped prefix |
| Coercion.PickedGet | app.py:183-219 | each boolean, integer or float key present in the update gets its processed value, and nothing else is picked |
| Coercion.OthersGet | app.py:221-224 | the remaining keys are copied as given |
| Coercion.ProcessedGet | app.py:180-224 | `processed_settings` holds exactly the update's keys, each with its processed value |
| Coercion.SavedLookup | app.py:226-228 | after saving, each processed key stores `str` of its value and every other key is unchanged |
| Coercion.SavedIdempotent | app.py:226-228 | saving the same entries twice equals saving them once |
| Coercion.UpdatedValueIdempotent | app.py:183-219 | processing a processed value changes nothing |
| Coercion.ProcessedIdempotent | app.py:180-224 | processing a processed update changes nothing |
| Coercion.UpdateReadsBack | app.py:120-231 | an updated value reads back on reload when it was converted (a float when `float` landed on a representable value); unparseable numeric text reloads as the default; comment-free text reloads as given |
| Coercion.FlagReadsBack | app.py:143-189 | a saved boolean reloads as itself |
| Coercion.IntReadsBack | app.py:131-204 | under the integer laws alone, a converted integer reloads as itself and unparseable text reloads as the default |
| Coercion.FloatReadsBack | app.py:137-219 | under the float laws alone, a converted float reloads as itself when it came from text, a flag, an integer up to 2^53 or a representable float; unparseable text reloads as the default |
| Coercion.SettingKeysAreDefaults | app.py:35-123 | the keys loaded are exactly the default keys |
| Coercion.SettingsAfterUpdate | app.py:226-231 | after an update a key reloads from its processed value when the update had it, and as before otherwise |
| Coercion.SeedOne | app.py:66-68 | seeding one key saves `str` of its default only where the store lacks it; every stored text stays |
| Coercion.Seeded | app.py:64-68 | after seeding, the keys are the stored ones plus the listed ones; stored texts stay and each missing listed key holds `str` of its default |
| Coercion.SeededStep | app.py:66-68 | seeding one more key is one `SeedOne` step over the keys seeded so far |
| Coercion.DefaultRoundTrip | app.py:64-154 | the text of every default reloads as that default |
| Coercion.TextDefaultsPlain | app.py:35-47 | text defaults hold no `#` |
| Coercion.SeedingKeepsLoad | app.py:64-154 | seeding missing keys does not change what loading yields |
| Coercion.TranslatedGet | app.py:305-334 | a setting is produced iff some mapped preset key is present, with that key's converted value |
| Coercion.PresetSettingsContent | app.py:304-337 | a preset's settings are `strategy_preset` (the preset's name) plus the mapped keys the preset has, and nothing else |
| Coercion.PresetNameStored | app.py:337-340 | loading a preset stores its name as `strategy_preset` |
| Coercion.PresetTargetsDistinct | app.py:263-274 | the mapping's targets are distinct and never `strategy_preset` |
| Coercion.TimeframeTranslated | app.py:277-315 | a known period code becomes its name and any other text is kept, as `.get(value, value)` does; e.g. 16387 becomes H3, while H4 and the unknown 99999 are kept |
| Coercion.CheckBoxesGet | app.py:484-488 | each check-box key becomes True iff the form sent `on`, and False when absent |
| Coercion.FormNumberIdempotent | app.py:491-500 | converting a converted number changes nothing |
| Coercion.NumbersGet | app.py:491-500 | each numeric key becomes a float when it holds `.`, an integer otherwise, and is kept when it does not parse |
| Coercion.FormItemsFirst | app.py:482 | `to_dict()` keeps the first value sent for each field, and a field not sent is absent |
| Coercion.FormFlag | app.py:482-488 | a check box of the settings form is on exactly when the first value sent for it is `on`, and off when it was not sent |
| Coercion.DuplicateFieldFirstWins | app.py:482-488 | a box sent as `on` then `off` is on; a number field sent as 3 then 7 holds 3 |
| Coercion.FormDecimal | app.py:495-496 | a decimal typed first into an integer field arrives as a float, and `update_settings` truncates it toward zero |
| Coercion.IntOfFloat | app.py:200-201 | an integer key given a float stores its truncation |
| Coercion.KeysDisjoint | app.py:484-492 | the boolean and numeric key lists are disjoint, and every integer key is a numeric form field |
| Coercion.FirstCaseMatchSpec | app.py:531-537 | the fallback finds nothing iff no catalog name matches ignoring case; otherwise it finds the first match |
| Coercion.Resolve | app.py:510-541 | the exact name wins, then its other spelling, then the first case-insensitive match; None (the 404) iff none is in the catalog |
| Coercion.AlternativeSwapsBack | app.py:518-525 | toggling the `STRATEGY_` prefix twice gives the name back |
| App.ParsePresetFile | app.py:99-118 | a missing directory or file gives `{}`; otherwise the parse of its lines |
| App.UpsertAllLookup | app.py:80-97 | after a sequence of saves a name holds its last saved parameters, or is unchanged if never saved |
| App.MappedStepSaved | app.py:80-85 | a mapped file with content is saved under both its names |
| App.MappedSavedAt | app.py:80-85 | the last mapping entry naming a preset decides it |
| App.ExtraSkipsMapped | app.py:87-97 | the extra-files pass never saves a mapped name |
| App.MappedFileStored | app.py:70-97 | after seeding, each mapped file with content is stored under its file name with its parsed parameters |
| App.MappingDistinct | app.py:73-78 | the four mapping entries name distinct presets |
| App.PresetNames | app.py:532 | the catalog's names in order |
| App.PresetEntryNamed | app.py:258 | a catalog entry is found iff the name is listed |
| App.WindowIdsKnown | db_manager.py:252-262 | the cached window's ids are the newest ids, counting down from the row count |
| App.Stamped | app.py:159-160 | a signal without `time` gets the current time; every other field is kept |
| App.FindCached | app.py:776-783 | the first cached signal with the id, or none iff no cached signal has it; this is `App.CachedSignal` |
| App.SimulationFault | app.py:786-819 | the simulated sizing raises iff a price `float` rejects, `risk_percent` or the status is missing, the symbol is not text, the risk percentage is not a number, or a non-zero stop loss equals the entry price; the last case is the division by zero |
| App.StopAtEntryRaises | app.py:815-819 | a stop loss of 1.1 at an entry price of 1.1 raises the lot-size division by zero |
| App.ProcessSettings | app.py:180-224 | the processing loop builds the reference `Processed` |
| App.PickKeys | app.py:183-219 | each per-type loop appends the reference picks |
| App.TranslatePreset | app.py:304-337 | the mapping loop builds the reference `PresetSettings` |
| App.CaseMatches | app.py:531-534 | `possible_matches` is empty iff there is no case-insensitive match; its head is the first match, and it holds only matches |
| App.FirstCaseMatchSnoc | app.py:532-534 | one more catalog name changes the first match only when none was found before |
| App.StorableAt | app.py:377-378 | every item of a storable batch is a dictionary with the required fields |
| App.SignalBotData.ReadSetting | app.py:124 | reads the stored text of a key |
| App.SignalBotData.WriteSetting | app.py:228 | saves one setting text |
| App.SignalBotData.WritePreset | app.py:84-85 | saves one preset, with no description |
| App.SignalBotData.StoreSignal | app.py:163 | saves one signal, keeps the cached ids valid, and never clears `connected` |
| App.SignalBotData.RefreshCaches | app.py:165-167 | both caches are refreshed from the store |
| App.SignalBotData.WriteStatus | app.py:249 | patches the status row |
| App.SignalBotData.RefreshSignals | app.py:381 | the signal cache becomes the newest ten |
| App.SignalBotData.RefreshStatus | app.py:252 | the status cache becomes the stored status |
| App.SignalBotData.SeedKey | app.py:66-68 | a key the store lacks gets `str` of its default, and a present key is untouched |
| App.SignalBotData.InitSettings | app.py:64-68 | the store becomes the seeded store |
| App.SignalBotData.SeedKeys | app.py:66-68 | the loop over the keys seeds them in order: the store becomes `Seeded` over them |
| App.SignalBotData.LoadSettingsFromDb | app.py:120-154 | the loop yields the reference `LoadedSettings` of the store |
| App.SignalBotData.RefreshSettings | app.py:53 | the settings cache holds the load |
| App.SignalBotData.RefreshPresets | app.py:58-62 | `self.presets` holds the catalog |
| App.SignalBotData.FillCaches | app.py:53-55 | the settings, signals and status caches agree with the store |
| App.SignalBotData.SeedPresets | app.py:59-62 | the catalog is seeded from the files and re-read |
| App.SignalBotData.LoadPresets | app.py:57-62 | `self.presets` holds the catalog; an empty catalog is seeded from the files, and a non-empty one is untouched |
| App.SignalBotData.LoadCaches | app.py:52-62 | all four caches agree with the store, and the catalog is loaded as `LoadPresets` says |
| App.SignalBotData.Init | app.py:34-62 | missing settings are seeded; the caches agree with the store; an empty catalog is seeded from files, and a non-empty one is untouched |
| App.SignalBotData.SaveMapped | app.py:80-85 | one mapping entry's saves |
| App.SignalBotData.SaveExtra | app.py:89-97 | one extra file's save, skipping mapped names |
| App.SignalBotData.SaveExtras | app.py:88-97 | the saves of all extra files |
| App.SignalBotData.SaveAllMapped | app.py:80-85 | the saves of all four mapping entries |
| App.SignalBotData.SaveMappedPairs | app.py:80-85 | the loop over the pairs saves each in order: the catalog becomes the upsert of their `MappedSaves` |
| App.SignalBotData.InitPresets | app.py:70-97 | the catalog is the upsert of all seeding saves |
| App.SignalBotData.AddSignal | app.py:156-173 | the stamped signal is saved and counted; both caches are refreshed; it is notified iff not simulating; a failure notifies nothing |
| App.SignalBotData.SaveProcessed | app.py:226-228 | saves every processed entry; a failed save leaves the store with a proper prefix of the entries saved, since each save commits on its own |
| App.SignalBotData.UpdateSettings | app.py:175-244 | the store holds the processed update, and the returned settings are the cache and the reload; on an error the cache is unchanged and the store holds some prefix of the processed entries |
| App.SignalBotData.PostSettingsForm | app.py:479-502 | the converted form goes through `update_settings` |
| App.SignalBotData.UpdateStatus | app.py:246-254 | the store's row is patched and the returned status is the refreshed cache |
| App.SignalBotData.LoadPreset | app.py:256-354 | False and nothing changed for an unknown name; otherwise the preset's settings are saved and the cache reloaded |
| App.SignalBotData.LoadPresetRoute | app.py:510-541 | loads the preset `Resolve` picks, or changes nothing and reports the 404 |
| App.SignalBotData.CopyTerminalStatus | app.py:367-371 | a status reply without `error` is copied and `connected` is set; an error reply changes nothing |
| App.SignalBotData.StoreItem | app.py:377-378 | one pulled item is saved as the next row when it is a complete dictionary |
| App.SignalBotData.StorePulled | app.py:373-378 | a storable batch is appended in order |
| App.SignalBotData.SyncWithTerminal | app.py:356-383 | False in simulation with no store access; offline: `connected` cleared and False; online: status copied, `connected` set, a signal batch stored and cached, True |
| App.SignalBotData.RecordExecution | app.py:828-841 | the status row is the patched row (the stored balance is the patch's, the other columns kept) with the trade counted once more; only the executed signal's row changes, marked executed now; both caches are fresh |
| App.SignalBotData.ExecuteStoredSignal | app.py:766-855 | a falsy id is the inline branch; an uncached id is the 404; outside simulation the trade goes live; in simulation a sizing fault is the error reply with nothing written, and otherwise the status row holds the new balance, the trades counter ends two above the cached value and the signal is marked |
| Mt5.FrameShape | mt5_connector.py:80-86 | under the framing laws alone, the frame is the payload plus one zero byte, and the payload is non-empty and NUL-free |
| Mt5.Message | mt5_connector.py:74-78 | the message has exactly `command`, `params` (`{}` when none) and `timestamp` |
| Mt5.UnterminatedKeepsAll | mt5_connector.py:118-131 | with no terminating chunk every byte is kept |
| Mt5.StopsAtTerminator | mt5_connector.py:119-127 | chunks after the terminating one are never read |
| Mt5.ChunkedFrameReassembles | mt5_connector.py:118-131 | any split of a frame into non-empty chunks reassembles to exactly its payload |
| Mt5.Recv | mt5_connector.py:120 | the k-th `recv` returns the k-th chunk, then end of stream or the failure |
| Mt5.ConcatSnoc | mt5_connector.py:131 | joining one more chunk appends it |
| Mt5.ReassembleStep | mt5_connector.py:128-129 | a chunk not ending in 0 is kept whole and reading goes on |
| Mt5.TerminatedAt | mt5_connector.py:121-127 | an empty chunk, or one ending in 0, stops the read |
| Mt5.ReadStops | mt5_connector.py:121-127 | the last chunk read contributes itself without its terminator |
| Mt5.ReadFails | mt5_connector.py:120 | a failing `recv` before the terminator fails the read |
| Mt5.ReceiveResponse | mt5_connector.py:111-131 | the loop yields the reference `ResponseText`: the decoded reassembly, or the failure |
| Mt5.FailureDisconnects | mt5_connector.py:100-109 | the connector drops the connection iff sending or receiving failed, and then replies with an `error`; a timeout gives "Connection timeout" |
| Mt5.UndecodableReply | mt5_connector.py:92-98 | an empty reply gives "Empty response from MT5"; a non-JSON reply gives "Invalid response format" with the text |
| Mt5.ReplyRoundTrip | mt5_connector.py:81-98 | a peer that sends back the frame of a value whose floats are representable, in any non-empty chunks, delivers that value, and the connection stays up |
| Mt5.Connector.constructor | mt5_connector.py:25-32 | starts unconnected with no socket |
| Mt5.Connector.Connect | mt5_connector.py:34-46 | a new socket per attempt; connected iff the peer accepts |
| Mt5.Connector.Disconnect | mt5_connector.py:48-56 | closes the socket if any; never connected afterwards |
| Mt5.Connector.SendCommand | mt5_connector.py:58-109 | unconnected and refused: "Not connected to MT5" with nothing sent; otherwise the message's frame is sent, the reply is the exchange's outcome, and a failure disconnects |
| Mt5.Connector.GetSignals | mt5_connector.py:133-135 | sends `GET_SIGNALS` with no parameters |
| Mt5.Connector.GetStatus | mt5_connector.py:137-139 | sends `GET_STATUS` with no parameters |
| Mt5.Connector.UpdateSettings | mt5_connector.py:141-143 | sends `SET_SETTINGS` with the settings |
| Mt5.Connector.LoadPreset | mt5_connector.py:145-147 | sends `LOAD_PRESET` with `{"preset": name}` |
| Mt5.Connector.TestConnection | mt5_connector.py:149-154 | True iff the peer accepts; the probe socket is closed, and the connector is left unconnected |
| Mt5.Registry.GetConnector | mt5_connector.py:182-186 | the first call creates a connector with the default host, port and timeout; later calls return the same object |
| Mt5.SameConnector | mt5_connector.py:182-186 | two calls return one connector |
| Notifier.StrengthLabel | notifier.py:45-51 | "Very Strong" from 8, "Strong" from 6, "Moderate" from 4, "Low" below, each iff its range |
| Notifier.StrengthLabelMonotone | notifier.py:45-51 | a stronger signal never gets a lower bucket |
| Notifier.EmailAssessment | notifier.py:42-92 | the e-mail's reads succeed iff all eight fields are present and the strength is a number, and yield its bucket |
| Notifier.SendEmail | notifier.py:24-112 | False when e-mail is off; otherwise True iff the signal is complete with a numeric strength and SMTP succeeds |
| Notifier.TelegramReadableFields | notifier.py:130-141 | the Telegram message's reads succeed iff all eight fields are present |
| Notifier.SendTelegram | notifier.py:115-160 | False when Telegram is off; otherwise True iff the signal is complete and the POST succeeds |
| Notifier.TextStrengthOnlyTelegram | notifier.py:46-138 | a strength held as text reaches Telegram but not e-mail |
| Notifier.Notify | notifier.py:163-180 | `email` is present iff e-mail is on and `telegram` iff Telegram is on, each holding its own sender's outcome |
| Notifier.ChannelsIndependent | notifier.py:170-180 | one channel's outcome does not depend on the other channel's delivery |

## Left out

- Flask routes' rendering, redirects, JSON responses and login: HTTP plumbing. Only the route logic of `/settings` (POST), `/load_preset/<name>` and `/api/execute_signal` is modelled.
- `socketio.emit` broadcasts and the socket.io handlers: framework fan-out.
- `mt5_sync_thread`, `time.sleep`, the connector's `threading.Lock` and `subscribe_to_signals`' listener thread: periodic and concurrent execution. The back-off delays are returned as values instead of being slept.
- SQLAlchemy's engine, pool and sessions: the store is in-memory tables.
  - A failed operation leaves them unchanged.
  - `Session.remove()` is only counted.
  - Ids are row positions, so auto-increment gaps after rollbacks are not modelled.
  - `get_all_presets` lists presets in insertion order, which the unordered query does not promise.
  - Ties in `created_at` are broken by position.
- SMTP, the Telegram HTTP API and the message texts: each delivery outcome is a parameter.
- Real sockets: the peer is a script.
  - `sendall` is atomic.
  - Chunk sizes are not bounded by the 4096-byte buffer.
- `datetime.now`, `isoformat` and `strftime`: the store's clock is a field, and timestamps are parameters.
- Python dictionaries whose order matters are item sequences, in which the last entry for a key wins. The settings form is the exception: a field sent several times keeps its first value, as `to_dict()` does, and `Coercion.FormItems` drops the later ones. Aliasing of the caller's dictionary (`add_signal` writes `time` into it) is modelled by returning the stamped copy.
- `simulate_signal`: random test data.
- Seeding the preset catalog from files is modelled. The startup `import_presets_from_files` call is the separate operation `DBManager.ImportPresetsFromFiles`.
- App.SignalBotData.UpdateSettings: the push of the new settings to the terminal outside simulation is not modelled, because its result is only logged.
- App.SignalBotData.LoadPreset: the `LOAD_PRESET` push to the terminal outside simulation is not modelled, for the same reason.
- App.SignalBotData.SyncWithTerminal: the connector's replies are a parameter rather than calls on `Mt5.Connector`, which keeps the two models' state apart.
- App.SignalBotData.ExecuteStoredSignal has these gaps:
  - It stops at the inline-signal branch and the live branch.
    - The live branch calls connector methods (`is_connected`, `get_account_info`, `execute_trade`) that `mt5_connector.py` does not define.
  - The lot-size, commission and balance arithmetic is not modelled: the new balance is a parameter. The exceptions that arithmetic can raise are modelled by `App.SimulationFault`.
  - The exception texts of the 500 reply are the exception's class name, not Python's full message.
- Floating point in general: floats are reals, so NaN and rounding are not modelled.
- `str` of floats and of containers, `int`/`float` parsing, JSON and UTF-8 are not re-implemented. They are parameters, constrained only by the stated laws.
- DbManagement.DBManager.SaveSignal does not type the column values: any non-null value is stored as given. A value the column type refuses, such as strength "abc", is stored by the model, where the database's commit raises. Text the database converts, such as strength "7", reads back as that text rather than as the integer 7. How a value is converted is up to the database backend, which is not part of this model.
- DbManagement.DBManager.UpdateStatus takes its column types from `DbManagement.Fits`, which accepts only the exact Python type. It refuses a `None` that a nullable column would store as NULL, and text the database would convert. The model's status row has no NULL columns.
- DbManagement.Fits: this is the model's type check for status columns, not the database's. It does no type conversion and refuses `Null`.
- DbManagement.PatchStatus ignores an `id` entry of the patch, whereas the source's `setattr` would rewrite the primary key.
- Text.Lower lowers only the ASCII letters and keeps every other character, whereas Python's `str.lower()` covers all of Unicode. So a catalog name like "ÉCLAIR" does not match a request for "éclair".
- Coercion.FirstCaseMatchSpec: a name matches only where the ASCII-lowered texts agree (see Text.Lower).
- Coercion.Resolve: the case-insensitive fallback misses non-ASCII matches that Python finds (see Text.Lower).
- App.CaseMatches: `possible_matches` has the same ASCII-only comparison (see Text.Lower).
- Coercion.UpdatedValue reads flags through Text.Lower too, and so do Coercion.Typed and Coercion.PresetValue. The only non-ASCII character Python lowers into one of the true words is the Kelvin sign U+212A, which becomes `k`. So an update value "CHECKED" written with that sign is true in the source and false in the model.
- Mt5.Connector.Disconnect keeps the old socket reference, as the source does; only the closed set records that it was closed.
- Notifier.SendEmail and Notifier.SendTelegram: logging and traceback output are not modelled.
