/**
 * `SignalBotData` of app.py: the settings, signals and status caches kept in
 * front of the store, the preset catalog it loads, and the routes that resolve a
 * preset name, post the settings form, pull from the terminal and execute a
 * stored signal in simulation mode.
 */
module App {
  import opened Wrappers
  import opened Text
  import opened Values
  import opened DbModels
  import opened DbManagement
  import opened Coercion

  // ---------------------------------------------------------------------------
  // Preset files

  /** The first entry of a directory listing with that file name. */
  function FileIn(entries: seq<(string, FileContent)>, fileName: string): Option<FileContent>
    decreases |entries|
  {
    if entries == [] then None
    else if entries[0].0 == fileName then Some(entries[0].1)
    else FileIn(entries[1..], fileName)
  }

  /** What `_parse_preset_file(name)` returns: the dictionary of `<name>.set`, or `{}`. */
  function PresetFile(dir: Directory, name: string): map<string, string> {
    if dir.Missing? then map[]
    else
      match FileIn(dir.entries, name + ".set")
      case Some(Lines(lines)) => PresetOf(lines)
      case _ => map[]
  }

  /** `_parse_preset_file`: a missing or unreadable file gives `{}`, any other the parse of its lines. */
  method ParsePresetFile(dir: Directory, name: string) returns (data: map<string, string>)
    ensures data == PresetFile(dir, name)
    ensures dir.Missing? ==> data == map[]
    ensures dir.Listing? ==> match FileIn(dir.entries, name + ".set")
                             case Some(Lines(lines)) => data == PresetOf(lines)
                             case _ => data == map[]
  {
    data := map[];
    if dir.Listing? {
      var file := FileIn(dir.entries, name + ".set");
      if file.Some? && file.value.Lines? {
        data := ParsePresetLines(file.value.lines);
      }
    }
  }

  /** The preset files `_init_presets` stores under two names. */
  const PresetMapping: seq<(string, string)> := [
    ("TrendFollowing", "STRATEGY_TREND_FOLLOWING"),
    ("SwingTrading", "STRATEGY_SWING_TRADING"),
    ("Scalping", "STRATEGY_SCALPING"),
    ("Reversal", "STRATEGY_REVERSAL")]

  const MappedFiles: set<string> := {"TrendFollowing", "SwingTrading", "Scalping", "Reversal"}

  /** One `save_preset(name, data)` call. */
  type Save = (string, map<string, string>)

  /** The saves of one step of the first loop of `_init_presets`: both names of a non-empty mapped file. */
  function MappedStep(dir: Directory, pair: (string, string)): seq<Save> {
    var data := PresetFile(dir, pair.0);
    if data == map[] then [] else [(pair.0, data), (pair.1, data)]
  }

  /** The saves of the whole first loop. */
  function MappedSaves(dir: Directory, mapping: seq<(string, string)>): seq<Save>
    decreases |mapping|
  {
    if mapping == [] then [] else MappedSaves(dir, mapping[..|mapping| - 1]) + MappedStep(dir, mapping[|mapping| - 1])
  }

  /** The save of one step of the second loop: a non-empty `.set` file outside the mapping, under its stem. */
  function ExtraStep(dir: Directory, fileName: string): seq<Save> {
    if EndsWith(fileName, ".set") && Stem(fileName) !in MappedFiles && PresetFile(dir, Stem(fileName)) != map[]
    then [(Stem(fileName), PresetFile(dir, Stem(fileName)))] else []
  }

  /** The saves of the whole second loop. */
  function ExtraSaves(dir: Directory, entries: seq<(string, FileContent)>): seq<Save>
    decreases |entries|
  {
    if entries == [] then [] else ExtraSaves(dir, entries[..|entries| - 1]) + ExtraStep(dir, entries[|entries| - 1].0)
  }

  /** The catalog after each save in turn, none with a description. */
  function UpsertAll(c: Catalog, saves: seq<Save>): Catalog
    decreases |saves|
  {
    if saves == [] then c
    else
      var last := saves[|saves| - 1];
      UpsertPreset(UpsertAll(c, saves[..|saves| - 1]), last.0, last.1, None)
  }

  lemma UpsertAllSnoc(c: Catalog, saves: seq<Save>, s: Save)
    ensures UpsertAll(c, saves + [s]) == UpsertPreset(UpsertAll(c, saves), s.0, s.1, None)
  {
    assert (saves + [s])[..|saves|] == saves;
  }

  /** The parameters the last save for `name` stored, if any. */
  function LastSaved(saves: seq<Save>, name: string): Option<map<string, string>>
    decreases |saves|
  {
    if saves == [] then None
    else if saves[|saves| - 1].0 == name then Some(saves[|saves| - 1].1)
    else LastSaved(saves[..|saves| - 1], name)
  }

  /** After the saves, a saved name holds its last parameters and every other entry is untouched. */
  lemma {:induction false} UpsertAllLookup(c: Catalog, saves: seq<Save>, name: string)
    ensures LastSaved(saves, name).Some? ==>
              name in UpsertAll(c, saves).rows && UpsertAll(c, saves).rows[name].parameters == LastSaved(saves, name).value
    ensures LastSaved(saves, name).None? ==> Lookup(UpsertAll(c, saves).rows, name) == Lookup(c.rows, name)
    decreases |saves|
  {
    if saves != [] {
      UpsertAllLookup(c, saves[..|saves| - 1], name);
    }
  }

  /** What one step saves under `name`. */
  lemma MappedStepSaved(dir: Directory, pair: (string, string), name: string)
    ensures LastSaved(MappedStep(dir, pair), name) ==
              if (name == pair.0 || name == pair.1) && PresetFile(dir, pair.0) != map[] then Some(PresetFile(dir, pair.0)) else None
  {
    var step := MappedStep(dir, pair);
    var data := PresetFile(dir, pair.0);
    if data != map[] {
      assert step[..1] == [(pair.0, data)];
      assert step[..1][..0] == [];
      assert LastSaved(step[..1], name) == if pair.0 == name then Some(data) else None;
    }
  }

  /** A non-empty mapped file is saved under either of its names when no later pair reuses that name. */
  lemma {:induction false} MappedSavedAt(dir: Directory, mapping: seq<(string, string)>, i: nat, name: string)
    requires i < |mapping| && PresetFile(dir, mapping[i].0) != map[]
    requires name == mapping[i].0 || name == mapping[i].1
    requires forall j :: i < j < |mapping| ==> mapping[j].0 != name && mapping[j].1 != name
    ensures LastSaved(MappedSaves(dir, mapping), name) == Some(PresetFile(dir, mapping[i].0))
    decreases |mapping|
  {
    var init := mapping[..|mapping| - 1];
    var tail := MappedStep(dir, mapping[|mapping| - 1]);
    assert MappedSaves(dir, mapping) == MappedSaves(dir, init) + tail;
    LastSavedAppend(MappedSaves(dir, init), tail, name);
    MappedStepSaved(dir, mapping[|mapping| - 1], name);
    if i < |mapping| - 1 {
      assert LastSaved(tail, name) == None;
      assert init[i] == mapping[i];
      assert forall j :: i < j < |init| ==> init[j] == mapping[j];
      MappedSavedAt(dir, init, i, name);
    }
  }

  lemma {:induction false} LastSavedAppend(a: seq<Save>, b: seq<Save>, name: string)
    ensures LastSaved(a + b, name) == if LastSaved(b, name).Some? then LastSaved(b, name) else LastSaved(a, name)
    decreases |b|
  {
    if b == [] {
      assert a + b == a;
    } else {
      assert (a + b)[..|a + b| - 1] == a + b[..|b| - 1];
      LastSavedAppend(a, b[..|b| - 1], name);
    }
  }

  /** The second loop never saves under a name of the mapping's files. */
  lemma {:induction false} ExtraSkipsMapped(dir: Directory, entries: seq<(string, FileContent)>, name: string)
    requires name in MappedFiles
    ensures LastSaved(ExtraSaves(dir, entries), name) == None
    decreases |entries|
  {
    if entries != [] {
      var init := entries[..|entries| - 1];
      var tail := ExtraStep(dir, entries[|entries| - 1].0);
      ExtraSkipsMapped(dir, init, name);
      LastSavedAppend(ExtraSaves(dir, init), tail, name);
    }
  }

  /** Whatever else the directory holds, a non-empty mapped file ends up stored under its own name. */
  lemma MappedFileStored(c: Catalog, dir: Directory, i: nat)
    requires i < |PresetMapping| && PresetFile(dir, PresetMapping[i].0) != map[]
    ensures var saves := MappedSaves(dir, PresetMapping) + (if dir.Listing? then ExtraSaves(dir, dir.entries) else []);
            var name := PresetMapping[i].0;
            name in UpsertAll(c, saves).rows && UpsertAll(c, saves).rows[name].parameters == PresetFile(dir, name)
  {
    var mapped := MappedSaves(dir, PresetMapping);
    var extra := if dir.Listing? then ExtraSaves(dir, dir.entries) else [];
    var name := PresetMapping[i].0;
    MappingDistinct(i);
    MappedSavedAt(dir, PresetMapping, i, name);
    if dir.Listing? {
      ExtraSkipsMapped(dir, dir.entries, name);
    }
    LastSavedAppend(mapped, extra, name);
    UpsertAllLookup(c, mapped + extra, name);
  }

  lemma MappingDistinct(i: nat)
    requires i < |PresetMapping|
    ensures PresetMapping[i].0 in MappedFiles
    ensures forall j :: i < j < |PresetMapping| ==> PresetMapping[j].0 != PresetMapping[i].0 && PresetMapping[j].1 != PresetMapping[i].0
    ensures forall j :: i < j < |PresetMapping| ==> PresetMapping[j].0 != PresetMapping[i].1 && PresetMapping[j].1 != PresetMapping[i].1
  {
  }

  // ---------------------------------------------------------------------------
  // Values the routes and the cache work with

  /** `self.presets[name]`, read from the list of `(name, parameters)` pairs. */
  function PresetEntry(presets: seq<(string, map<string, string>)>, name: string): Option<map<string, string>>
    decreases |presets|
  {
    if presets == [] then None
    else if presets[|presets| - 1].0 == name then Some(presets[|presets| - 1].1)
    else PresetEntry(presets[..|presets| - 1], name)
  }

  /** `self.presets.keys()` */
  function PresetNames(presets: seq<(string, map<string, string>)>): (names: seq<string>)
    ensures |names| == |presets| && forall i :: 0 <= i < |presets| ==> names[i] == presets[i].0
    decreases |presets|
  {
    if presets == [] then [] else PresetNames(presets[..|presets| - 1]) + [presets[|presets| - 1].0]
  }

  /** `preset_name in self.presets` holds exactly for the listed names. */
  lemma {:induction false} PresetEntryNamed(presets: seq<(string, map<string, string>)>, name: string)
    ensures PresetEntry(presets, name).Some? <==> name in PresetNames(presets)
    decreases |presets|
  {
    if presets != [] {
      var init := presets[..|presets| - 1];
      PresetEntryNamed(init, name);
      assert PresetNames(presets) == PresetNames(init) + [presets[|presets| - 1].0];
    }
  }

  /** Every signal id in a cache is the id of a stored row. */
  predicate CachedIdsKnown(views: seq<SignalView>, count: nat) {
    forall i :: 0 <= i < |views| ==> 1 <= views[i].id <= count
  }

  /** The newest-first window shows only ids of stored rows. */
  lemma WindowIdsKnown(rows: seq<SignalRow>, limit: nat, now: Time, rt: Builtins)
    requires SignalsOk(rows, now)
    ensures CachedIdsKnown(Views(Newest(rows, limit), rt), |rows|)
  {
    var w := Newest(rows, limit);
    forall i | 0 <= i < |w|
      ensures Views(w, rt)[i].id == |rows| - i
    {
      NewestAt(rows, limit, i);
      ViewsAt(w, rt, i);
      SignalAt(rows, now, |rows| - 1 - i);
    }
  }

  /** The signal dictionary with `time` set to `stamp` when the caller gave none. */
  function Stamped(signal: Items, stamp: string): (r: Items)
    ensures Get(signal, "time").Some? ==> r == signal
    ensures Get(r, "time") == if Get(signal, "time").Some? then Get(signal, "time") else Some(Str(stamp))
    ensures forall k :: k != "time" ==> Get(r, k) == Get(signal, k)
  {
    if Get(signal, "time").Some? then signal
    else
      GetAppendAll(signal, [("time", Str(stamp))]);
      signal + [("time", Str(stamp))]
  }

  /** The first view with that id. */
  function CachedSignal(views: seq<SignalView>, id: int): Option<SignalView>
    decreases |views|
  {
    if views == [] then None
    else if views[0].id == id then Some(views[0])
    else CachedSignal(views[1..], id)
  }

  /** The first cached signal with that id, as the loop of `/api/execute_signal` finds it. */
  method FindCached(views: seq<SignalView>, id: int) returns (found: Option<SignalView>)
    ensures found.None? <==> forall i :: 0 <= i < |views| ==> views[i].id != id
    ensures found.Some? ==> exists i :: 0 <= i < |views| && views[i] == found.value && found.value.id == id
                                          && forall j :: 0 <= j < i ==> views[j].id != id
    ensures found == CachedSignal(views, id)
  {
    found := None;
    var i := 0;
    while i < |views|
      invariant 0 <= i <= |views|
      invariant forall j :: 0 <= j < i ==> views[j].id != id
      invariant CachedSignal(views[i..], id) == CachedSignal(views, id)
    {
      assert views[i..][1..] == views[i + 1..];
      if views[i].id == id {
        found := Some(views[i]);
        return;
      }
      i := i + 1;
    }
  }

  /** The `processed_settings` loops of `update_settings`: flags, integers, the float, then the rest. */
  method ProcessSettings(update: Items, rt: Builtins) returns (processed: Items)
    ensures processed == Processed(update, rt)
  {
    processed := PickKeys(update, BoolKeys, rt, []);
    assert processed == Picked(update, BoolKeys, rt);
    processed := PickKeys(update, IntKeys, rt, processed);
    processed := PickKeys(update, FloatKeys, rt, processed);
    ghost var picked := processed;
    var i := 0;
    while i < |update|
      invariant 0 <= i <= |update|
      invariant processed == picked + Others(update[..i])
    {
      assert update[..i + 1][..i] == update[..i];
      assert update[..i + 1][i] == update[i];
      // A key is already in `processed_settings` exactly when it is a typed setting the update holds.
      if KindOf(update[i].0) == TextSetting {
        processed := processed + [update[i]];
      }
      i := i + 1;
    }
    assert update[..i] == update;
  }

  /** One of the three key loops: the cleaned value of each listed key the update holds. */
  method PickKeys(update: Items, keys: seq<string>, rt: Builtins, acc: Items) returns (r: Items)
    ensures r == acc + Picked(update, keys, rt)
  {
    r := acc;
    var i := 0;
    while i < |keys|
      invariant 0 <= i <= |keys|
      invariant r == acc + Picked(update, keys[..i], rt)
    {
      assert keys[..i + 1][..i] == keys[..i];
      var k := keys[i];
      var v := Get(update, k);
      if v.Some? {
        r := r + [(k, UpdatedValue(k, v.value, rt))];
      }
      i := i + 1;
    }
    assert keys[..i] == keys;
  }

  /** The `new_settings` loop of `load_preset` over the parameter table, then the preset's name. */
  method TranslatePreset(params: map<string, string>, name: string, rt: Builtins) returns (settings: Items)
    ensures settings == PresetSettings(params, name, rt)
  {
    settings := [];
    var i := 0;
    while i < |PresetKeyMap|
      invariant 0 <= i <= |PresetKeyMap|
      invariant settings == Translated(params, PresetKeyMap[..i], rt)
    {
      assert PresetKeyMap[..i + 1][..i] == PresetKeyMap[..i];
      var presetKey := PresetKeyMap[i].0;
      var ourKey := PresetKeyMap[i].1;
      if presetKey in params {
        settings := settings + [(ourKey, PresetValue(presetKey, params[presetKey], rt))];
      }
      i := i + 1;
    }
    assert PresetKeyMap[..i] == PresetKeyMap;
    settings := settings + [("strategy_preset", Str(name))];
  }

  /** The loop of `/load_preset` that collects the presets matching the name ignoring case. */
  method CaseMatches(names: seq<string>, name: string) returns (matches: seq<string>)
    ensures matches == [] <==> FirstCaseMatch(names, name).None?
    ensures matches != [] ==> matches[0] == FirstCaseMatch(names, name).value
    ensures forall m :: m in matches ==> m in names && CaseMatch(m, name)
  {
    matches := [];
    var i := 0;
    while i < |names|
      invariant 0 <= i <= |names|
      invariant matches == [] <==> FirstCaseMatch(names[..i], name).None?
      invariant matches != [] ==> matches[0] == FirstCaseMatch(names[..i], name).value
      invariant forall m :: m in matches ==> m in names[..i] && CaseMatch(m, name)
    {
      FirstCaseMatchSnoc(names[..i], names[i], name);
      assert names[..i + 1] == names[..i] + [names[i]];
      if CaseMatch(names[i], name) {
        matches := matches + [names[i]];
      }
      i := i + 1;
    }
    assert names[..i] == names;
  }

  lemma {:induction false} FirstCaseMatchSnoc(names: seq<string>, x: string, name: string)
    ensures FirstCaseMatch(names + [x], name) ==
              if FirstCaseMatch(names, name).Some? then FirstCaseMatch(names, name)
              else if CaseMatch(x, name) then Some(x) else None
    decreases |names|
  {
    if names == [] {
      assert [] + [x] == [x];
      assert [x][1..] == [];
    } else {
      assert (names + [x])[0] == names[0];
      assert (names + [x])[1..] == names[1..] + [x];
      FirstCaseMatchSnoc(names[1..], x, name);
    }
  }

  /** A reply of the terminal: its dictionaries for `get_status` and `get_signals`. */
  datatype TerminalLink = Offline | Online(statusReply: map<string, Value>, signalsReply: map<string, Value>)

  /** The items `for signal in reply["signals"]` visits; None where the loop raises TypeError on its first step. */
  function SignalBatch(v: Value): Option<seq<Value>> {
    match v
    case List(items) => Some(items)
    case Str(s) => if s == "" then Some([]) else None
    case Dict(m) => if m == map[] then Some([]) else None
    case _ => None
  }

  /** `sync_with_mt5` stores signals and reads the cache again only for a reply with no error and a "signals" entry. */
  predicate Pulls(reply: map<string, Value>) {
    "error" !in reply && "signals" in reply
  }

  /** The rows `save_signal` appends for a batch of dictionaries, the first with id `first`. */
  function BatchRows(batch: seq<Value>, first: nat, now: Time, rt: Builtins): seq<SignalRow>
    decreases |batch|
  {
    if batch == [] then []
    else
      var last := batch[|batch| - 1];
      BatchRows(batch[..|batch| - 1], first, now, rt) +
        (if last.Dict? && SignalFault(last.entries).None?
         then [SignalFrom(last.entries, first + |batch| - 1, now, rt)] else [])
  }

  lemma BatchRowsSnoc(batch: seq<Value>, i: nat, first: nat, now: Time, rt: Builtins)
    requires i < |batch|
    ensures BatchRows(batch[..i + 1], first, now, rt) ==
              BatchRows(batch[..i], first, now, rt) +
                (if batch[i].Dict? && SignalFault(batch[i].entries).None? then [SignalFrom(batch[i].entries, first + i, now, rt)] else [])
  {
    assert batch[..i + 1][..i] == batch[..i];
  }

  /** A batch every item of which `save_signal` accepts. */
  predicate Storable(batch: seq<Value>)
    decreases |batch|
  {
    batch == [] ||
    (&& batch[|batch| - 1].Dict? && SignalFault(batch[|batch| - 1].entries).None?
     && Storable(batch[..|batch| - 1]))
  }

  lemma {:induction false} StorableAt(batch: seq<Value>, i: nat)
    requires Storable(batch) && i < |batch|
    ensures batch[i].Dict? && SignalFault(batch[i].entries).None?
    decreases |batch|
  {
    if i + 1 < |batch| {
      StorableAt(batch[..|batch| - 1], i);
    }
  }

  /** One more stored item extends the rows by the next one of the batch. */
  lemma BatchStep(start: seq<SignalRow>, before: seq<SignalRow>, after: seq<SignalRow>, batch: seq<Value>, i: nat, now: Time, rt: Builtins)
    requires i < |batch| && batch[i].Dict? && SignalFault(batch[i].entries).None?
    requires before == start + BatchRows(batch[..i], |start| + 1, now, rt) && |before| == |start| + i
    requires after == before + [SignalFrom(batch[i].entries, |before| + 1, now, rt)]
    ensures after == start + BatchRows(batch[..i + 1], |start| + 1, now, rt)
  {
    BatchRowsSnoc(batch, i, |start| + 1, now, rt);
  }

  lemma StorableSnoc(batch: seq<Value>, i: nat)
    requires i < |batch| && Storable(batch[..i]) && batch[i].Dict? && SignalFault(batch[i].entries).None?
    ensures Storable(batch[..i + 1])
  {
    assert batch[..i + 1][..i] == batch[..i];
  }

  /** `float(v)`; None where it raises. */
  function PyFloat(v: Value, rt: Builtins): Option<real> {
    if v.Str? then rt.parseFloat(v.s) else PyFloatOf(v)
  }

  /** What `float(v)` raises when it fails. */
  function FloatError(v: Value): DbError {
    if v.Str? then OtherError("ValueError") else OtherError("TypeError")
  }

  /** The stop loss the simulated sizing divides by: truthy, and as a float non-zero. */
  predicate ActiveStop(view: SignalView, rt: Builtins) {
    Truthy(view.stopLoss) && PyFloat(view.stopLoss, rt).Some? && PyFloat(view.stopLoss, rt).value != 0.0
  }

  const ZeroDivision: DbError := OtherError("ZeroDivisionError: float division by zero")

  /**
   * The exception the simulated execution of a cached signal raises before it
   * writes anything, in the order the route meets them: a price `float`
   * rejects, no `risk_percent` setting, no status (`{}`), a symbol without
   * `endswith`, a risk percentage that cannot be divided by 100, and a stop
   * loss at the entry price, whose zero pip distance makes the lot-size
   * division divide by zero.
   */
  function SimulationFault(view: SignalView, settings: map<string, Value>, status: Option<StatusView>, rt: Builtins)
    : (fault: Option<DbError>)
    ensures fault.None? ==> status.Some? && "risk_percent" in settings
    ensures fault.None? <==>
              && PyFloat(view.entryPrice, rt).Some?
              && (Truthy(view.stopLoss) ==> PyFloat(view.stopLoss, rt).Some?)
              && (Truthy(view.takeProfit) ==> PyFloat(view.takeProfit, rt).Some?)
              && "risk_percent" in settings && status.Some? && view.symbol.Str?
              && PyFloatOf(settings["risk_percent"]).Some?
              && !(ActiveStop(view, rt) && PyFloat(view.stopLoss, rt) == PyFloat(view.entryPrice, rt))
    ensures (&& ActiveStop(view, rt) && PyFloat(view.stopLoss, rt) == PyFloat(view.entryPrice, rt)
             && (Truthy(view.takeProfit) ==> PyFloat(view.takeProfit, rt).Some?)
             && "risk_percent" in settings && status.Some? && view.symbol.Str?
             && PyFloatOf(settings["risk_percent"]).Some?) ==> fault == Some(ZeroDivision)
  {
    if PyFloat(view.entryPrice, rt).None? then Some(FloatError(view.entryPrice))
    else if Truthy(view.stopLoss) && PyFloat(view.stopLoss, rt).None? then Some(FloatError(view.stopLoss))
    else if Truthy(view.takeProfit) && PyFloat(view.takeProfit, rt).None? then Some(FloatError(view.takeProfit))
    else if "risk_percent" !in settings then Some(OtherError("KeyError: 'risk_percent'"))
    else if status.None? then Some(OtherError("KeyError: 'account_balance'"))
    else if !view.symbol.Str? then Some(OtherError("AttributeError"))
    else if PyFloatOf(settings["risk_percent"]).None? then Some(OtherError("TypeError"))
    else if ActiveStop(view, rt) && PyFloat(view.stopLoss, rt) == PyFloat(view.entryPrice, rt) then Some(ZeroDivision)
    else None
  }

  /** A stop loss equal to the entry price, both 1.1, raises instead of executing. */
  lemma StopAtEntryRaises(view: SignalView, settings: map<string, Value>, status: Option<StatusView>, rt: Builtins)
    requires view.entryPrice == Float(1.1) && view.stopLoss == Float(1.1) && view.takeProfit == Null
    requires view.symbol == Str("EURUSD") && settings == map["risk_percent" := Float(1.0)] && status.Some?
    ensures SimulationFault(view, settings, status, rt) == Some(ZeroDivision)
  {
  }

  /** How `/api/execute_signal` ends for a stored signal id. */
  datatype ExecReply =
    | Executed(symbol: Value, direction: Value, newBalance: real)
    | NotFound       // 404: no cached signal has the id
    | InlineSignal   // a falsy id: the request describes its own signal, which this model does not execute
    | Live           // outside simulation: the trade goes to the terminal, which this model does not execute

  const SignalWindow: nat := 10

  // ---------------------------------------------------------------------------
  // The facade

  /** `SignalBotData`: the caches in front of the store, and the preset catalog read from it. */
  class SignalBotData {
    const db: DBManager
    /** `SIMULATION_MODE` */
    const simulation: bool
    var settingsCache: map<string, Value>
    var signalsCache: seq<SignalView>
    var statusCache: Option<StatusView>
    var presets: seq<(string, map<string, string>)>
    /** The signals handed to `SignalNotifier.notify`, oldest first. */
    var notified: seq<Items>

    ghost predicate Valid()
      reads this`signalsCache, db`presets, db`signals, db`now
    {
      db.Valid() && CachedIdsKnown(signalsCache, |db.signals|)
    }

    /** `self._settings_cache` holds what a load from the store gives. */
    ghost predicate SettingsFresh()
      reads this`settingsCache, db`settings
    {
      settingsCache == LoadedSettings(db.settings, db.rt)
    }

    /** `self._signals_cache` holds the newest window of stored signals. */
    ghost predicate SignalsFresh()
      reads this`signalsCache, db`signals
    {
      signalsCache == Views(Newest(db.signals, SignalWindow), db.rt)
    }

    /** `self._status_cache` holds the stored status. */
    ghost predicate StatusFresh()
      reads this`statusCache, db`status
    {
      statusCache == StatusDict(db.status, db.rt)
    }

    /** `self.presets` holds the stored catalog. */
    ghost predicate PresetsFresh()
      reads this`presets, db`presets
    {
      presets == PresetList(db.presets)
    }

    /** All four caches agree with the store. */
    ghost predicate CachesFresh()
      reads this`settingsCache, this`signalsCache, this`statusCache, this`presets, db`settings, db`signals, db`status, db`presets
    {
      SettingsFresh() && SignalsFresh() && StatusFresh() && PresetsFresh()
    }

    /**
     * The catalog after the preset part of `__init__`, from the catalog
     * `before` it: kept when it lists something, seeded from the files when empty.
     */
    ghost predicate PresetsLoaded(before: Catalog, dir: Directory)
      reads db`presets
    {
      && (PresetList(before) != [] ==> db.presets == before)
      && (PresetList(before) == [] ==> db.presets == UpsertAll(before, InitSaves(dir)))
    }

    /** The object before `__init__` has filled its caches. */
    constructor(db: DBManager, simulation: bool)
      requires db.Valid()
      ensures Valid() && this.db == db && this.simulation == simulation
      ensures settingsCache == map[] && signalsCache == [] && statusCache == None && presets == [] && notified == []
    {
      this.db := db;
      this.simulation := simulation;
      settingsCache := map[];
      signalsCache := [];
      statusCache := None;
      presets := [];
      notified := [];
    }

    // The store calls the facade makes, each with what the caller needs of it.

    /** `db_manager.get_settings(key)` */
    method ReadSetting(key: string) returns (r: Result<Option<string>, DbError>)
      modifies db`ops
      ensures old(db.Healthy()) ==> db.Healthy() && r.Ok?
      ensures r.Ok? ==> r.value == Lookup(db.settings, key)
    {
      r := db.GetSetting(key);
    }

    /** `db_manager.save_settings(key, text)` */
    method WriteSetting(key: string, text: string) returns (r: Result<bool, DbError>)
      modifies db`ops, db`settings
      ensures old(db.Healthy()) ==> db.Healthy() && r.Ok?
      ensures db.settings == if r.Ok? then old(db.settings)[key := text] else old(db.settings)
    {
      r := db.SaveSettings(key, text);
    }

    /** `db_manager.save_preset(name, data)` */
    method WritePreset(name: string, data: map<string, string>) returns (r: Result<bool, DbError>)
      requires db.Valid()
      modifies db`ops, db`presets
      ensures db.Valid()
      ensures old(db.Healthy()) ==> db.Healthy() && r.Ok?
      ensures db.presets == if r.Ok? then UpsertPreset(old(db.presets), name, data, None) else old(db.presets)
    {
      r := db.SavePreset(name, data, None);
    }

    /** `db_manager.save_signal(data)` */
    method StoreSignal(data: map<string, Value>) returns (r: Result<nat, DbError>)
      requires Valid()
      modifies db`ops, db`signals, db`status
      ensures Valid()
      ensures old(db.Healthy()) ==> db.Healthy()
      ensures old(db.Healthy()) && SignalFault(data).None? ==> r.Ok?
      ensures r.Ok? ==> && SignalFault(data).None?
                        && db.signals == old(db.signals) + [SignalFrom(data, |old(db.signals)| + 1, db.now, db.rt)]
                        && db.status == CountSignal(old(db.status), db.now)
      ensures r.Err? ==> db.signals == old(db.signals) && db.status == old(db.status)
      ensures old(db.status).Some? && old(db.status).value.connected ==> db.status.Some? && db.status.value.connected
    {
      r := db.SaveSignal(data);
    }

    /** `self._signals_cache` and `self._status_cache`, both read again. */
    method RefreshCaches() returns (r: Result<bool, DbError>)
      requires Valid()
      modifies this`signalsCache, this`statusCache, db`ops
      ensures Valid()
      ensures old(db.Healthy()) ==> db.Healthy() && r.Ok?
      ensures r.Ok? ==> signalsCache == Views(Newest(db.signals, SignalWindow), db.rt) && StatusFresh()
    {
      r := RefreshSignals();
      if r.Ok? {
        r := RefreshStatus();
      }
    }

    /** `db_manager.update_status(patch)` */
    method WriteStatus(patch: map<string, Value>) returns (r: Result<bool, DbError>)
      modifies db`ops, db`status
      ensures old(db.Healthy()) ==> db.Healthy()
      ensures old(db.Healthy()) && !PatchRejected(patch) ==> r.Ok?
      ensures db.status == if r.Ok? then Some(PatchStatus(old(db.status).GetOr(NewBotStatus(db.now)), patch, db.now))
                           else old(db.status)
    {
      r := db.UpdateStatus(patch);
    }

    /** `self._signals_cache = db_manager.get_signals(10)` */
    method RefreshSignals() returns (r: Result<bool, DbError>)
      requires Valid()
      modifies this`signalsCache, db`ops
      ensures Valid()
      ensures old(db.Healthy()) ==> db.Healthy() && r.Ok?
      ensures signalsCache == if r.Ok? then Views(Newest(db.signals, SignalWindow), db.rt) else old(signalsCache)
    {
      var window := db.GetSignals(SignalWindow);
      if window.Err? {
        return Err(window.error);
      }
      WindowIdsKnown(db.signals, SignalWindow, db.now, db.rt);
      signalsCache := window.value;
      r := Ok(true);
    }

    /** `self._status_cache = db_manager.get_status()` */
    method RefreshStatus() returns (r: Result<bool, DbError>)
      modifies this`statusCache, db`ops
      ensures old(db.Healthy()) ==> db.Healthy() && r.Ok?
      ensures statusCache == if r.Ok? then StatusDict(db.status, db.rt) else old(statusCache)
    {
      var status := db.GetStatus();
      if status.Err? {
        return Err(status.error);
      }
      statusCache := status.value;
      r := Ok(true);
    }

    // The facade's own operations.

    /** One step of `_init_settings`: the default's text goes in when the key is missing. */
    method SeedKey(key: string) returns (r: Result<bool, DbError>)
      requires key in Defaults
      modifies db`ops, db`settings
      ensures old(db.Healthy()) ==> db.Healthy() && r.Ok?
      ensures r.Ok? ==> db.settings == SeedOne(old(db.settings), key, db.rt)
    {
      var got := ReadSetting(key);
      if got.Err? {
        return Err(got.error);
      }
      if got.value.None? {
        r := WriteSetting(key, PyStr(Defaults[key], db.rt));
      } else {
        r := Ok(true);
      }
    }

    /** `_init_settings`: stores the text of each default whose key the store lacks. */
    method InitSettings() returns (r: Result<bool, DbError>)
      modifies db`ops, db`settings
      ensures old(db.Healthy()) ==> db.Healthy() && r.Ok?
      ensures SettingKeysAreDefaultKeys() && (r.Ok? ==> db.settings == Seeded(old(db.settings), SettingKeys, db.rt))
    {
      SettingKeysAreDefaults();
      r := SeedKeys(SettingKeys);
    }

    /** The loop of `_init_settings` over the keys `keys`, in order. */
    method SeedKeys(keys: seq<string>) returns (r: Result<bool, DbError>)
      requires forall k :: k in keys ==> k in Defaults
      modifies db`ops, db`settings
      ensures old(db.Healthy()) ==> db.Healthy() && r.Ok?
      ensures r.Ok? ==> db.settings == Seeded(old(db.settings), keys, db.rt)
    {
      var i := 0;
      while i < |keys|
        invariant 0 <= i <= |keys|
        invariant forall k :: k in keys[..i] ==> k in Defaults
        invariant db.settings == Seeded(old(db.settings), keys[..i], db.rt)
        invariant old(db.Healthy()) ==> db.Healthy()
      {
        SeededStep(old(db.settings), keys, i, db.rt);
        var seeded := SeedKey(keys[i]);
        if seeded.Err? {
          return Err(seeded.error);
        }
        i := i + 1;
      }
      assert keys[..i] == keys;
      r := Ok(true);
    }

    /** `_load_settings_from_db`: one read per known key, each typed with its fallback. */
    method LoadSettingsFromDb() returns (r: Result<map<string, Value>, DbError>)
      modifies db`ops
      ensures old(db.Healthy()) ==> db.Healthy() && r.Ok?
      ensures r.Ok? ==> r.value == LoadedSettings(db.settings, db.rt)
    {
      SettingKeysAreDefaults();
      var settings: map<string, Value> := map[];
      var i := 0;
      while i < |SettingKeys|
        invariant 0 <= i <= |SettingKeys|
        invariant forall k :: k in SettingKeys[..i] ==> k in Defaults
        invariant settings == LoadedOver(db.settings, SettingKeys[..i], db.rt)
        invariant old(db.Healthy()) ==> db.Healthy()
      {
        LoadedStep(db.settings, i, db.rt);
        var got := ReadSetting(SettingKeys[i]);
        if got.Err? {
          return Err(got.error);
        }
        settings := settings[SettingKeys[i] := LoadedSetting(SettingKeys[i], got.value, db.rt)];
        i := i + 1;
      }
      LoadedOverAll(db.settings, db.rt, i);
      r := Ok(settings);
    }

    /** `self._settings_cache = self._load_settings_from_db()` */
    method RefreshSettings() returns (r: Result<bool, DbError>)
      modifies this`settingsCache, db`ops
      ensures old(db.Healthy()) ==> db.Healthy() && r.Ok?
      ensures r.Ok? ==> SettingsFresh()
    {
      var loaded := LoadSettingsFromDb();
      if loaded.Err? {
        return Err(loaded.error);
      }
      settingsCache := loaded.value;
      r := Ok(true);
    }

    /** `self.presets = db_manager.get_all_presets()` */
    method RefreshPresets() returns (r: Result<bool, DbError>)
      modifies this`presets, db`ops
      ensures old(db.Healthy()) ==> db.Healthy() && r.Ok?
      ensures r.Ok? ==> PresetsFresh()
    {
      var listed := db.GetAllPresets();
      if listed.Err? {
        return Err(listed.error);
      }
      presets := listed.value;
      r := Ok(true);
    }

    /** The three reads of `__init__` that fill the caches of settings, signals and status. */
    method FillCaches() returns (r: Result<bool, DbError>)
      requires Valid()
      modifies this`settingsCache, this`signalsCache, this`statusCache, db`ops
      ensures Valid()
      ensures old(db.Healthy()) ==> db.Healthy() && r.Ok?
      ensures r.Ok? ==> SettingsFresh() && SignalsFresh() && StatusFresh()
    {
      r := RefreshSettings();
      if r.Err? {
        return;
      }
      r := RefreshCaches();
    }

    /** The catalog filled from the files, then read back. */
    method SeedPresets(dir: Directory) returns (r: Result<bool, DbError>)
      requires Valid()
      modifies this`presets, db`ops, db`presets
      ensures Valid()
      ensures old(db.Healthy()) ==> db.Healthy() && r.Ok?
      ensures r.Ok? ==> db.presets == UpsertAll(old(db.presets), InitSaves(dir)) && PresetsFresh()
    {
      r := InitPresets(dir);
      if r.Err? {
        return;
      }
      r := RefreshPresets();
    }

    /** The preset part of `__init__`: the catalog is read, and seeded from the files and read again when it is empty. */
    method LoadPresets(dir: Directory) returns (r: Result<bool, DbError>)
      requires Valid()
      modifies this`presets, db`ops, db`presets
      ensures Valid()
      ensures old(db.Healthy()) ==> r.Ok?
      ensures r.Ok? ==> PresetsFresh() && PresetsLoaded(old(db.presets), dir)
    {
      r := RefreshPresets();
      if r.Err? || presets != [] {
        return;
      }
      r := SeedPresets(dir);
    }

    /** `__init__`: seeds the settings, fills the caches and, when the catalog is empty, fills it from the files. */
    method Init(dir: Directory) returns (r: Result<bool, DbError>)
      requires Valid()
      modifies this`settingsCache, this`signalsCache, this`statusCache, this`presets, db`ops, db`settings, db`presets
      ensures Valid()
      ensures old(db.Healthy()) ==> r.Ok?
      ensures SettingKeysAreDefaultKeys()
      ensures r.Ok? ==>
                && db.settings == Seeded(old(db.settings), SettingKeys, db.rt)
                && CachesFresh()
                && PresetsLoaded(old(db.presets), dir)
    {
      r := InitSettings();
      if r.Err? {
        return;
      }
      r := LoadCaches(dir);
    }

    /** What `__init__` does after seeding the settings: the three caches are filled, then the presets loaded. */
    method LoadCaches(dir: Directory) returns (r: Result<bool, DbError>)
      requires Valid()
      modifies this`settingsCache, this`signalsCache, this`statusCache, this`presets, db`ops, db`presets
      ensures Valid()
      ensures old(db.Healthy()) ==> r.Ok?
      ensures r.Ok? ==> CachesFresh() && PresetsLoaded(old(db.presets), dir)
    {
      r := FillCaches();
      if r.Err? {
        return;
      }
      r := LoadPresets(dir);
    }

    /** One step of the first loop of `_init_presets`: a non-empty mapped file under both its names. */
    method SaveMapped(dir: Directory, pair: (string, string)) returns (r: Result<bool, DbError>)
      requires Valid()
      modifies db`ops, db`presets
      ensures Valid()
      ensures old(db.Healthy()) ==> db.Healthy() && r.Ok?
      ensures r.Ok? ==> db.presets == UpsertAll(old(db.presets), MappedStep(dir, pair))
    {
      var data := ParsePresetFile(dir, pair.0);
      if data == map[] {
        return Ok(true);
      }
      r := WritePreset(pair.0, data);
      if r.Err? {
        return;
      }
      r := WritePreset(pair.1, data);
      UpsertAllSnoc(old(db.presets), [(pair.0, data)], (pair.1, data));
      assert [(pair.0, data)][..0] == [];
    }

    /** One step of the second loop: a non-empty `.set` file outside the mapping, under its stem. */
    method SaveExtra(dir: Directory, fileName: string) returns (r: Result<bool, DbError>)
      requires Valid()
      modifies db`ops, db`presets
      ensures Valid()
      ensures old(db.Healthy()) ==> db.Healthy() && r.Ok?
      ensures r.Ok? ==> db.presets == UpsertAll(old(db.presets), ExtraStep(dir, fileName))
    {
      if !EndsWith(fileName, ".set") || Stem(fileName) in MappedFiles {
        return Ok(true);
      }
      var name := Stem(fileName);
      var data := ParsePresetFile(dir, name);
      if data == map[] {
        return Ok(true);
      }
      r := WritePreset(name, data);
      assert [(name, data)][..0] == [];
    }

    /** The second loop of `_init_presets`, over the directory's entries in listing order. */
    method SaveExtras(dir: Directory) returns (r: Result<bool, DbError>)
      requires dir.Listing? && Valid()
      modifies db`ops, db`presets
      ensures Valid()
      ensures old(db.Healthy()) ==> db.Healthy() && r.Ok?
      ensures r.Ok? ==> db.presets == UpsertAll(old(db.presets), ExtraSaves(dir, dir.entries))
    {
      var j := 0;
      while j < |dir.entries|
        invariant 0 <= j <= |dir.entries|
        invariant Valid()
        invariant db.presets == UpsertAll(old(db.presets), ExtraSaves(dir, dir.entries[..j]))
        invariant old(db.Healthy()) ==> db.Healthy()
      {
        assert dir.entries[..j + 1][..j] == dir.entries[..j];
        r := SaveExtra(dir, dir.entries[j].0);
        if r.Err? {
          return;
        }
        UpsertAllAppend(old(db.presets), ExtraSaves(dir, dir.entries[..j]), ExtraStep(dir, dir.entries[j].0));
        j := j + 1;
      }
      assert dir.entries[..j] == dir.entries;
      r := Ok(true);
    }

    /** The first loop of `_init_presets`, over the four mapped files in order. */
    method SaveAllMapped(dir: Directory) returns (r: Result<bool, DbError>)
      requires Valid()
      modifies db`ops, db`presets
      ensures Valid()
      ensures old(db.Healthy()) ==> db.Healthy() && r.Ok?
      ensures r.Ok? ==> db.presets == UpsertAll(old(db.presets), MappedSaves(dir, PresetMapping))
    {
      r := SaveMappedPairs(dir, PresetMapping);
    }

    /** The first loop of `_init_presets` over the pairs `mapping`, in order. */
    method SaveMappedPairs(dir: Directory, mapping: seq<(string, string)>) returns (r: Result<bool, DbError>)
      requires Valid()
      modifies db`ops, db`presets
      ensures Valid()
      ensures old(db.Healthy()) ==> db.Healthy() && r.Ok?
      ensures r.Ok? ==> db.presets == UpsertAll(old(db.presets), MappedSaves(dir, mapping))
    {
      var i := 0;
      while i < |mapping|
        invariant 0 <= i <= |mapping|
        invariant Valid()
        invariant db.presets == UpsertAll(old(db.presets), MappedSaves(dir, mapping[..i]))
        invariant old(db.Healthy()) ==> db.Healthy()
      {
        assert mapping[..i + 1][..i] == mapping[..i];
        r := SaveMapped(dir, mapping[i]);
        if r.Err? {
          return;
        }
        UpsertAllAppend(old(db.presets), MappedSaves(dir, mapping[..i]), MappedStep(dir, mapping[i]));
        assert MappedSaves(dir, mapping[..i + 1]) == MappedSaves(dir, mapping[..i]) + MappedStep(dir, mapping[i]);
        i := i + 1;
      }
      assert mapping[..i] == mapping;
      r := Ok(true);
    }

    /** `_init_presets`: each non-empty mapped file under both its names, then every other non-empty `.set` file. */
    method InitPresets(dir: Directory) returns (r: Result<bool, DbError>)
      requires Valid()
      modifies db`ops, db`presets
      ensures Valid()
      ensures old(db.Healthy()) ==> db.Healthy() && r.Ok?
      ensures r.Ok? ==> db.presets == UpsertAll(old(db.presets), InitSaves(dir))
    {
      r := SaveAllMapped(dir);
      if r.Err? {
        return;
      }
      var mapped := MappedSaves(dir, PresetMapping);
      if dir.Listing? {
        r := SaveExtras(dir);
        UpsertAllAppend(old(db.presets), mapped, ExtraSaves(dir, dir.entries));
      } else {
        assert InitSaves(dir) == mapped + [] == mapped;
      }
    }

    /** `add_signal`: stamps a missing time, saves the signal, refreshes both caches and, live, notifies. */
    method AddSignal(signal: Items) returns (r: Result<Items, DbError>)
      requires Valid()
      modifies this`signalsCache, this`statusCache, this`notified, db`ops, db`signals, db`status
      ensures Valid()
      ensures var s := Stamped(signal, db.rt.formatTime(db.now));
              && (old(db.Healthy()) && SignalFault(AsMap(s)).None? ==> r.Ok?)
              && (r.Ok? ==>
                    && r.value == s
                    && SignalFault(AsMap(s)).None?
                    && db.signals == old(db.signals) + [SignalFrom(AsMap(s), |old(db.signals)| + 1, db.now, db.rt)]
                    && db.status == CountSignal(old(db.status), db.now)
                    && SignalsFresh()
                    && StatusFresh()
                    && notified == old(notified) + (if simulation then [] else [s]))
      ensures r.Err? ==> notified == old(notified)
    {
      var s := Stamped(signal, db.rt.formatTime(db.now));
      var id := StoreSignal(AsMap(s));
      if id.Err? {
        return Err(id.error);
      }
      var refreshed := RefreshCaches();
      if refreshed.Err? {
        return Err(refreshed.error);
      }
      if !simulation {
        notified := notified + [s];
      }
      r := Ok(s);
    }

    /** The save loop of `update_settings`: the text of each cleaned entry, in order. */
    method SaveProcessed(processed: Items) returns (r: Result<bool, DbError>)
      modifies db`ops, db`settings
      ensures old(db.Healthy()) ==> db.Healthy() && r.Ok?
      ensures r.Ok? ==> db.settings == Saved(old(db.settings), processed, db.rt)
      ensures r.Err? ==> exists n :: 0 <= n < |processed| && db.settings == Saved(old(db.settings), processed[..n], db.rt)
    {
      var i := 0;
      while i < |processed|
        invariant 0 <= i <= |processed|
        invariant db.settings == Saved(old(db.settings), processed[..i], db.rt)
        invariant old(db.Healthy()) ==> db.Healthy()
      {
        assert processed[..i + 1][..i] == processed[..i];
        r := WriteSetting(processed[i].0, PyStr(processed[i].1, db.rt));
        if r.Err? {
          assert db.settings == Saved(old(db.settings), processed[..i], db.rt);
          return;
        }
        i := i + 1;
      }
      assert processed[..i] == processed;
      r := Ok(true);
    }

    /** `update_settings`: saves the text of every cleaned entry, then reloads the cache from the store. */
    method UpdateSettings(update: Items) returns (r: Result<map<string, Value>, DbError>)
      modifies this`settingsCache, db`ops, db`settings
      ensures old(db.Healthy()) ==> db.Healthy() && r.Ok?
      ensures r.Ok? ==>
                && db.settings == Saved(old(db.settings), Processed(update, db.rt), db.rt)
                && r.value == settingsCache == LoadedSettings(db.settings, db.rt)
      ensures r.Err? ==> settingsCache == old(settingsCache)
      ensures r.Err? ==>
                exists n :: 0 <= n <= |Processed(update, db.rt)| && db.settings == Saved(old(db.settings), Processed(update, db.rt)[..n], db.rt)
    {
      var processed := ProcessSettings(update, db.rt);
      var saved := SaveProcessed(processed);
      if saved.Err? {
        return Err(saved.error);
      }
      var loaded := LoadSettingsFromDb();
      if loaded.Err? {
        assert processed[..|processed|] == processed;
        return Err(loaded.error);
      }
      settingsCache := loaded.value;
      r := Ok(settingsCache);
    }

    /** POST `/settings`: the form's fields, with the check boxes and numbers converted, go to `update_settings`. */
    method PostSettingsForm(form: seq<(string, string)>) returns (r: Result<map<string, Value>, DbError>)
      modifies this`settingsCache, db`ops, db`settings
      ensures old(db.Healthy()) ==> r.Ok?
      ensures r.Ok? ==>
                && db.settings == Saved(old(db.settings), Processed(FormSettings(form, db.rt), db.rt), db.rt)
                && r.value == settingsCache == LoadedSettings(db.settings, db.rt)
    {
      r := UpdateSettings(FormSettings(form, db.rt));
    }

    /** `update_status`: patches the row, then refreshes the status cache. */
    method UpdateStatus(patch: map<string, Value>) returns (r: Result<Option<StatusView>, DbError>)
      modifies this`statusCache, db`ops, db`status
      ensures old(db.Healthy()) ==> db.Healthy()
      ensures old(db.Healthy()) && !PatchRejected(patch) ==> r.Ok?
      ensures r.Ok? ==>
                && db.status == Some(PatchStatus(old(db.status).GetOr(NewBotStatus(db.now)), patch, db.now))
                && r.value == statusCache == StatusDict(db.status, db.rt)
    {
      var done := WriteStatus(patch);
      if done.Err? {
        return Err(done.error);
      }
      var refreshed := RefreshStatus();
      if refreshed.Err? {
        return Err(refreshed.error);
      }
      r := Ok(statusCache);
    }

    /** `load_preset`: False for a name the catalog lacks; otherwise the preset's settings go to `update_settings`. */
    method LoadPreset(name: string) returns (r: Result<bool, DbError>)
      modifies this`settingsCache, db`ops, db`settings
      ensures old(db.Healthy()) ==> db.Healthy() && r.Ok?
      ensures r.Ok? ==> r.value == PresetEntry(presets, name).Some?
      ensures PresetEntry(presets, name).None? ==>
                r == Ok(false) && db.settings == old(db.settings) && settingsCache == old(settingsCache)
      ensures r == Ok(true) ==>
                && db.settings == Saved(old(db.settings), Processed(PresetSettings(PresetEntry(presets, name).value, name, db.rt), db.rt), db.rt)
                && SettingsFresh()
    {
      var entry := PresetEntry(presets, name);
      if entry.None? {
        return Ok(false);
      }
      var settings := TranslatePreset(entry.value, name, db.rt);
      var updated := UpdateSettings(settings);
      if updated.Err? {
        return Err(updated.error);
      }
      r := Ok(true);
    }

    /** `/load_preset/<name>`: the name, then its other spelling, then the first match ignoring case; None is the 404. */
    method LoadPresetRoute(name: string) returns (r: Result<Option<string>, DbError>)
      modifies this`settingsCache, db`ops, db`settings
      ensures old(db.Healthy()) ==> r.Ok?
      ensures r.Ok? ==> r.value == Resolve(PresetNames(presets), name)
      ensures r.Ok? && r.value.None? ==> db.settings == old(db.settings) && settingsCache == old(settingsCache)
      ensures r.Ok? && r.value.Some? ==>
                && PresetEntry(presets, r.value.value).Some?
                && db.settings == Saved(old(db.settings),
                                        Processed(PresetSettings(PresetEntry(presets, r.value.value).value, r.value.value, db.rt), db.rt),
                                        db.rt)
                && SettingsFresh()
    {
      PresetEntryNamed(presets, name);
      var success := LoadPreset(name);
      if success.Err? {
        return Err(success.error);
      }
      if success.value {
        return Ok(Some(name));
      }
      var alt := Alternative(name);
      PresetEntryNamed(presets, alt);
      success := LoadPreset(alt);
      if success.Err? {
        return Err(success.error);
      }
      if success.value {
        return Ok(Some(alt));
      }
      var matches := CaseMatches(PresetNames(presets), name);
      if matches == [] {
        return Ok(None);
      }
      PresetEntryNamed(presets, matches[0]);
      success := LoadPreset(matches[0]);
      if success.Err? {
        return Err(success.error);
      }
      r := Ok(Some(matches[0]));
    }

    /** The status half of `sync_with_mt5` once connected: the terminal's status, then `connected`. */
    method CopyTerminalStatus(reply: map<string, Value>) returns (r: Result<bool, DbError>)
      modifies this`statusCache, db`ops, db`status
      ensures old(db.Healthy()) ==> db.Healthy()
      ensures r.Ok? && "error" !in reply ==>
                db.status.Some? && db.status.value.connected && statusCache.Some? && statusCache.value.connected
      ensures "error" in reply ==> r == Ok(true) && db.status == old(db.status) && statusCache == old(statusCache)
    {
      if "error" in reply {
        return Ok(true);
      }
      var copied := UpdateStatus(reply);
      if copied.Err? {
        return Err(copied.error);
      }
      var online := UpdateStatus(map["connected" := Bool(true)]);
      if online.Err? {
        return Err(online.error);
      }
      r := Ok(true);
    }

    /** One item of a pulled batch, stored as `save_signal` stores it; an item that is not a dictionary is a `TypeError`. */
    method StoreItem(batch: seq<Value>, i: nat, ghost start: seq<SignalRow>) returns (r: Result<bool, DbError>)
      requires Valid() && i < |batch|
      requires db.signals == start + BatchRows(batch[..i], |start| + 1, db.now, db.rt) && |db.signals| == |start| + i
      modifies db`ops, db`signals, db`status
      ensures Valid()
      ensures old(db.Healthy()) ==> db.Healthy()
      ensures old(db.Healthy()) && batch[i].Dict? && SignalFault(batch[i].entries).None? ==> r.Ok?
      ensures r.Ok? ==> && batch[i].Dict? && SignalFault(batch[i].entries).None?
                        && db.signals == start + BatchRows(batch[..i + 1], |start| + 1, db.now, db.rt)
                        && |db.signals| == |start| + i + 1
      ensures old(db.status).Some? && old(db.status).value.connected ==> db.status.Some? && db.status.value.connected
    {
      if !batch[i].Dict? {
        return Err(OtherError("TypeError"));
      }
      ghost var before := db.signals;
      var saved := StoreSignal(batch[i].entries);
      if saved.Err? {
        return Err(saved.error);
      }
      BatchStep(start, before, db.signals, batch, i, db.now, db.rt);
      r := Ok(true);
    }

    /** The signals half of `sync_with_mt5`: each pulled dictionary goes to `save_signal`, with no notification. */
    method StorePulled(batch: seq<Value>) returns (r: Result<bool, DbError>)
      requires Valid()
      modifies db`ops, db`signals, db`status
      ensures Valid()
      ensures old(db.Healthy()) ==> db.Healthy()
      ensures old(db.Healthy()) && Storable(batch) ==> r.Ok?
      ensures r.Ok? ==> Storable(batch) && db.signals == old(db.signals) + BatchRows(batch, |old(db.signals)| + 1, db.now, db.rt)
      ensures old(db.status).Some? && old(db.status).value.connected ==> db.status.Some? && db.status.value.connected
    {
      var i := 0;
      while i < |batch|
        invariant 0 <= i <= |batch|
        invariant Valid()
        invariant Storable(batch[..i])
        invariant |db.signals| == |old(db.signals)| + i
        invariant db.signals == old(db.signals) + BatchRows(batch[..i], |old(db.signals)| + 1, db.now, db.rt)
        invariant old(db.Healthy()) ==> db.Healthy()
        invariant old(db.status).Some? && old(db.status).value.connected ==> db.status.Some? && db.status.value.connected
      {
        if Storable(batch) {
          StorableAt(batch, i);
        }
        r := StoreItem(batch, i, old(db.signals));
        if r.Err? {
          return;
        }
        StorableSnoc(batch, i);
        i := i + 1;
      }
      assert batch[..i] == batch;
      r := Ok(true);
    }

    /**
     * `sync_with_mt5`: outside simulation, records a failed connection, or
     * copies the terminal's status and stores the signals it reports.
     */
    method SyncWithTerminal(link: TerminalLink) returns (r: Result<bool, DbError>)
      requires Valid()
      modifies this`signalsCache, this`statusCache, db`ops, db`signals, db`status
      ensures Valid()
      ensures notified == old(notified)
      ensures simulation ==> r == Ok(false) && db.ops == old(db.ops)
      ensures !simulation && link.Offline? && old(db.Healthy()) ==> r.Ok?
      ensures r.Ok? && !simulation ==> r.value == link.Online?
      ensures r.Ok? && !simulation && link.Offline? ==>
                && db.status == Some(PatchStatus(old(db.status).GetOr(NewBotStatus(db.now)), map["connected" := Bool(false)], db.now))
                && StatusFresh()
      ensures r.Ok? && !simulation && link.Online? ==>
                && ("error" !in link.statusReply ==> db.status.Some? && db.status.value.connected &&
                                                     statusCache.Some? && statusCache.value.connected)
                && (Pulls(link.signalsReply) ==>
                      && SignalBatch(link.signalsReply["signals"]).Some?
                      && var batch := SignalBatch(link.signalsReply["signals"]).value;
                      && Storable(batch)
                      && db.signals == old(db.signals) + BatchRows(batch, |old(db.signals)| + 1, db.now, db.rt)
                      && SignalsFresh())
                && (!Pulls(link.signalsReply) ==> db.signals == old(db.signals) && signalsCache == old(signalsCache))
    {
      if simulation {
        return Ok(false);
      }
      if link.Offline? {
        var offline := UpdateStatus(map["connected" := Bool(false)]);
        if offline.Err? {
          return Err(offline.error);
        }
        return Ok(false);
      }
      var copied := CopyTerminalStatus(link.statusReply);
      if copied.Err? {
        return Err(copied.error);
      }
      if !Pulls(link.signalsReply) {
        return Ok(true);
      }
      var batch := SignalBatch(link.signalsReply["signals"]);
      if batch.None? {
        return Err(OtherError("TypeError"));
      }
      var stored := StorePulled(batch.value);
      if stored.Err? {
        return Err(stored.error);
      }
      var refreshed := RefreshSignals();
      if refreshed.Err? {
        return Err(refreshed.error);
      }
      r := Ok(true);
    }

    /** The store half of a simulated execution: the patched status, the marked signal, fresh caches. */
    method RecordExecution(signalId: int, patch: map<string, Value>) returns (r: Result<bool, DbError>)
      requires Valid() && 1 <= signalId <= |db.signals| && !PatchRejected(patch) && "total_trades_today" in patch
      requires patch["total_trades_today"].Int?
      modifies this`signalsCache, this`statusCache, db`ops, db`signals, db`status
      ensures Valid()
      ensures old(db.Healthy()) ==> r.Ok?
      ensures r.Ok? ==>
                && db.status.Some? && db.status.value.totalTradesToday == patch["total_trades_today"].i + 1
                && ("account_balance" in patch ==> Some(db.status.value.accountBalance) == PyFloatOf(patch["account_balance"]))
                && db.status == CountTrade(Some(PatchStatus(old(db.status).GetOr(NewBotStatus(db.now)), patch, db.now)))
                && 1 <= signalId <= |db.signals| && db.signals[signalId - 1].executed
                && db.signals == old(db.signals)[signalId - 1 := MarkExecuted(old(db.signals)[signalId - 1], true, db.now)]
                && SignalsFresh()
                && StatusFresh()
    {
      r := WriteStatus(patch);
      if r.Err? {
        return;
      }
      var marked := db.UpdateSignalExecution(signalId, true);
      if marked.Err? {
        return Err(marked.error);
      }
      r := RefreshStatus();
      if r.Err? {
        return;
      }
      r := RefreshSignals();
    }

    /**
     * `/api/execute_signal` for a stored signal: in simulation mode the sizing
     * may raise before anything is written (`SimulationFault`, a 500);
     * otherwise the status gets the new balance and the cached trade count plus
     * one, then `update_signal_execution` counts the trade again.
     */
    method ExecuteStoredSignal(signalId: int, newBalance: real) returns (r: Result<ExecReply, DbError>)
      requires Valid()
      modifies this`signalsCache, this`statusCache, db`ops, db`signals, db`status
      ensures Valid()
      ensures signalId == 0 ==> r == Ok(InlineSignal)
      ensures r == Ok(NotFound) <==> signalId != 0 && forall i :: 0 <= i < |old(signalsCache)| ==> old(signalsCache)[i].id != signalId
      ensures signalId != 0 && !simulation && r != Ok(NotFound) ==> r == Ok(Live)
      ensures r == Ok(Live) ==> !simulation
      ensures signalId != 0 && simulation && CachedSignal(old(signalsCache), signalId).Some? ==>
                var fault := SimulationFault(CachedSignal(old(signalsCache), signalId).value, settingsCache, old(statusCache), db.rt);
                && (fault.Some? ==> r == Err(fault.value) && db.ops == old(db.ops) && db.signals == old(db.signals)
                                    && db.status == old(db.status) && statusCache == old(statusCache))
                && (fault.None? && old(db.Healthy()) ==> r.Ok? && r.value.Executed?)
      ensures r.Err? ==>
                || !old(db.Healthy())
                || (&& signalId != 0 && simulation && CachedSignal(old(signalsCache), signalId).Some?
                    && SimulationFault(CachedSignal(old(signalsCache), signalId).value, settingsCache, old(statusCache), db.rt).Some?)
      ensures r.Ok? && r.value.Executed? ==>
                && old(statusCache).Some?
                && r.value.newBalance == newBalance
                && db.status.Some?
                && db.status.value.accountBalance == newBalance
                && db.status.value.totalTradesToday == old(statusCache).value.totalTradesToday + 2
                && 1 <= signalId <= |db.signals| && db.signals[signalId - 1].executed
                && SignalsFresh()
                && StatusFresh()
    {
      if signalId == 0 {
        return Ok(InlineSignal);
      }
      var signal := FindCached(signalsCache, signalId);
      if signal.None? {
        return Ok(NotFound);
      }
      if !simulation {
        return Ok(Live);
      }
      var fault := SimulationFault(signal.value, settingsCache, statusCache, db.rt);
      if fault.Some? {
        return Err(fault.value);
      }
      var trades := statusCache.value.totalTradesToday + 1;
      var patch := map["account_balance" := Float(newBalance), "total_trades_today" := Int(trades)];
      assert !PatchRejected(patch);
      assert "account_balance" in patch && PyFloatOf(patch["account_balance"]) == Some(newBalance);
      var recorded := RecordExecution(signalId, patch);
      if recorded.Err? {
        return Err(recorded.error);
      }
      r := Ok(Executed(signal.value.symbol, signal.value.direction, newBalance));
    }
  }

  lemma UpsertAllAppend(c: Catalog, a: seq<Save>, b: seq<Save>)
    ensures UpsertAll(c, a + b) == UpsertAll(UpsertAll(c, a), b)
    decreases |b|
  {
    if b == [] {
      assert a + b == a;
    } else {
      assert (a + b)[..|a + b| - 1] == a + b[..|b| - 1];
      UpsertAllAppend(c, a, b[..|b| - 1]);
    }
  }

  /** Every save `_init_presets` makes, in order. */
  function InitSaves(dir: Directory): seq<Save> {
    MappedSaves(dir, PresetMapping) + (if dir.Listing? then ExtraSaves(dir, dir.entries) else [])
  }

  predicate SettingKeysAreDefaultKeys() {
    forall k :: k in SettingKeys ==> k in Defaults
  }
}
