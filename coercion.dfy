/**
 * How the web application types its settings: the defaults, the reading of a
 * stored text back into a typed value, the cleaning of an update before it is
 * saved, the translation of a preset file's parameters into settings, the
 * settings form, and the resolution of a `/load_preset/<name>` request.
 */
module Coercion {
  import opened Wrappers
  import opened Text
  import opened Values

  /** The settings the bot knows, in the order they are initialised and loaded. */
  const SettingKeys: seq<string> := [
    "strategy_preset", "time_frame", "trading_symbols", "max_daily_trades", "risk_percent",
    "stop_loss_pips", "take_profit_pips", "minimum_signal_strength", "enable_news_filter",
    "enable_ai_analysis", "enable_sentiment_analysis"]

  const Defaults: map<string, Value> := map[
    "strategy_preset" := Str("STRATEGY_TREND_FOLLOWING"),
    "time_frame" := Str("H1"),
    "trading_symbols" := Str("EURUSD,GBPUSD,USDJPY,AUDUSD"),
    "max_daily_trades" := Int(5),
    "risk_percent" := Float(1.0),
    "stop_loss_pips" := Int(50),
    "take_profit_pips" := Int(100),
    "minimum_signal_strength" := Int(5),
    "enable_news_filter" := Bool(true),
    "enable_ai_analysis" := Bool(true),
    "enable_sentiment_analysis" := Bool(true)]

  const BoolKeys: seq<string> := ["enable_news_filter", "enable_ai_analysis", "enable_sentiment_analysis"]
  const IntKeys: seq<string> := ["max_daily_trades", "stop_loss_pips", "take_profit_pips", "minimum_signal_strength"]
  const FloatKeys: seq<string> := ["risk_percent"]

  /** The words a stored or preset flag reads as true (after lower-casing). */
  const TrueWords: set<string> := {"true", "1", "yes", "on"}
  /** An update also accepts a checked checkbox. */
  const UpdateTrueWords: set<string> := TrueWords + {"checked"}

  datatype Kind = IntSetting | FloatSetting | BoolSetting | TextSetting

  function KindOf(key: string): Kind {
    if key in IntKeys then IntSetting
    else if key in FloatKeys then FloatSetting
    else if key in BoolKeys then BoolSetting
    else TextSetting
  }

  /** Everything from the first '#' on is a comment; the rest is stripped, but only when there was a comment. */
  function CutComment(s: string): string {
    if '#' in s then Strip(Before(s, '#')) else s
  }

  /** The text an update hands to `int`/`float`: always stripped, comment or not. */
  function CleanNumber(s: string): string {
    if '#' in s then Strip(Before(s, '#')) else Strip(s)
  }

  // ---------------------------------------------------------------------------
  // Loading: stored text to typed value

  /** The typed value of a stored text; a number that does not parse falls back to the default. */
  function StoredSetting(key: string, text: string, rt: Builtins): (v: Value)
    requires key in Defaults
  {
    Typed(key, CutComment(text), rt)
  }

  /** The typed value of a text with its comment removed. */
  function Typed(key: string, t: string, rt: Builtins): (v: Value)
    requires key in Defaults
  {
    match KindOf(key)
    case IntSetting => (match rt.parseInt(t) case Some(i) => Int(i) case None => Defaults[key])
    case FloatSetting => (match rt.parseFloat(t) case Some(x) => Float(x) case None => Defaults[key])
    case BoolSetting => Bool(Lower(t) in TrueWords)
    case TextSetting => Str(t)
  }

  function LoadedSetting(key: string, stored: Option<string>, rt: Builtins): Value
    requires key in Defaults
  {
    match stored
    case None => Defaults[key]
    case Some(text) => StoredSetting(key, text, rt)
  }

  /** The settings cache after `_load_settings_from_db` over the stored texts. */
  function LoadedSettings(store: map<string, string>, rt: Builtins): map<string, Value> {
    map k | k in Defaults :: LoadedSetting(k, Lookup(store, k), rt)
  }

  /** The cache `_load_settings_from_db` has built once it has read `keys`. */
  function LoadedOver(store: map<string, string>, keys: seq<string>, rt: Builtins): map<string, Value>
    requires forall k :: k in keys ==> k in Defaults
  {
    map k | k in keys :: LoadedSetting(k, Lookup(store, k), rt)
  }

  /** Once the loop has read every listed key, its cache is the loaded settings. */
  lemma LoadedOverAll(store: map<string, string>, rt: Builtins, i: nat)
    requires i == |SettingKeys|
    ensures forall k :: k in SettingKeys[..i] ==> k in Defaults
    ensures LoadedOver(store, SettingKeys[..i], rt) == LoadedSettings(store, rt)
  {
    SettingKeysAreDefaults();
    assert SettingKeys[..i] == SettingKeys;
  }

  /** One more key read by `_load_settings_from_db`. */
  lemma LoadedStep(store: map<string, string>, i: nat, rt: Builtins)
    requires i < |SettingKeys|
    ensures forall k :: k in SettingKeys[..i] ==> k in Defaults
    ensures forall k :: k in SettingKeys[..i + 1] ==> k in Defaults
    ensures LoadedOver(store, SettingKeys[..i + 1], rt) ==
              LoadedOver(store, SettingKeys[..i], rt)[SettingKeys[i] := LoadedSetting(SettingKeys[i], Lookup(store, SettingKeys[i]), rt)]
  {
    SettingKeysAreDefaults();
    assert SettingKeys[..i + 1] == SettingKeys[..i] + [SettingKeys[i]];
  }

  predicate HasKind(v: Value, kind: Kind) {
    match kind
    case IntSetting => v.Int?
    case FloatSetting => v.Float?
    case BoolSetting => v.Bool?
    case TextSetting => v.Str?
  }

  /** Every default has the type of its setting. */
  lemma DefaultsTyped()
    ensures forall k :: k in Defaults ==> HasKind(Defaults[k], KindOf(k))
  {
  }

  /** The loaded settings are exactly the known ones, each of its setting's type, whatever the store holds. */
  lemma LoadedTyped(store: map<string, string>, rt: Builtins, k: string)
    ensures k in LoadedSettings(store, rt) <==> k in Defaults
    ensures k in Defaults ==> HasKind(LoadedSettings(store, rt)[k], KindOf(k))
  {
    DefaultsTyped();
  }

  /** A trailing comment is dropped and what precedes it is stripped. */
  lemma CommentIgnored(key: string, a: string, b: string, rt: Builtins)
    requires key in Defaults && '#' !in a
    ensures StoredSetting(key, a + "#" + b, rt) == StoredSetting(key, Strip(a), rt)
  {
    CutAtComment(a, b);
    StripKeepsOut(a, '#');
    assert CutComment(Strip(a)) == Strip(a);
  }

  lemma CutAtComment(a: string, b: string)
    requires '#' !in a
    ensures CutComment(a + "#" + b) == Strip(a)
  {
    BeforeAfterAppend(a, '#', b);
    assert a + "#" + b == a + ['#'] + b;
  }

  // ---------------------------------------------------------------------------
  // Updating: cleaning the values before they are saved

  /** What `update_settings` makes of one value; a number that does not parse stays as given. */
  function UpdatedValue(key: string, v: Value, rt: Builtins): Value {
    match KindOf(key)
    case IntSetting =>
      var n := if v.Str? then rt.parseInt(CleanNumber(v.s)) else PyIntOf(v);
      if n.Some? then Int(n.value) else v
    case FloatSetting =>
      var x := if v.Str? then rt.parseFloat(CleanNumber(v.s)) else PyFloatOf(v);
      if x.Some? then Float(x.value) else v
    case BoolSetting => Bool(if v.Str? then Lower(v.s) in UpdateTrueWords else Truthy(v))
    case TextSetting => v
  }

  /** The cleaned entries for those of `keys` the update holds, in the order of `keys`. */
  function Picked(update: Items, keys: seq<string>, rt: Builtins): Items
    decreases |keys|
  {
    if keys == [] then []
    else
      var k := keys[|keys| - 1];
      var init := Picked(update, keys[..|keys| - 1], rt);
      if Get(update, k).Some? then init + [(k, UpdatedValue(k, Get(update, k).value, rt))] else init
  }

  lemma {:induction false} PickedGet(update: Items, keys: seq<string>, rt: Builtins, k: string)
    ensures Get(Picked(update, keys, rt), k) ==
              if k in keys && Get(update, k).Some? then Some(UpdatedValue(k, Get(update, k).value, rt)) else None
    decreases |keys|
  {
    if keys != [] {
      var last := keys[|keys| - 1];
      var init := keys[..|keys| - 1];
      assert keys == init + [last];
      PickedGet(update, init, rt, k);
      if Get(update, last).Some? {
        GetAppend(Picked(update, init, rt), [(last, UpdatedValue(last, Get(update, last).value, rt))], k);
      }
    }
  }

  /** The entries of the update that need no cleaning, in their own order. */
  function Others(update: Items): Items
    decreases |update|
  {
    if update == [] then []
    else
      var last := update[|update| - 1];
      var init := Others(update[..|update| - 1]);
      if KindOf(last.0) == TextSetting then init + [last] else init
  }

  lemma {:induction false} OthersGet(update: Items, k: string)
    ensures Get(Others(update), k) == if KindOf(k) == TextSetting then Get(update, k) else None
    decreases |update|
  {
    if update != [] {
      var last := update[|update| - 1];
      var init := update[..|update| - 1];
      OthersGet(init, k);
      assert update == init + [last];
      GetAppend(init, [last], k);
      if KindOf(last.0) == TextSetting {
        GetAppend(Others(init), [last], k);
      }
    }
  }

  /**
   * `processed_settings`: the flags, then the integers, then the float, then
   * everything else in the order given.
   */
  function Processed(update: Items, rt: Builtins): Items {
    Picked(update, BoolKeys, rt) + Picked(update, IntKeys, rt) + Picked(update, FloatKeys, rt) + Others(update)
  }

  /** Every key of the update has its cleaned value in the processed update, and no other key appears. */
  lemma ProcessedGet(update: Items, rt: Builtins, k: string)
    ensures Get(Processed(update, rt), k) ==
              if Get(update, k).Some? then Some(UpdatedValue(k, Get(update, k).value, rt)) else None
  {
    var b := Picked(update, BoolKeys, rt);
    var i := Picked(update, IntKeys, rt);
    var f := Picked(update, FloatKeys, rt);
    PickedGet(update, BoolKeys, rt, k);
    PickedGet(update, IntKeys, rt, k);
    PickedGet(update, FloatKeys, rt, k);
    OthersGet(update, k);
    GetAppend(b, i, k);
    GetAppend(b + i, f, k);
    GetAppend(b + i + f, Others(update), k);
  }

  /** The stored texts after `save_settings(key, str(value))` for each entry in turn. */
  function Saved(store: map<string, string>, entries: Items, rt: Builtins): map<string, string>
    decreases |entries|
  {
    if entries == [] then store
    else
      var last := entries[|entries| - 1];
      Saved(store, entries[..|entries| - 1], rt)[last.0 := PyStr(last.1, rt)]
  }

  /** Each saved key holds the text of its (last) entry; every other key keeps its text. */
  lemma {:induction false} SavedLookup(store: map<string, string>, entries: Items, rt: Builtins, k: string)
    ensures Lookup(Saved(store, entries, rt), k) ==
              if Get(entries, k).Some? then Some(PyStr(Get(entries, k).value, rt)) else Lookup(store, k)
    decreases |entries|
  {
    if entries != [] {
      SavedLookup(store, entries[..|entries| - 1], rt, k);
    }
  }

  /** Saving the same entries again changes nothing. */
  lemma SavedIdempotent(store: map<string, string>, entries: Items, rt: Builtins)
    ensures Saved(Saved(store, entries, rt), entries, rt) == Saved(store, entries, rt)
  {
    var once := Saved(store, entries, rt);
    var twice := Saved(once, entries, rt);
    forall k
      ensures (k in twice <==> k in once) && (k in twice ==> twice[k] == once[k])
    {
      SavedLookup(store, entries, rt, k);
      SavedLookup(once, entries, rt, k);
    }
  }

  /** Cleaning a cleaned value changes nothing. */
  lemma UpdatedValueIdempotent(key: string, v: Value, rt: Builtins)
    ensures UpdatedValue(key, UpdatedValue(key, v, rt), rt) == UpdatedValue(key, v, rt)
  {
  }

  /** Processing an already processed update gives the same entries. */
  lemma ProcessedIdempotent(update: Items, rt: Builtins, k: string)
    ensures Get(Processed(Processed(update, rt), rt), k) == Get(Processed(update, rt), k)
  {
    ProcessedGet(update, rt, k);
    ProcessedGet(Processed(update, rt), rt, k);
    if Get(update, k).Some? {
      UpdatedValueIdempotent(k, Get(update, k).value, rt);
    }
  }

  /**
   * `float(v)` lands on a value a float holds: a text (whatever `float` makes
   * of it), a flag, an integer up to 2^53, or a float that is one.
   */
  ghost predicate FloatExact(v: Value, rt: Builtins) {
    match v
    case Str(_) => true
    case Bool(_) => true
    case Int(i) => -ExactIntBound <= i <= ExactIntBound
    case Float(x) => Representable(rt, x)
    case _ => false
  }

  /**
   * What the next load reads for a key that an update set: a flag or a number
   * that was cleaned comes back as it was cleaned, a number that was not
   * accepted comes back as the default (not as the previous setting), and a
   * plain text without '#' comes back unchanged.
   */
  lemma UpdateReadsBack(key: string, v: Value, rt: Builtins)
    requires Faithful(rt) && key in Defaults
    ensures var u := UpdatedValue(key, v, rt);
            var back := StoredSetting(key, PyStr(u, rt), rt);
            && (KindOf(key) == BoolSetting ==> back == u)
            && (KindOf(key) == IntSetting && u.Int? ==> back == u)
            && (KindOf(key) == FloatSetting && u.Float? && FloatExact(v, rt) ==> back == u)
            && (KindOf(key) == IntSetting && v.Str? && !u.Int? ==> back == Defaults[key])
            && (KindOf(key) == FloatSetting && v.Str? && !u.Float? ==> back == Defaults[key])
            && (KindOf(key) == TextSetting && v.Str? && '#' !in v.s ==> back == v)
  {
    match KindOf(key)
    case BoolSetting => FlagReadsBack(key, UpdatedValue(key, v, rt).b, rt);
    case IntSetting => IntReadsBack(key, v, rt);
    case FloatSetting => FloatReadsBack(key, v, rt);
    case TextSetting =>
  }

  lemma FlagReadsBack(key: string, b: bool, rt: Builtins)
    requires key in Defaults && KindOf(key) == BoolSetting
    ensures StoredSetting(key, PyStr(Bool(b), rt), rt) == Bool(b)
  {
    if b {
      assert PyStr(Bool(b), rt) == "True" && '#' !in "True";
      assert Lower("True") == "true";
    } else {
      assert PyStr(Bool(b), rt) == "False" && '#' !in "False";
      assert Lower("False") == "false";
    }
  }

  lemma IntReadsBack(key: string, v: Value, rt: Builtins)
    requires IntLaws(rt) && key in Defaults && KindOf(key) == IntSetting
    ensures var u := UpdatedValue(key, v, rt);
            && (u.Int? ==> StoredSetting(key, PyStr(u, rt), rt) == u)
            && (v.Str? && !u.Int? ==> StoredSetting(key, PyStr(u, rt), rt) == Defaults[key])
  {
    var u := UpdatedValue(key, v, rt);
    if u.Int? {
      var t := IntToString(u.i);
      assert PyStr(u, rt) == t;
      assert '#' !in t;
      assert CutComment(t) == t;
      assert rt.parseInt(t) == Some(u.i);
    } else if v.Str? {
      assert u == v;
      if '#' !in v.s {
        assert rt.parseInt(Strip(v.s)) == rt.parseInt(v.s);
      }
      assert rt.parseInt(CutComment(v.s)) == rt.parseInt(CleanNumber(v.s));
    }
  }

  lemma FloatReadsBack(key: string, v: Value, rt: Builtins)
    requires FloatLaws(rt) && key in Defaults && KindOf(key) == FloatSetting
    ensures var u := UpdatedValue(key, v, rt);
            && (u.Float? && FloatExact(v, rt) ==> StoredSetting(key, PyStr(u, rt), rt) == u)
            && (v.Str? && !u.Float? ==> StoredSetting(key, PyStr(u, rt), rt) == Defaults[key])
  {
    var u := UpdatedValue(key, v, rt);
    if u.Float? && FloatExact(v, rt) {
      FloatExactRepresentable(v, rt);
      FloatTextReadsBack(rt, u.x);
    }
    if v.Str? && !u.Float? {
      assert u == v;
      assert rt.parseFloat(CutComment(v.s)) == rt.parseFloat(CleanNumber(v.s));
    }
  }

  /** What `update_settings` makes of a value `float` lands exactly on is a value a float holds. */
  lemma FloatExactRepresentable(v: Value, rt: Builtins)
    requires FloatLaws(rt) && FloatExact(v, rt) && UpdatedValue("risk_percent", v, rt).Float?
    ensures Representable(rt, UpdatedValue("risk_percent", v, rt).x)
  {
    match v
    case Str(s) => assert rt.parseFloat(CleanNumber(s)) == Some(UpdatedValue("risk_percent", v, rt).x);
    case Bool(b) =>
      var i := if b then 1 else 0;
      assert rt.parseFloat(IntToString(i)) == Some(i as real);
    case Int(i) => assert rt.parseFloat(IntToString(i)) == Some(i as real);
    case Float(_) =>
  }

  /** The listed keys are exactly the keys that have defaults. */
  lemma SettingKeysAreDefaults()
    ensures forall k :: k in SettingKeys <==> k in Defaults
  {
  }

  /** What a load gives for each key after an update was saved over `store`. */
  lemma SettingsAfterUpdate(store: map<string, string>, update: Items, rt: Builtins, k: string)
    requires k in Defaults
    ensures var loaded := LoadedSettings(Saved(store, Processed(update, rt), rt), rt);
            && k in loaded && k in LoadedSettings(store, rt)
            && (Get(update, k).Some? ==>
                  loaded[k] == StoredSetting(k, PyStr(UpdatedValue(k, Get(update, k).value, rt), rt), rt))
            && (Get(update, k).None? ==> loaded[k] == LoadedSettings(store, rt)[k])
  {
    SavedLookup(store, Processed(update, rt), rt, k);
    ProcessedGet(update, rt, k);
  }

  /** One key of `_init_settings`: the default's text goes in only when the key is missing. */
  function SeedOne(store: map<string, string>, key: string, rt: Builtins): (seeded: map<string, string>)
    requires key in Defaults
    ensures seeded.Keys == store.Keys + {key}
    ensures forall k :: k in store ==> seeded[k] == store[k]
    ensures key !in store ==> seeded[key] == PyStr(Defaults[key], rt)
  {
    if key in store then store else store[key := PyStr(Defaults[key], rt)]
  }

  /**
   * `_init_settings` over `keys`, one key after another: every stored text
   * stays, each listed key the store lacks gets the text of its default, and
   * no other key appears.
   */
  function Seeded(store: map<string, string>, keys: seq<string>, rt: Builtins): (seeded: map<string, string>)
    requires forall k :: k in keys ==> k in Defaults
    ensures forall k :: k in seeded <==> k in store || k in keys
    ensures forall k :: k in store ==> seeded[k] == store[k]
    ensures forall k :: k in keys && k !in store ==> seeded[k] == PyStr(Defaults[k], rt)
    decreases |keys|
  {
    if keys == [] then store
    else
      var init := keys[..|keys| - 1];
      assert keys == init + [keys[|keys| - 1]];
      SeedOne(Seeded(store, init, rt), keys[|keys| - 1], rt)
  }

  /** One more key of the seeding loop: the default goes in only when the key is still missing. */
  lemma SeededStep(store: map<string, string>, keys: seq<string>, i: nat, rt: Builtins)
    requires forall k :: k in keys ==> k in Defaults
    requires i < |keys|
    ensures forall k :: k in keys[..i] ==> k in Defaults
    ensures forall k :: k in keys[..i + 1] ==> k in Defaults
    ensures Seeded(store, keys[..i + 1], rt) == SeedOne(Seeded(store, keys[..i], rt), keys[i], rt)
  {
    assert keys[..i + 1][..i] == keys[..i];
  }

  /** The text of a default reads back as that default. */
  lemma DefaultRoundTrip(k: string, rt: Builtins)
    requires Faithful(rt) && k in Defaults
    ensures StoredSetting(k, PyStr(Defaults[k], rt), rt) == Defaults[k]
  {
    DefaultsTyped();
    var d := Defaults[k];
    match KindOf(k)
    case BoolSetting => FlagReadsBack(k, d.b, rt);
    case IntSetting => assert '#' !in IntToString(d.i);
    case FloatSetting =>
      assert rt.parseFloat(IntToString(1)) == Some(1 as real);
      FloatTextReadsBack(rt, 1.0);
    case TextSetting => TextDefaultsPlain(k);
  }

  /** None of the text defaults holds a comment mark. */
  lemma TextDefaultsPlain(k: string)
    requires k in Defaults && Defaults[k].Str?
    ensures '#' !in Defaults[k].s
  {
    var s := Defaults[k].s;
    assert s == "STRATEGY_TREND_FOLLOWING" || s == "H1" || s == "EURUSD,GBPUSD,USDJPY,AUDUSD";
    assert forall i :: 0 <= i < |s| ==> s[i] != '#';
  }

  /** Seeding the store with the defaults never changes what a load gives for a key. */
  lemma SeedingKeepsLoad(store: map<string, string>, rt: Builtins, k: string)
    requires Faithful(rt) && k in Defaults
    ensures forall j :: j in SettingKeys ==> j in Defaults
    ensures k in LoadedSettings(Seeded(store, SettingKeys, rt), rt) && k in LoadedSettings(store, rt)
    ensures LoadedSettings(Seeded(store, SettingKeys, rt), rt)[k] == LoadedSettings(store, rt)[k]
  {
    SettingKeysAreDefaults();
    if k !in store {
      assert k in SettingKeys;
      DefaultRoundTrip(k, rt);
    }
  }

  // ---------------------------------------------------------------------------
  // Presets: parameter names of the .set files to setting names

  const PresetKeyMap: seq<(string, string)> := [
    ("TimeFrame", "time_frame"),
    ("TradingSymbols", "trading_symbols"),
    ("MaxDailyTrades", "max_daily_trades"),
    ("RiskPercent", "risk_percent"),
    ("StopLossPips", "stop_loss_pips"),
    ("TakeProfitPips", "take_profit_pips"),
    ("MinimumSignalStrength", "minimum_signal_strength"),
    ("EnableNewsFilter", "enable_news_filter"),
    ("EnableAIAnalysis", "enable_ai_analysis"),
    ("EnableSentimentAnalysis", "enable_sentiment_analysis")]

  const PresetBoolKeys: seq<string> := ["EnableNewsFilter", "EnableAIAnalysis", "EnableSentimentAnalysis"]
  const PresetIntKeys: seq<string> := ["MaxDailyTrades", "StopLossPips", "TakeProfitPips", "MinimumSignalStrength"]

  /** MetaTrader's numeric period codes and the names the settings use for them. */
  const TimeframeCodes: map<string, string> := map[
    "1" := "M1", "2" := "M2", "3" := "M3", "4" := "M4", "5" := "M5", "6" := "M6",
    "10" := "M10", "12" := "M12", "15" := "M15", "20" := "M20", "30" := "M30",
    "16385" := "H1", "16386" := "H2", "16387" := "H3", "16388" := "H4", "16390" := "H6",
    "16392" := "H8", "16396" := "H12", "16408" := "D1", "32769" := "W1", "49153" := "MN1"]

  /** One preset parameter as a setting value; a number that does not parse stays text. */
  function PresetValue(presetKey: string, raw: string, rt: Builtins): Value {
    var t := CutComment(raw);
    var t := if presetKey == "TimeFrame" && t in TimeframeCodes then TimeframeCodes[t] else t;
    if presetKey in PresetBoolKeys then Bool(Lower(t) in TrueWords)
    else if presetKey in PresetIntKeys then (match rt.parseInt(t) case Some(i) => Int(i) case None => Str(t))
    else if presetKey == "RiskPercent" then (match rt.parseFloat(t) case Some(x) => Float(x) case None => Str(t))
    else Str(t)
  }

  /** The settings for the parameters of `table` the preset has, in table order. */
  function Translated(params: map<string, string>, table: seq<(string, string)>, rt: Builtins): Items
    decreases |table|
  {
    if table == [] then []
    else
      var last := table[|table| - 1];
      var r0 := Translated(params, table[..|table| - 1], rt);
      if last.0 in params then r0 + [(last.1, PresetValue(last.0, params[last.0], rt))] else r0
  }

  predicate DistinctTargets(table: seq<(string, string)>) {
    forall i, j :: 0 <= i < j < |table| ==> table[i].1 != table[j].1
  }

  /** A setting is translated exactly when the preset has a parameter mapped to it, and then from that parameter. */
  lemma {:induction false} TranslatedGet(params: map<string, string>, table: seq<(string, string)>, rt: Builtins, k: string)
    requires DistinctTargets(table)
    ensures Get(Translated(params, table, rt), k).Some? <==>
              exists i :: 0 <= i < |table| && table[i].1 == k && table[i].0 in params
    ensures forall i :: 0 <= i < |table| && table[i].1 == k && table[i].0 in params ==>
              Get(Translated(params, table, rt), k) == Some(PresetValue(table[i].0, params[table[i].0], rt))
    decreases |table|
  {
    if table != [] {
      var last := table[|table| - 1];
      var init := table[..|table| - 1];
      assert forall i :: 0 <= i < |init| ==> init[i] == table[i];
      assert DistinctTargets(init);
      TranslatedGet(params, init, rt, k);
      if last.0 in params {
        GetAppend(Translated(params, init, rt), [(last.1, PresetValue(last.0, params[last.0], rt))], k);
      }
    }
  }

  /** `new_settings` of `load_preset`: the translated parameters, then the preset's own name. */
  function PresetSettings(params: map<string, string>, name: string, rt: Builtins): Items {
    Translated(params, PresetKeyMap, rt) + [("strategy_preset", Str(name))]
  }

  /**
   * Loading a preset sets `strategy_preset` to its name, sets each mapped
   * setting whose parameter the preset has to the converted parameter, and
   * touches no other key.
   */
  lemma PresetSettingsContent(params: map<string, string>, name: string, rt: Builtins, k: string)
    ensures var r := PresetSettings(params, name, rt);
            && Get(r, "strategy_preset") == Some(Str(name))
            && (forall i :: 0 <= i < |PresetKeyMap| && PresetKeyMap[i].1 == k && PresetKeyMap[i].0 in params ==>
                  Get(r, k) == Some(PresetValue(PresetKeyMap[i].0, params[PresetKeyMap[i].0], rt)))
            && (Get(r, k).Some? <==>
                  k == "strategy_preset" || exists i :: 0 <= i < |PresetKeyMap| && PresetKeyMap[i].1 == k && PresetKeyMap[i].0 in params)
  {
    var t := Translated(params, PresetKeyMap, rt);
    var tail := [("strategy_preset", Str(name))];
    GetAppend(t, tail, k);
    GetAppend(t, tail, "strategy_preset");
    PresetTargetsDistinct();
    TranslatedGet(params, PresetKeyMap, rt, k);
  }

  /** After a preset is applied, the stored `strategy_preset` is the preset's name. */
  lemma PresetNameStored(store: map<string, string>, params: map<string, string>, name: string, rt: Builtins)
    ensures Lookup(Saved(store, Processed(PresetSettings(params, name, rt), rt), rt), "strategy_preset") == Some(name)
  {
    var u := PresetSettings(params, name, rt);
    PresetSettingsContent(params, name, rt, "strategy_preset");
    ProcessedGet(u, rt, "strategy_preset");
    SavedLookup(store, Processed(u, rt), rt, "strategy_preset");
    assert KindOf("strategy_preset") == TextSetting;
  }

  /** No two preset parameters map to the same setting, and none to `strategy_preset`. */
  lemma PresetTargetsDistinct()
    ensures DistinctTargets(PresetKeyMap)
    ensures forall i :: 0 <= i < |PresetKeyMap| ==> PresetKeyMap[i].1 != "strategy_preset"
  {
  }

  /**
   * `.get(value, value)`: a known period code becomes its name and any other
   * text, a name or an unknown code, is kept as it is.
   */
  lemma TimeframeTranslated(raw: string, rt: Builtins)
    requires '#' !in raw
    ensures raw in TimeframeCodes ==> PresetValue("TimeFrame", raw, rt) == Str(TimeframeCodes[raw])
    ensures raw !in TimeframeCodes ==> PresetValue("TimeFrame", raw, rt) == Str(raw)
    ensures PresetValue("TimeFrame", "16387", rt) == Str("H3")
    ensures PresetValue("TimeFrame", "H4", rt) == Str("H4")
    ensures PresetValue("TimeFrame", "99999", rt) == Str("99999")
  {
    assert '#' !in "16387" && '#' !in "H4" && '#' !in "99999";
    assert "H4" !in TimeframeCodes && "99999" !in TimeframeCodes;
  }

  // ---------------------------------------------------------------------------
  // The settings form

  const FormNumericKeys: seq<string> := ["max_daily_trades", "risk_percent", "stop_loss_pips", "take_profit_pips", "minimum_signal_strength"]

  predicate DistinctKeys(keys: seq<string>) {
    forall i, j :: 0 <= i < j < |keys| ==> keys[i] != keys[j]
  }

  /** Each box of `keys` becomes true exactly when it was sent as 'on'; an unsent one becomes false. */
  function CheckBoxes(d: Items, keys: seq<string>): Items
    decreases |keys|
  {
    if keys == [] then d
    else CheckBoxes(Set(d, keys[0], Bool(Get(d, keys[0]) == Some(Str("on")))), keys[1..])
  }

  lemma {:induction false} CheckBoxesGet(d: Items, keys: seq<string>, k: string)
    requires DistinctKeys(keys)
    ensures Get(CheckBoxes(d, keys), k) == if k in keys then Some(Bool(Get(d, k) == Some(Str("on")))) else Get(d, k)
    decreases |keys|
  {
    if keys != [] {
      var d' := Set(d, keys[0], Bool(Get(d, keys[0]) == Some(Str("on"))));
      assert DistinctKeys(keys[1..]) by {
        forall i, j | 0 <= i < j < |keys[1..]| ensures keys[1..][i] != keys[1..][j] {
          assert keys[1..][i] == keys[i + 1] && keys[1..][j] == keys[j + 1];
        }
      }
      CheckBoxesGet(d', keys[1..], k);
      assert k in keys <==> k == keys[0] || k in keys[1..];
      assert keys[0] !in keys[1..] by {
        forall i | 0 <= i < |keys[1..]| ensures keys[1..][i] != keys[0] {
          assert keys[1..][i] == keys[i + 1];
        }
      }
    }
  }

  /** A numeric field: a float when it holds '.', an integer otherwise, and kept when it does not parse. */
  function FormNumber(v: Option<Value>, rt: Builtins): Option<Value> {
    match v
    case Some(Str(s)) =>
      if '.' in s then (match rt.parseFloat(s) case Some(x) => Some(Float(x)) case None => v)
      else (match rt.parseInt(s) case Some(i) => Some(Int(i)) case None => v)
    case _ => v
  }

  function Numbers(d: Items, keys: seq<string>, rt: Builtins): Items
    decreases |keys|
  {
    if keys == [] then d
    else
      var k := keys[0];
      var n := FormNumber(Get(d, k), rt);
      Numbers(if n != Get(d, k) then Set(d, k, n.value) else d, keys[1..], rt)
  }

  /** A converted field converts no further, so a key listed twice is converted once. */
  lemma FormNumberIdempotent(v: Option<Value>, rt: Builtins)
    ensures FormNumber(FormNumber(v, rt), rt) == FormNumber(v, rt)
  {
  }

  lemma {:induction false} NumbersGet(d: Items, keys: seq<string>, rt: Builtins, k: string)
    ensures Get(Numbers(d, keys, rt), k) == if k in keys then FormNumber(Get(d, k), rt) else Get(d, k)
    decreases |keys|
  {
    if keys != [] {
      var j := keys[0];
      var n := FormNumber(Get(d, j), rt);
      var d' := if n != Get(d, j) then Set(d, j, n.value) else d;
      assert Get(d', j) == n;
      NumbersGet(d', keys[1..], rt, k);
      FormNumberIdempotent(Get(d, j), rt);
      assert k in keys <==> k == j || k in keys[1..];
    }
  }

  /** The first value sent for a form field, if the field was sent at all. */
  function FirstField(form: seq<(string, string)>, key: string): Option<string>
    decreases |form|
  {
    if form == [] then None
    else if form[0].0 == key then Some(form[0].1)
    else FirstField(form[1..], key)
  }

  /** `request.form.to_dict()`: one text item per field name, in the order the names first appear. */
  function FormItems(form: seq<(string, string)>): Items {
    FormItemsFrom(form, {})
  }

  /** Walks the pairs in order and skips a pair whose name is in `seen`, the names already taken. */
  function FormItemsFrom(form: seq<(string, string)>, seen: set<string>): Items
    decreases |form|
  {
    if form == [] then []
    else if form[0].0 in seen then FormItemsFrom(form[1..], seen)
    else [(form[0].0, Str(form[0].1))] + FormItemsFrom(form[1..], seen + {form[0].0})
  }

  /** A field sent several times keeps the first value sent, as `MultiDict.to_dict()` does; a field not sent is absent. */
  lemma FormItemsFirst(form: seq<(string, string)>, key: string)
    ensures Get(FormItems(form), key) == if FirstField(form, key).Some? then Some(Str(FirstField(form, key).value)) else None
  {
    FormItemsFromFirst(form, {}, key);
  }

  lemma {:induction false} FormItemsFromFirst(form: seq<(string, string)>, seen: set<string>, key: string)
    ensures key in seen ==> Get(FormItemsFrom(form, seen), key) == None
    ensures key !in seen ==>
      Get(FormItemsFrom(form, seen), key) == if FirstField(form, key).Some? then Some(Str(FirstField(form, key).value)) else None
    decreases |form|
  {
    if form != [] {
      var k0 := form[0].0;
      if k0 in seen {
        FormItemsFromFirst(form[1..], seen, key);
      } else {
        var rest := FormItemsFrom(form[1..], seen + {k0});
        FormItemsFromFirst(form[1..], seen + {k0}, key);
        GetAppend([(k0, Str(form[0].1))], rest, key);
        assert Get([(k0, Str(form[0].1))], key) == if k0 == key then Some(Str(form[0].1)) else None;
      }
    }
  }

  /** The update a POST of the settings form makes, from the form's fields. */
  function FormSettings(form: seq<(string, string)>, rt: Builtins): Items {
    Numbers(CheckBoxes(FormItems(form), BoolKeys), FormNumericKeys, rt)
  }

  /** Through the form, a flag is on exactly when the first value sent for its box was 'on'. */
  lemma FormFlag(form: seq<(string, string)>, rt: Builtins, key: string)
    requires key in BoolKeys
    ensures Get(FormSettings(form, rt), key) == Some(Bool(FirstField(form, key) == Some("on")))
  {
    KeysDisjoint();
    FormItemsFirst(form, key);
    CheckBoxesGet(FormItems(form), BoolKeys, key);
    NumbersGet(CheckBoxes(FormItems(form), BoolKeys), FormNumericKeys, rt, key);
  }

  /** A decimal typed first into an integer field reaches the update as a float, which the update truncates toward zero. */
  lemma FormDecimal(form: seq<(string, string)>, rt: Builtins, key: string, s: string, x: real)
    requires key in IntKeys && FirstField(form, key) == Some(s) && '.' in s && rt.parseFloat(s) == Some(x)
    ensures Get(FormSettings(form, rt), key) == Some(Float(x))
    ensures UpdatedValue(key, Float(x), rt) == Int(Truncate(x))
  {
    KeysDisjoint();
    FormItemsFirst(form, key);
    CheckBoxesGet(FormItems(form), BoolKeys, key);
    NumbersGet(CheckBoxes(FormItems(form), BoolKeys), FormNumericKeys, rt, key);
    IntOfFloat(key, x, rt);
  }

  /** A box sent as 'on' and then as 'off' is on, and a number field sent as 3 and then 7 holds 3. */
  lemma DuplicateFieldFirstWins(rt: Builtins)
    ensures Get(FormSettings([("enable_news_filter", "on"), ("enable_news_filter", "off")], rt), "enable_news_filter") == Some(Bool(true))
    ensures Get(FormItems([("max_daily_trades", "3"), ("max_daily_trades", "7")]), "max_daily_trades") == Some(Str("3"))
  {
    var flags := [("enable_news_filter", "on"), ("enable_news_filter", "off")];
    assert FirstField(flags, "enable_news_filter") == Some("on");
    FormFlag(flags, rt, "enable_news_filter");
    var trades := [("max_daily_trades", "3"), ("max_daily_trades", "7")];
    assert FirstField(trades, "max_daily_trades") == Some("3");
    FormItemsFirst(trades, "max_daily_trades");
  }

  lemma IntOfFloat(key: string, x: real, rt: Builtins)
    requires key in IntKeys
    ensures UpdatedValue(key, Float(x), rt) == Int(Truncate(x))
  {
    assert KindOf(key) == IntSetting;
  }

  /** The lists of flag and number keys do not overlap; every integer key is a numeric form field. */
  lemma KeysDisjoint()
    ensures DistinctKeys(BoolKeys)
    ensures forall k :: k in IntKeys ==> k !in BoolKeys && k in FormNumericKeys
    ensures forall k :: k in BoolKeys ==> k !in FormNumericKeys
  {
  }

  // ---------------------------------------------------------------------------
  // Resolving a preset name

  const StrategyPrefix: string := "STRATEGY_"

  /** The other spelling of a preset name: without the prefix when it has one, with it otherwise. */
  function Alternative(name: string): string {
    if StartsWith(name, StrategyPrefix) then name[9..] else StrategyPrefix + name
  }

  predicate CaseMatch(preset: string, name: string) {
    Lower(preset) == Lower(name) || Lower(preset) == "strategy_" + Lower(name)
  }

  /** The first preset that matches `name` ignoring case. */
  function FirstCaseMatch(names: seq<string>, name: string): Option<string>
    decreases |names|
  {
    if names == [] then None
    else if CaseMatch(names[0], name) then Some(names[0])
    else FirstCaseMatch(names[1..], name)
  }

  /** The first match is a match, in the list, with no match before it; there is none only when nothing matches. */
  lemma {:induction false} FirstCaseMatchSpec(names: seq<string>, name: string)
    ensures FirstCaseMatch(names, name).None? <==> forall i :: 0 <= i < |names| ==> !CaseMatch(names[i], name)
    ensures FirstCaseMatch(names, name).Some? ==>
              exists i :: 0 <= i < |names| && names[i] == FirstCaseMatch(names, name).value
                          && CaseMatch(names[i], name) && forall j :: 0 <= j < i ==> !CaseMatch(names[j], name)
    decreases |names|
  {
    if names != [] && !CaseMatch(names[0], name) {
      var r := FirstCaseMatch(names[1..], name);
      FirstCaseMatchSpec(names[1..], name);
      assert forall i :: 0 <= i < |names| - 1 ==> names[1..][i] == names[i + 1];
      if r.Some? {
        var i :| 0 <= i < |names| - 1 && names[1..][i] == r.value && CaseMatch(names[1..][i], name)
                 && forall j :: 0 <= j < i ==> !CaseMatch(names[1..][j], name);
        assert names[i + 1] == r.value;
      }
    } else if names != [] {
      assert names[0] == FirstCaseMatch(names, name).value;
    }
  }

  /**
   * The preset `/load_preset/<name>` loads: the name itself, else its other
   * spelling, else the first preset that matches ignoring case; None is a 404.
   */
  function Resolve(names: seq<string>, name: string): (r: Option<string>)
    ensures r.Some? ==> r.value in names
    ensures name in names ==> r == Some(name)
    ensures name !in names && Alternative(name) in names ==> r == Some(Alternative(name))
    ensures r.None? <==> name !in names && Alternative(name) !in names &&
                         forall i :: 0 <= i < |names| ==> !CaseMatch(names[i], name)
  {
    FirstCaseMatchSpec(names, name);
    if name in names then Some(name)
    else if Alternative(name) in names then Some(Alternative(name))
    else FirstCaseMatch(names, name)
  }

  /** The two spellings swap back, unless the name carried the prefix twice. */
  lemma AlternativeSwapsBack(name: string)
    ensures !StartsWith(name, StrategyPrefix) ==> Alternative(Alternative(name)) == name
    ensures StartsWith(name, StrategyPrefix) && !StartsWith(name[9..], StrategyPrefix) ==>
              Alternative(Alternative(name)) == name
  {
    if !StartsWith(name, StrategyPrefix) {
      var a := StrategyPrefix + name;
      assert StartsWith(a, StrategyPrefix);
      assert a[9..] == name;
    } else {
      assert name == StrategyPrefix + name[9..];
    }
  }
}
