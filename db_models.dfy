/**
 * The store's schema: the rows of the `signals`, `bot_status` and `presets`
 * tables with their column defaults, the dictionaries `to_dict` makes of them,
 * and the rewriting of DATABASE_URL that adds connection-keepalive parameters.
 */
module DbModels {
  import opened Wrappers
  import opened Text
  import opened Values

  /** One row of the `signals` table. Values keep the Python type they were given. */
  datatype SignalRow = SignalRow(
    id: nat,
    symbol: Value,
    direction: Value,
    strength: Value,
    entryPrice: Value,
    stopLoss: Value,
    takeProfit: Value,
    reason: Value,
    sentimentData: Option<string>,
    createdAt: Time,
    executed: bool,
    executionTime: Option<Time>)

  /** `Signal(...)` with the given columns; `created_at`, `executed` and `execution_time` take their defaults. */
  function NewSignal(id: nat, symbol: Value, direction: Value, strength: Value, entryPrice: Value,
                     stopLoss: Value, takeProfit: Value, reason: Value, sentimentData: Option<string>,
                     now: Time): (r: SignalRow)
    ensures !r.executed && r.executionTime == None && r.createdAt == now
  {
    SignalRow(id, symbol, direction, strength, entryPrice, stopLoss, takeProfit, reason,
              sentimentData, now, false, None)
  }

  /** The dictionary `Signal.to_dict` returns. */
  datatype SignalView = SignalView(
    id: nat,
    symbol: Value,
    direction: Value,
    strength: Value,
    entryPrice: Value,
    stopLoss: Value,
    takeProfit: Value,
    reason: Value,
    time: string,
    executed: bool,
    sentiment: Option<Value>)   // None: the dictionary has no 'sentiment' key

  const EmptyDict: Value := Dict(map[])

  /** `Signal.to_dict`: sentiment appears only for non-empty stored text, and undecodable text reads as `{}`. */
  function SignalToDict(row: SignalRow, rt: Builtins): (v: SignalView)
    ensures v.sentiment.Some? <==> row.sentimentData.Some? && row.sentimentData.value != ""
    ensures v.sentiment.Some? && rt.jsonLoads(row.sentimentData.value).None? ==> v.sentiment == Some(EmptyDict)
    ensures v.sentiment.Some? && rt.jsonLoads(row.sentimentData.value).Some? ==>
              v.sentiment == rt.jsonLoads(row.sentimentData.value)
    ensures v.id == row.id && v.executed == row.executed && v.time == rt.formatTime(row.createdAt)
    ensures v.symbol == row.symbol && v.direction == row.direction && v.strength == row.strength
    ensures v.entryPrice == row.entryPrice && v.stopLoss == row.stopLoss && v.takeProfit == row.takeProfit
    ensures v.reason == row.reason
  {
    var sentiment :=
      match row.sentimentData
      case Some(text) =>
        if text != "" then Some(rt.jsonLoads(text).GetOr(EmptyDict)) else None
      case None => None;
    SignalView(row.id, row.symbol, row.direction, row.strength, row.entryPrice, row.stopLoss,
               row.takeProfit, row.reason, rt.formatTime(row.createdAt), row.executed, sentiment)
  }

  /** The single row of the `bot_status` table. */
  datatype BotStatus = BotStatus(
    running: bool,
    connected: bool,
    lastUpdate: Time,
    botVersion: string,
    accountBalance: real,
    totalTradesToday: int,
    totalSignalsToday: int)

  /** `BotStatus()`: every column at its default. */
  function NewBotStatus(now: Time): (s: BotStatus)
    ensures s.running && !s.connected && s.lastUpdate == now
    ensures s.botVersion == "1.0" && s.accountBalance == 10000.0
    ensures s.totalTradesToday == 0 && s.totalSignalsToday == 0
  {
    BotStatus(true, false, now, "1.0", 10000.0, 0, 0)
  }

  /** The dictionary `BotStatus.to_dict` returns. */
  datatype StatusView = StatusView(
    running: bool,
    connected: bool,
    lastUpdate: string,
    botVersion: string,
    accountBalance: real,
    totalTradesToday: int,
    totalSignalsToday: int)

  /** `BotStatus.to_dict`: the columns other than `id`, with `last_update` formatted. */
  function StatusToDict(s: BotStatus, rt: Builtins): (v: StatusView)
    ensures v.lastUpdate == rt.formatTime(s.lastUpdate)
    ensures v.totalTradesToday == s.totalTradesToday && v.totalSignalsToday == s.totalSignalsToday
    ensures v.running == s.running && v.connected == s.connected && v.accountBalance == s.accountBalance
    ensures v.botVersion == s.botVersion
  {
    StatusView(s.running, s.connected, rt.formatTime(s.lastUpdate), s.botVersion,
               s.accountBalance, s.totalTradesToday, s.totalSignalsToday)
  }

  /** One row of the `presets` table; `parameters` is the decoded JSON object. */
  datatype PresetRow = PresetRow(name: string, parameters: map<string, string>, description: Option<string>)

  // ---------------------------------------------------------------------------
  // DATABASE_URL: connection parameters added at import time

  const QueryParams: seq<(string, string)> := [
    ("connect_timeout", "10"),
    ("keepalives", "1"),
    ("keepalives_idle", "5"),
    ("keepalives_interval", "2"),
    ("keepalives_count", "2")
  ]

  function ParamText(p: (string, string)): string {
    p.0 + "=" + p.1
  }

  /** The name of one `name=value` query parameter, if it has a '='. */
  function NameOf(param: string): set<string> {
    if '=' in param then {Before(param, '=')} else {}
  }

  /** The set `existing_param_names` built from the parameters of a query. */
  function NamesOf(params: seq<string>): set<string> {
    if params == [] then {} else NamesOf(params[..|params| - 1]) + NameOf(params[|params| - 1])
  }

  /** The `&name=value` text for each table entry whose name is not in `names`, in table order. */
  function MissingParams(table: seq<(string, string)>, names: set<string>): string {
    if table == [] then ""
    else (if table[0].0 in names then "" else "&" + ParamText(table[0])) + MissingParams(table[1..], names)
  }

  /** The `name=value` texts of the whole table, in order. */
  function ParamTexts(table: seq<(string, string)>): (r: seq<string>)
    ensures |r| == |table| && forall k :: 0 <= k < |table| ==> r[k] == ParamText(table[k])
  {
    if table == [] then [] else [ParamText(table[0])] + ParamTexts(table[1..])
  }

  function AllParamsQuery(): string {
    Join(ParamTexts(QueryParams), "&")
  }

  /** What DATABASE_URL becomes. */
  function MergedUrl(url: Option<string>): Option<string> {
    match url
    case None => None
    case Some(u) =>
      if !Contains(u, "postgresql") then url
      else if '?' in u then Some(u + MissingParams(QueryParams, NamesOf(Split(After(u, '?'), '&'))))
      else Some(u + "?" + AllParamsQuery())
  }

  /** The loop that collects `existing_param_names`. */
  method CollectParamNames(existing: seq<string>) returns (names: set<string>)
    ensures names == NamesOf(existing)
  {
    names := {};
    var i := 0;
    while i < |existing|
      invariant 0 <= i <= |existing|
      invariant names == NamesOf(existing[..i])
    {
      assert existing[..i + 1][..i] == existing[..i];
      if '=' in existing[i] {
        names := names + {Before(existing[i], '=')};
      }
      i := i + 1;
    }
    assert existing[..i] == existing;
  }

  /** The loop that appends `&name=value` for each table entry not already named. */
  method AppendMissing(u: string, table: seq<(string, string)>, names: set<string>) returns (merged: string)
    ensures merged == u + MissingParams(table, names)
  {
    merged := u;
    var j := 0;
    while j < |table|
      invariant 0 <= j <= |table|
      invariant u + MissingParams(table, names) == merged + MissingParams(table[j..], names)
    {
      assert table[j..][1..] == table[j + 1..];
      if table[j].0 !in names {
        merged := merged + ("&" + ParamText(table[j]));
      }
      j := j + 1;
    }
  }

  /** The module-level rewrite of DATABASE_URL. */
  method AddConnectionParams(url: Option<string>) returns (r: Option<string>)
    ensures r == MergedUrl(url)
  {
    if url.None? || !Contains(url.value, "postgresql") {
      return url;
    }
    var u := url.value;
    if '?' in u {
      var names := CollectParamNames(Split(After(u, '?'), '&'));
      var merged := AppendMissing(u, QueryParams, names);
      r := Some(merged);
    } else {
      r := Some(u + "?" + AllParamsQuery());
    }
  }

  // ---------------------------------------------------------------------------
  // Properties of the rewrite

  /** Table entries that survive a round trip through `name=value&...` text. */
  predicate PlainTable(table: seq<(string, string)>) {
    forall k :: 0 <= k < |table| ==> '&' !in table[k].0 && '=' !in table[k].0 && '&' !in table[k].1
  }

  /** The names `MissingParams` adds. */
  function AddedNames(table: seq<(string, string)>, names: set<string>): set<string> {
    if table == [] then {}
    else (if table[0].0 in names then {} else {table[0].0}) + AddedNames(table[1..], names)
  }

  lemma {:induction false} NamesOfAppend(a: seq<string>, b: seq<string>)
    ensures NamesOf(a + b) == NamesOf(a) + NamesOf(b)
    decreases |b|
  {
    if b == [] {
      assert a + b == a;
    } else {
      var b' := b[..|b| - 1];
      assert (a + b)[..|a + b| - 1] == a + b';
      NamesOfAppend(a, b');
      assert b[..|b| - 1] == b';
    }
  }

  lemma NameOfParamText(p: (string, string))
    requires '=' !in p.0
    ensures NameOf(ParamText(p)) == {p.0}
  {
    assert ParamText(p) == p.0 + ("=" + p.1);
    FindAppend(p.0, "=" + p.1, '=');
    assert ParamText(p)[|p.0|] == '=';
  }

  /** Appending one `&name=value` adds exactly that name. */
  lemma AppendParamNames(q: string, p: (string, string))
    requires '&' !in p.0 && '=' !in p.0 && '&' !in p.1
    ensures NamesOf(Split(q + "&" + ParamText(p), '&')) == NamesOf(Split(q, '&')) + {p.0}
  {
    var pt := ParamText(p);
    assert q + "&" + pt == q + ['&'] + pt;
    SplitAppend(q, '&', pt);
    assert '&' !in pt;
    assert Split(pt, '&') == [pt];
    NamesOfAppend(Split(q, '&'), [pt]);
    assert [pt][..0] == [];
    NameOfParamText(p);
  }

  lemma {:induction false} NamesAfterMissing(q: string, table: seq<(string, string)>, names: set<string>, x: string)
    requires PlainTable(table)
    ensures x in NamesOf(Split(q + MissingParams(table, names), '&'))
            <==> x in NamesOf(Split(q, '&')) || x in AddedNames(table, names)
    decreases |table|
  {
    if table == [] {
      assert q + MissingParams(table, names) == q;
    } else {
      var q' := MissingStep(q, table, names);
      PlainRest(table);
      NamesAfterMissing(q', table[1..], names, x);
      if table[0].0 !in names {
        AppendParamNames(q, table[0]);
      }
    }
  }

  /** The query after the first table entry is considered. */
  lemma MissingStep(q: string, table: seq<(string, string)>, names: set<string>) returns (q': string)
    requires table != []
    ensures q' == if table[0].0 in names then q else q + "&" + ParamText(table[0])
    ensures q + MissingParams(table, names) == q' + MissingParams(table[1..], names)
    ensures AddedNames(table, names) == (if table[0].0 in names then {} else {table[0].0}) + AddedNames(table[1..], names)
  {
    var m := MissingParams(table[1..], names);
    if table[0].0 in names {
      q' := q;
      assert MissingParams(table, names) == "" + m && "" + m == m;
    } else {
      var x := "&" + ParamText(table[0]);
      q' := q + x;
      assert MissingParams(table, names) == x + m;
      assert q + (x + m) == q' + m;
      assert q' == q + "&" + ParamText(table[0]);
    }
  }

  lemma PlainRest(table: seq<(string, string)>)
    requires table != [] && PlainTable(table)
    ensures PlainTable(table[1..])
  {
    var rest := table[1..];
    forall k | 0 <= k < |rest| ensures '&' !in rest[k].0 && '=' !in rest[k].0 && '&' !in rest[k].1 {
      assert rest[k] == table[k + 1];
    }
  }

  lemma {:induction false} AddedNamesCover(table: seq<(string, string)>, names: set<string>, k: nat)
    requires k < |table|
    ensures table[k].0 in names + AddedNames(table, names)
    decreases k
  {
    if k > 0 {
      AddedNamesCover(table[1..], names, k - 1);
    }
  }

  lemma {:induction false} NothingMissing(table: seq<(string, string)>, names: set<string>)
    requires forall k :: 0 <= k < |table| ==> table[k].0 in names
    ensures MissingParams(table, names) == ""
    decreases |table|
  {
    if table != [] {
      assert forall k :: 0 <= k < |table[1..]| ==> table[1..][k] == table[k + 1];
      NothingMissing(table[1..], names);
    }
  }

  lemma {:induction false} NamesOfHas(params: seq<string>, k: nat)
    requires k < |params| && '=' in params[k]
    ensures Before(params[k], '=') in NamesOf(params)
    decreases |params|
  {
    if k < |params| - 1 {
      assert params[..|params| - 1][k] == params[k];
      NamesOfHas(params[..|params| - 1], k);
    }
  }

  lemma {:induction false} SplitJoin(parts: seq<string>)
    requires parts != []
    requires forall k :: 0 <= k < |parts| ==> '&' !in parts[k]
    ensures Split(Join(parts, "&"), '&') == parts
    decreases |parts|
  {
    var p := parts[0];
    SplitSingle(p, '&');
    if |parts| > 1 {
      var rest := parts[1..];
      assert forall k :: 0 <= k < |rest| ==> rest[k] == parts[k + 1];
      SplitJoin(rest);
      JoinStep(p, rest);
      assert parts == [p] + rest;
    }
  }

  /** Splitting `p&rest` where `p` has no '&' gives `p` and the split of `rest`. */
  lemma JoinStep(p: string, rest: seq<string>)
    requires rest != [] && '&' !in p
    ensures Split(Join([p] + rest, "&"), '&') == [p] + Split(Join(rest, "&"), '&')
  {
    var j := Join(rest, "&");
    assert ([p] + rest)[1..] == rest;
    assert Join([p] + rest, "&") == p + ['&'] + j;
    SplitAppend(p, '&', j);
    SplitSingle(p, '&');
  }

  lemma SplitSingle(s: string, c: char)
    requires c !in s
    ensures Split(s, c) == [s]
  {
  }

  lemma {:induction false} ContainsExtend(u: string, t: string, x: string)
    requires Contains(u, x)
    ensures Contains(u + t, x)
    decreases |u|
  {
    if x <= u {
      assert x <= u + t;
    } else {
      assert u != [];
      assert (u + t)[1..] == u[1..] + t;
      ContainsExtend(u[1..], t, x);
    }
  }

  lemma QueryParamsPlain()
    ensures PlainTable(QueryParams)
  {
  }

  /** Every table name appears among the names of the full query text. */
  lemma AllParamsNamed()
    ensures forall k :: 0 <= k < |QueryParams| ==> QueryParams[k].0 in NamesOf(Split(AllParamsQuery(), '&'))
  {
    QueryParamsPlain();
    TableNamed(QueryParams);
  }

  lemma TableNamed(table: seq<(string, string)>)
    requires table != [] && PlainTable(table)
    ensures forall k :: 0 <= k < |table| ==> table[k].0 in NamesOf(Split(Join(ParamTexts(table), "&"), '&'))
  {
    var parts := ParamTexts(table);
    forall k | 0 <= k < |parts|
      ensures '&' !in parts[k]
    {
      assert parts[k] == table[k].0 + "=" + table[k].1;
    }
    SplitJoin(parts);
    forall k | 0 <= k < |table|
      ensures table[k].0 in NamesOf(parts)
    {
      NameOfParamText(table[k]);
      NamesOfHas(parts, k);
    }
  }

  /** The query of a URL that already has one, after the rewrite. */
  lemma AfterMerged(u: string, added: string)
    requires '?' in u
    ensures '?' in u + added && After(u + added, '?') == After(u, '?') + added
  {
    FindAppend(u, added, '?');
  }

  lemma AfterFresh(u: string, q: string)
    requires '?' !in u
    ensures '?' in u + "?" + q && After(u + "?" + q, '?') == q
  {
    assert u + "?" + q == u + ("?" + q);
    FindAppend(u, "?" + q, '?');
    assert (u + "?" + q)[|u|] == '?';
  }

  lemma MergedQueryIdempotent(u: string)
    requires Contains(u, "postgresql") && '?' in u
    ensures MergedUrl(MergedUrl(Some(u))) == MergedUrl(Some(u))
  {
    var names := NamesOf(Split(After(u, '?'), '&'));
    var added := MissingParams(QueryParams, names);
    var m := u + added;
    assert MergedUrl(Some(u)) == Some(m);
    ContainsExtend(u, added, "postgresql");
    AfterMerged(u, added);
    QueryParamsPlain();
    var names' := NamesOf(Split(After(m, '?'), '&'));
    forall k | 0 <= k < |QueryParams| ensures QueryParams[k].0 in names' {
      NamesAfterMissing(After(u, '?'), QueryParams, names, QueryParams[k].0);
      AddedNamesCover(QueryParams, names, k);
    }
    NothingMissing(QueryParams, names');
    assert MergedUrl(Some(m)) == Some(m + "");
    assert m + "" == m;
  }

  lemma MergedFreshIdempotent(u: string)
    requires Contains(u, "postgresql") && '?' !in u
    ensures MergedUrl(MergedUrl(Some(u))) == MergedUrl(Some(u))
  {
    var q := AllParamsQuery();
    var m := u + "?" + q;
    assert MergedUrl(Some(u)) == Some(m);
    assert m == u + ("?" + q);
    ContainsExtend(u, "?" + q, "postgresql");
    AfterFresh(u, q);
    AllParamsNamed();
    var names' := NamesOf(Split(After(m, '?'), '&'));
    NothingMissing(QueryParams, names');
    assert MergedUrl(Some(m)) == Some(m + "");
    assert m + "" == m;
  }

  /** Rewriting a rewritten DATABASE_URL changes nothing: every added name is then present. */
  lemma MergedUrlIdempotent(url: Option<string>)
    ensures MergedUrl(MergedUrl(url)) == MergedUrl(url)
  {
    if url.Some? && Contains(url.value, "postgresql") {
      if '?' in url.value {
        MergedQueryIdempotent(url.value);
      } else {
        MergedFreshIdempotent(url.value);
      }
    }
  }
}
