/**
 * The durable store behind the bot: a retry loop around every database
 * operation, the four tables held in memory, and the importer of `.set`
 * preset files.
 *
 * Faults are part of the model's input. The store is given, for its n-th
 * operation, the list of errors that operation's first attempts raise; an
 * attempt past the end of that list reaches the database and does what the
 * operation's body says. A failed attempt is rolled back, so the tables change
 * only when an attempt succeeds.
 */
module DbManagement {
  import opened Wrappers
  import opened Text
  import opened Values
  import opened DbModels

  // ---------------------------------------------------------------------------
  // The retry loop

  const MaxRetries: nat := 3
  const RetryDelay: real := 1.0

  /** The exceptions an operation can raise. */
  datatype DbError =
    | OperationalError(message: string)  // sqlalchemy.exc.OperationalError
    | SqlError(message: string)          // any other sqlalchemy.exc.SQLAlchemyError
    | OtherError(message: string)        // anything else, such as a KeyError
  {
    /** The retry loop catches `OperationalError` and `SQLAlchemyError` only. */
    predicate Retryable() {
      !OtherError?
    }

    /** A lost connection: the session registry is cleared before the next attempt. */
    predicate ConnectionLost() {
      OperationalError? && Contains(Lower(message), "connection")
    }
  }

  /** The errors raised by an operation's successive attempts, first to last. */
  type FaultPlan = seq<DbError>

  /** How a run of the retry loop ends: the attempt (from 0) that returned, or the error it raised. */
  datatype Attempt = Succeeded(attempt: nat) | Raised(error: DbError)

  function Min(a: nat, b: nat): nat {
    if a <= b then a else b
  }

  /** The number of leading failures the loop catches. */
  function LeadingRetryable(plan: FaultPlan): (k: nat)
    ensures k <= |plan|
    ensures forall j :: 0 <= j < k ==> plan[j].Retryable()
    ensures k < |plan| ==> !plan[k].Retryable()
  {
    if plan == [] || !plan[0].Retryable() then 0 else 1 + LeadingRetryable(plan[1..])
  }

  /** How the loop ends for a given plan. */
  function RetryOutcome(plan: FaultPlan): Attempt {
    var k := LeadingRetryable(plan);
    if k >= MaxRetries then Raised(plan[MaxRetries - 1])
    else if k < |plan| then Raised(plan[k])
    else Succeeded(k)
  }

  /** How many times the operation is attempted. */
  function RetryCalls(plan: FaultPlan): nat {
    var k := LeadingRetryable(plan);
    if k >= MaxRetries then MaxRetries else k + 1
  }

  /** The caught failures that another attempt follows. */
  function Waits(plan: FaultPlan): nat {
    Min(LeadingRetryable(plan), MaxRetries - 1)
  }

  /** The sleeps after the first `n` failures: `RETRY_DELAY * n` after the n-th one. */
  function Backoff(n: nat): (r: seq<real>)
    ensures |r| == n
    ensures forall i :: 0 <= i < n ==> r[i] == RetryDelay * (i + 1) as real
  {
    if n == 0 then [] else Backoff(n - 1) + [RetryDelay * n as real]
  }

  function RetryDelays(plan: FaultPlan): seq<real> {
    Backoff(Waits(plan))
  }

  /** How many of the first `n` errors are lost connections. */
  function LostAmong(plan: FaultPlan, n: nat): nat
    requires n <= |plan|
  {
    if n == 0 then 0 else LostAmong(plan, n - 1) + (if plan[n - 1].ConnectionLost() then 1 else 0)
  }

  /** How many times the session registry is cleared. */
  function RetryResets(plan: FaultPlan): nat {
    LostAmong(plan, Waits(plan))
  }

  /**
   * `_execute_with_retry`: attempt the operation until it returns, raises an
   * error the loop does not catch, or has failed `MaxRetries` times; then
   * re-raise the last error. Also reports the sleeps taken and how often the
   * session registry was cleared.
   */
  method ExecuteWithRetry(plan: FaultPlan) returns (outcome: Attempt, calls: nat, delays: seq<real>, resets: nat)
    ensures outcome == RetryOutcome(plan)
    ensures calls == RetryCalls(plan) && 1 <= calls <= MaxRetries
    ensures delays == RetryDelays(plan) && |delays| == calls - 1
    ensures resets == RetryResets(plan) && resets <= |delays|
  {
    var retryCount := 0;
    var lastError: Option<DbError> := None;
    calls, delays, resets := 0, [], 0;
    while retryCount < MaxRetries
      invariant retryCount <= MaxRetries && retryCount <= LeadingRetryable(plan)
      invariant calls == retryCount
      invariant lastError == if retryCount == 0 then None else Some(plan[retryCount - 1])
      invariant delays == Backoff(Min(retryCount, MaxRetries - 1))
      invariant resets == LostAmong(plan, Min(retryCount, MaxRetries - 1))
      invariant resets <= |delays|
    {
      calls := calls + 1;
      if retryCount == |plan| {
        outcome := Succeeded(retryCount);
        return;
      }
      var e := plan[retryCount];
      if !e.Retryable() {
        outcome := Raised(e);
        return;
      }
      lastError := Some(e);
      retryCount := retryCount + 1;
      if retryCount < MaxRetries {
        delays := delays + [RetryDelay * retryCount as real];
        if e.ConnectionLost() {
          resets := resets + 1;
        }
      }
    }
    outcome := Raised(lastError.value);
  }

  // ---------------------------------------------------------------------------
  // Properties of the retry loop

  /** An attempt that gets through, after fewer than `MaxRetries` caught failures, is the result. */
  lemma FirstSuccessReturned(plan: FaultPlan)
    requires |plan| < MaxRetries
    requires forall j :: 0 <= j < |plan| ==> plan[j].Retryable()
    ensures RetryOutcome(plan) == Succeeded(|plan|)
    ensures RetryCalls(plan) == |plan| + 1
  {
    LeadingAll(plan);
  }

  lemma {:induction false} LeadingAll(plan: FaultPlan)
    requires forall j :: 0 <= j < |plan| ==> plan[j].Retryable()
    ensures LeadingRetryable(plan) == |plan|
    decreases |plan|
  {
    if plan != [] {
      LeadingAll(plan[1..]);
    }
  }

  /** An error the loop does not catch propagates from the attempt that raised it. */
  lemma ForeignErrorPropagates(plan: FaultPlan, j: nat)
    requires j < MaxRetries && j < |plan| && !plan[j].Retryable()
    requires forall i :: 0 <= i < j ==> plan[i].Retryable()
    ensures RetryOutcome(plan) == Raised(plan[j])
    ensures RetryCalls(plan) == j + 1
  {
    LeadingStops(plan, j);
  }

  lemma {:induction false} LeadingStops(plan: FaultPlan, j: nat)
    requires j < |plan| && !plan[j].Retryable()
    requires forall i :: 0 <= i < j ==> plan[i].Retryable()
    ensures LeadingRetryable(plan) == j
    decreases j
  {
    if j > 0 {
      LeadingStops(plan[1..], j - 1);
    }
  }

  /** Three caught failures: the third error is raised, after sleeping 1.0 and then 2.0 seconds. */
  lemma ThirdFailureRaised(plan: FaultPlan)
    requires |plan| >= MaxRetries
    requires forall j :: 0 <= j < MaxRetries ==> plan[j].Retryable()
    ensures RetryOutcome(plan) == Raised(plan[2])
    ensures RetryCalls(plan) == 3
    ensures RetryDelays(plan) == [1.0, 2.0]
  {
    LeadingAtLeast(plan, MaxRetries);
  }

  lemma {:induction false} LeadingAtLeast(plan: FaultPlan, n: nat)
    requires n <= |plan|
    requires forall j :: 0 <= j < n ==> plan[j].Retryable()
    ensures LeadingRetryable(plan) >= n
    decreases n
  {
    if n > 0 {
      LeadingAtLeast(plan[1..], n - 1);
    }
  }

  /** The registry is cleared only for a lost connection that another attempt follows. */
  lemma ResetsNeedLostConnection(plan: FaultPlan)
    ensures RetryResets(plan) > 0 <==> exists j :: 0 <= j < Waits(plan) && plan[j].ConnectionLost()
  {
    LostAmongPositive(plan, Waits(plan));
  }

  lemma {:induction false} LostAmongPositive(plan: FaultPlan, n: nat)
    requires n <= |plan|
    ensures LostAmong(plan, n) > 0 <==> exists j :: 0 <= j < n && plan[j].ConnectionLost()
    decreases n
  {
    if n > 0 {
      LostAmongPositive(plan, n - 1);
      if plan[n - 1].ConnectionLost() {
        assert exists j :: 0 <= j < n && plan[j].ConnectionLost();
      } else if exists j :: 0 <= j < n && plan[j].ConnectionLost() {
        var j :| 0 <= j < n && plan[j].ConnectionLost();
        assert j < n - 1;
      }
    }
  }

  /** A dropped connection and then a deadlock: the third attempt returns, after one session reset. */
  lemma TwoTransientFailures()
    ensures var plan := [OperationalError("connection lost"), SqlError("deadlock")];
      && RetryOutcome(plan) == Succeeded(2) && RetryCalls(plan) == 3
      && RetryDelays(plan) == [1.0, 2.0] && RetryResets(plan) == 1
  {
    var plan := [OperationalError("connection lost"), SqlError("deadlock")];
    assert Lower("connection lost") == "connection lost";
    assert "connection" <= "connection lost";
    assert plan[0].ConnectionLost();
    LeadingAll(plan);
  }

  /** A healthy database: the first attempt returns. */
  lemma NoFaultsFirstAttempt()
    ensures RetryOutcome([]) == Succeeded(0) && RetryCalls([]) == 1 && RetryDelays([]) == []
  {
  }

  // ---------------------------------------------------------------------------
  // The presets table, in insertion order

  /** The `presets` table: the names in the order the rows were added, and the rows by name. */
  datatype Catalog = Catalog(order: seq<string>, rows: map<string, PresetRow>)

  predicate Distinct(xs: seq<string>) {
    forall i, j :: 0 <= i < j < |xs| ==> xs[i] != xs[j]
  }

  /** `name` is unique, and the listing holds each row once. */
  ghost predicate CatalogOk(c: Catalog) {
    && Distinct(c.order)
    && (forall n :: n in c.rows <==> n in c.order)
    && (forall n :: n in c.rows ==> c.rows[n].name == n)
  }

  const EmptyCatalog: Catalog := Catalog([], map[])

  /** `if description:` for an optional text. */
  predicate GivenText(d: Option<string>) {
    d.Some? && d.value != ""
  }

  /** The row `save_preset` leaves: parameters replaced, description replaced only by a non-empty one. */
  function SavedPreset(c: Catalog, name: string, parameters: map<string, string>,
                       description: Option<string>): (row: PresetRow)
    ensures row.name == name && row.parameters == parameters
    ensures name !in c.rows ==> row.description == description
    ensures name in c.rows && GivenText(description) ==> row.description == description
    ensures name in c.rows && !GivenText(description) ==> row.description == c.rows[name].description
  {
    if name in c.rows && !GivenText(description) then PresetRow(name, parameters, c.rows[name].description)
    else PresetRow(name, parameters, description)
  }

  /** The upsert of `save_preset`: a new name goes to the end, a known one keeps its place. */
  function UpsertPreset(c: Catalog, name: string, parameters: map<string, string>,
                        description: Option<string>): (r: Catalog)
    ensures CatalogOk(c) ==> CatalogOk(r)
    ensures Lookup(r.rows, name) == Some(SavedPreset(c, name, parameters, description))
    ensures forall n :: n != name ==> Lookup(r.rows, n) == Lookup(c.rows, n)
    ensures name in c.rows ==> r.order == c.order
    ensures name !in c.rows ==> r.order == c.order + [name]
  {
    var row := SavedPreset(c, name, parameters, description);
    var r := Catalog(if name in c.rows then c.order else c.order + [name], c.rows[name := row]);
    assert CatalogOk(c) ==> Distinct(r.order) by {
      if CatalogOk(c) && name !in c.rows {
        assert name !in c.order;
      }
    }
    r
  }

  /** `xs` with every `x` taken out, the rest in order. */
  function Without(xs: seq<string>, x: string): (r: seq<string>)
    ensures forall y :: y in r <==> y in xs && y != x
    ensures Distinct(xs) ==> Distinct(r)
    ensures |r| <= |xs|
  {
    if xs == [] then []
    else
      var rest := Without(xs[1..], x);
      if xs[0] == x then rest
      else
        assert Distinct(xs) ==> Distinct(xs[1..]) && xs[0] !in xs[1..] by {
          if Distinct(xs) {
            forall k | 0 <= k < |xs| - 1 ensures xs[1..][k] != xs[0] && xs[1..][k] == xs[k + 1] {
              assert xs[1..][k] == xs[k + 1];
            }
          }
        }
        [xs[0]] + rest
  }

  /** The delete of `delete_preset`: exactly that row goes. */
  function RemovePreset(c: Catalog, name: string): (r: Catalog)
    ensures CatalogOk(c) ==> CatalogOk(r)
    ensures name !in r.rows
    ensures forall n :: n != name ==> Lookup(r.rows, n) == Lookup(c.rows, n)
    ensures r.order == Without(c.order, name)
  {
    Catalog(Without(c.order, name), c.rows - {name})
  }

  /** `get_all_presets`: each name with its parameters, in table order. */
  function PresetList(c: Catalog): (r: seq<(string, map<string, string>)>)
    ensures |r| == |c.order|
    ensures forall i :: 0 <= i < |r| ==> r[i].0 == c.order[i]
    ensures forall i :: 0 <= i < |r| && c.order[i] in c.rows ==> r[i].1 == c.rows[c.order[i]].parameters
    decreases |c.order|
  {
    if c.order == [] then []
    else
      var n := c.order[0];
      [(n, if n in c.rows then c.rows[n].parameters else map[])] + PresetList(Catalog(c.order[1..], c.rows))
  }

  // ---------------------------------------------------------------------------
  // The signals table

  /**
   * Ids count up from 1, and rows were created in order, none after `now`.
   * Stated row by row from the newest, so that each use unfolds one row.
   */
  predicate SignalsOk(rows: seq<SignalRow>, now: Time)
    decreases |rows|
  {
    rows == [] ||
    var last := rows[|rows| - 1];
    && last.id == |rows| && last.createdAt <= now
    && (|rows| >= 2 ==> rows[|rows| - 2].createdAt <= last.createdAt)
    && SignalsOk(rows[..|rows| - 1], now)
  }

  /** Row `i` has id `i + 1` and was created by `now`. */
  lemma {:induction false} SignalAt(rows: seq<SignalRow>, now: Time, i: nat)
    requires SignalsOk(rows, now) && i < |rows|
    ensures rows[i].id == i + 1 && rows[i].createdAt <= now
    decreases |rows|
  {
    if i + 1 < |rows| {
      SignalAt(rows[..|rows| - 1], now, i);
    }
  }

  /** Any earlier row is no newer than any later one. */
  lemma {:induction false} Chronological(rows: seq<SignalRow>, now: Time, i: nat, j: nat)
    requires SignalsOk(rows, now) && i <= j < |rows|
    ensures rows[i].createdAt <= rows[j].createdAt
    decreases |rows|
  {
    if j + 1 < |rows| {
      Chronological(rows[..|rows| - 1], now, i, j);
    } else if i < j {
      Chronological(rows[..|rows| - 1], now, i, j - 1);
    }
  }

  /** A later clock keeps the table well formed. */
  lemma {:induction false} SignalsLater(rows: seq<SignalRow>, now: Time, later: Time)
    requires SignalsOk(rows, now) && now <= later
    ensures SignalsOk(rows, later)
    decreases |rows|
  {
    if rows != [] {
      SignalsLater(rows[..|rows| - 1], now, later);
    }
  }

  /** Appending the next id, created at `now`, keeps the table well formed. */
  lemma SignalsAppend(rows: seq<SignalRow>, now: Time, row: SignalRow)
    requires SignalsOk(rows, now) && row.id == |rows| + 1 && row.createdAt == now
    ensures SignalsOk(rows + [row], now)
  {
    assert (rows + [row])[..|rows|] == rows;
    if rows != [] {
      SignalAt(rows, now, |rows| - 1);
    }
  }

  /** Replacing a row by one with the same id and creation time keeps the table well formed. */
  lemma {:induction false} SignalsUpdate(rows: seq<SignalRow>, now: Time, k: nat, row: SignalRow)
    requires SignalsOk(rows, now) && k < |rows| && row.id == rows[k].id && row.createdAt == rows[k].createdAt
    ensures SignalsOk(rows[k := row], now)
    decreases |rows|
  {
    var u := rows[k := row];
    if k == |rows| - 1 {
      assert u[..|u| - 1] == rows[..|rows| - 1];
    } else {
      SignalsUpdate(rows[..|rows| - 1], now, k, row);
      assert u[..|u| - 1] == rows[..|rows| - 1][k := row];
    }
  }

  /** The last `limit` rows, newest first. */
  function Newest(rows: seq<SignalRow>, limit: nat): (r: seq<SignalRow>)
    ensures |r| == Min(limit, |rows|)
    decreases limit
  {
    if limit == 0 || rows == [] then [] else [rows[|rows| - 1]] + Newest(rows[..|rows| - 1], limit - 1)
  }

  /** The `i`-th row of the window is the `i`-th newest stored row. */
  lemma {:induction false} NewestAt(rows: seq<SignalRow>, limit: nat, i: nat)
    requires i < Min(limit, |rows|)
    ensures Newest(rows, limit)[i] == rows[|rows| - 1 - i]
    decreases limit
  {
    if i > 0 {
      NewestAt(rows[..|rows| - 1], limit - 1, i - 1);
    }
  }

  /** `order_by(created_at.desc()).limit(limit)`: newest first, and no row left out is newer. */
  lemma NewestFirst(rows: seq<SignalRow>, limit: nat, now: Time)
    requires SignalsOk(rows, now)
    ensures forall i, j :: 0 <= i < j < |Newest(rows, limit)| ==>
              Newest(rows, limit)[i].createdAt >= Newest(rows, limit)[j].createdAt
    ensures forall k, i :: 0 <= k < |rows| - |Newest(rows, limit)| && 0 <= i < |Newest(rows, limit)| ==>
              rows[k].createdAt <= Newest(rows, limit)[i].createdAt
  {
    var w := Newest(rows, limit);
    forall i, j | 0 <= i < j < |w|
      ensures w[i].createdAt >= w[j].createdAt
    {
      NewestAt(rows, limit, i);
      NewestAt(rows, limit, j);
      Chronological(rows, now, |rows| - 1 - j, |rows| - 1 - i);
    }
    forall k, i | 0 <= k < |rows| - |w| && 0 <= i < |w|
      ensures rows[k].createdAt <= w[i].createdAt
    {
      NewestAt(rows, limit, i);
      Chronological(rows, now, k, |rows| - 1 - i);
    }
  }

  function Views(rows: seq<SignalRow>, rt: Builtins): (r: seq<SignalView>)
    ensures |r| == |rows|
  {
    if rows == [] then [] else [SignalToDict(rows[0], rt)] + Views(rows[1..], rt)
  }

  /** `to_dict` is applied to each row in turn. */
  lemma {:induction false} ViewsAt(rows: seq<SignalRow>, rt: Builtins, i: nat)
    requires i < |rows|
    ensures Views(rows, rt)[i] == SignalToDict(rows[i], rt)
  {
    if i > 0 {
      ViewsAt(rows[1..], rt, i - 1);
    }
  }

  /** The error a `save_signal` body raises on every attempt, if any. */
  function SignalFault(data: map<string, Value>): Option<DbError> {
    if "symbol" !in data then Some(OtherError("KeyError: 'symbol'"))
    else if "direction" !in data then Some(OtherError("KeyError: 'direction'"))
    else if "strength" !in data then Some(OtherError("KeyError: 'strength'"))
    else if "entry_price" !in data then Some(OtherError("KeyError: 'entry_price'"))
    else if data["symbol"].Null? || data["direction"].Null? || data["strength"].Null? || data["entry_price"].Null?
    then Some(SqlError("IntegrityError: null value violates not-null constraint"))
    else None
  }

  /** The row `save_signal` adds; the 'time' entry of the dictionary is not stored. */
  function SignalFrom(data: map<string, Value>, id: nat, now: Time, rt: Builtins): SignalRow
    requires SignalFault(data).None?
  {
    NewSignal(id, data["symbol"], data["direction"], data["strength"], data["entry_price"],
              Lookup(data, "stop_loss").GetOr(Null), Lookup(data, "take_profit").GetOr(Null),
              Lookup(data, "reason").GetOr(Null),
              if "sentiment" in data then Some(rt.jsonDumps(data["sentiment"])) else None, now)
  }

  /** The new row: the next id, created now, not executed, with the required entries and the optional ones or null. */
  lemma SignalFromFields(data: map<string, Value>, id: nat, now: Time, rt: Builtins)
    requires SignalFault(data).None?
    ensures var row := SignalFrom(data, id, now, rt);
            && row.id == id && row.createdAt == now && !row.executed && row.executionTime == None
            && row.symbol == data["symbol"] && row.direction == data["direction"]
            && row.strength == data["strength"] && row.entryPrice == data["entry_price"]
            && row.stopLoss == Lookup(data, "stop_loss").GetOr(Null)
            && row.takeProfit == Lookup(data, "take_profit").GetOr(Null)
            && row.reason == Lookup(data, "reason").GetOr(Null)
            && row.sentimentData == if "sentiment" in data then Some(rt.jsonDumps(data["sentiment"])) else None
  {
  }

  /** `update_signal_execution` on one row. */
  function MarkExecuted(row: SignalRow, executed: bool, now: Time): (r: SignalRow)
    ensures r.executed == executed && r.executionTime == (if executed then Some(now) else None)
    ensures r.id == row.id && r.createdAt == row.createdAt && r.symbol == row.symbol
  {
    row.(executed := executed, executionTime := if executed then Some(now) else None)
  }

  // ---------------------------------------------------------------------------
  // The status row

  /**
   * The columns `update_status` assigns from a patch. A `last_update` entry is
   * left out because the stamp overwrites it straight after the loop; an `id`
   * entry is left out too, although the source's `setattr` would rewrite the
   * primary key with it.
   */
  const PatchColumns: set<string> :=
    {"running", "connected", "bot_version", "account_balance", "total_trades_today", "total_signals_today"}

  /** The attributes of a status row: assigning any other name is skipped. */
  const StatusAttributes: set<string> := PatchColumns + {"id", "last_update"}

  /** Whether a column accepts a value of that Python type. */
  predicate Fits(column: string, v: Value) {
    if column == "running" || column == "connected" then v.Bool?
    else if column == "bot_version" then v.Str?
    else if column == "account_balance" then v.Int? || v.Float?
    else if column == "total_trades_today" || column == "total_signals_today" then v.Int?
    else true
  }

  /** Whether the commit of a patch fails because a column got a value of the wrong type. */
  predicate PatchRejected(data: map<string, Value>) {
    exists k :: k in data && k in PatchColumns && !Fits(k, data[k])
  }

  function PatchedBool(s: bool, data: map<string, Value>, column: string): bool {
    if column in data && data[column].Bool? then data[column].b else s
  }

  /** The row after the `setattr` loop and the `last_update` stamp. */
  function PatchStatus(s: BotStatus, data: map<string, Value>, now: Time): (r: BotStatus)
    ensures r.lastUpdate == now
    ensures !PatchRejected(data) ==>
      && ("running" in data ==> r.running == data["running"].b)
      && ("connected" in data ==> r.connected == data["connected"].b)
      && ("bot_version" in data ==> r.botVersion == data["bot_version"].s)
      && ("total_trades_today" in data ==> r.totalTradesToday == data["total_trades_today"].i)
      && ("total_signals_today" in data ==> r.totalSignalsToday == data["total_signals_today"].i)
      && ("account_balance" in data ==> Some(r.accountBalance) == PyFloatOf(data["account_balance"]))
    ensures "running" !in data ==> r.running == s.running
    ensures "connected" !in data ==> r.connected == s.connected
    ensures "bot_version" !in data ==> r.botVersion == s.botVersion
    ensures "account_balance" !in data ==> r.accountBalance == s.accountBalance
    ensures "total_trades_today" !in data ==> r.totalTradesToday == s.totalTradesToday
    ensures "total_signals_today" !in data ==> r.totalSignalsToday == s.totalSignalsToday
  {
    BotStatus(
      PatchedBool(s.running, data, "running"),
      PatchedBool(s.connected, data, "connected"),
      now,
      if "bot_version" in data && data["bot_version"].Str? then data["bot_version"].s else s.botVersion,
      if "account_balance" in data && PyFloatOf(data["account_balance"]).Some? && !data["account_balance"].Bool?
      then PyFloatOf(data["account_balance"]).value else s.accountBalance,
      if "total_trades_today" in data && data["total_trades_today"].Int? then data["total_trades_today"].i
      else s.totalTradesToday,
      if "total_signals_today" in data && data["total_signals_today"].Int? then data["total_signals_today"].i
      else s.totalSignalsToday)
  }

  /** Names that are not attributes of the row have no effect. */
  lemma PatchIgnoresOtherNames(s: BotStatus, data: map<string, Value>, now: Time, k: string)
    requires k in data && k !in PatchColumns
    ensures PatchStatus(s, data - {k}, now) == PatchStatus(s, data, now)
    ensures PatchRejected(data - {k}) == PatchRejected(data)
  {
    var d := data - {k};
    assert forall c :: c in PatchColumns ==> (c in d <==> c in data) && (c in d ==> d[c] == data[c]);
    if PatchRejected(data) {
      var j :| j in data && j in PatchColumns && !Fits(j, data[j]);
      assert j in d;
    }
  }

  /** Applying the same patch twice is applying it once. */
  lemma PatchIdempotent(s: BotStatus, data: map<string, Value>, now: Time)
    ensures PatchStatus(PatchStatus(s, data, now), data, now) == PatchStatus(s, data, now)
  {
  }

  // ---------------------------------------------------------------------------
  // `.set` preset files

  /** One line of a `.set` file: stripped; blank lines, `#` comments and lines with no '=' give nothing. */
  function ParseLine(line: string): (r: Option<(string, string)>)
    ensures r.Some? <==> var t := Strip(line); t != "" && t[0] != '#' && '=' in t
    ensures r.Some? ==> r.value.0 == Strip(Before(Strip(line), '=')) && r.value.1 == Strip(After(Strip(line), '='))
    ensures r.Some? ==> '=' !in r.value.0
  {
    var t := Strip(line);
    if t == "" || t[0] == '#' then None
    else if '=' in t then
      BeforeAfter(t, '=');
      var key := Before(t, '=');
      assert Strip(key) == TrimEnd(TrimStart(key));
      NoCharInInfix(key, Strip(key), '=');
      Some((Strip(key), Strip(After(t, '='))))
    else None
  }

  lemma NoCharInInfix(s: string, r: string, c: char)
    requires c !in s && r == TrimEnd(TrimStart(s))
    ensures c !in r
  {
    var a := TrimStart(s);
    assert a == s[|s| - |a|..];
    assert r == a[..|r|];
  }

  /** The dictionary built from a file's lines: a later line for a key overwrites an earlier one. */
  function PresetOf(lines: seq<string>): map<string, string>
    decreases |lines|
  {
    if lines == [] then map[]
    else
      AddEntry(PresetOf(lines[..|lines| - 1]), ParseLine(lines[|lines| - 1]))
  }

  /** `preset_data[key] = value` for a parsed line, nothing for a skipped one. */
  function AddEntry(m: map<string, string>, entry: Option<(string, string)>): map<string, string> {
    match entry
    case None => m
    case Some(kv) => m[kv.0 := kv.1]
  }

  /** The loop of `_parse_preset_file` and `import_presets_from_files` over the lines of one file. */
  method ParsePresetLines(lines: seq<string>) returns (data: map<string, string>)
    ensures data == PresetOf(lines)
  {
    data := map[];
    var i := 0;
    while i < |lines|
      invariant 0 <= i <= |lines|
      invariant data == PresetOf(lines[..i])
    {
      assert lines[..i + 1][..i] == lines[..i];
      var entry := ParseLine(lines[i]);
      assert PresetOf(lines[..i + 1]) == AddEntry(PresetOf(lines[..i]), entry);
      if entry.Some? {
        data := data[entry.value.0 := entry.value.1];
      }
      i := i + 1;
    }
    assert lines[..i] == lines;
  }

  /** The parsed lines, in order. */
  function Parsed(lines: seq<string>): (es: seq<Option<(string, string)>>)
    ensures |es| == |lines| && forall i :: 0 <= i < |lines| ==> es[i] == ParseLine(lines[i])
  {
    if lines == [] then [] else Parsed(lines[..|lines| - 1]) + [ParseLine(lines[|lines| - 1])]
  }

  /** The dictionary built from parsed lines. */
  function Fold(es: seq<Option<(string, string)>>): map<string, string>
    decreases |es|
  {
    if es == [] then map[] else AddEntry(Fold(es[..|es| - 1]), es[|es| - 1])
  }

  lemma {:induction false} PresetOfIsFold(lines: seq<string>)
    ensures PresetOf(lines) == Fold(Parsed(lines))
    decreases |lines|
  {
    if lines != [] {
      PresetOfIsFold(lines[..|lines| - 1]);
      assert Parsed(lines)[..|lines| - 1] == Parsed(lines[..|lines| - 1]);
    }
  }

  lemma {:induction false} FoldKeys(es: seq<Option<(string, string)>>, k: string)
    ensures k in Fold(es) <==> exists i :: 0 <= i < |es| && es[i].Some? && es[i].value.0 == k
    decreases |es|
  {
    if es != [] {
      var init := es[..|es| - 1];
      FoldKeys(init, k);
      if exists i :: 0 <= i < |es| && es[i].Some? && es[i].value.0 == k {
        var i :| 0 <= i < |es| && es[i].Some? && es[i].value.0 == k;
        if i < |init| {
          assert init[i] == es[i];
        }
      }
      if exists i :: 0 <= i < |init| && init[i].Some? && init[i].value.0 == k {
        var i :| 0 <= i < |init| && init[i].Some? && init[i].value.0 == k;
        assert es[i] == init[i];
      }
    }
  }

  lemma {:induction false} FoldLast(es: seq<Option<(string, string)>>, i: nat)
    requires i < |es| && es[i].Some?
    requires forall j :: i < j < |es| ==> es[j].None? || es[j].value.0 != es[i].value.0
    ensures es[i].value.0 in Fold(es) && Fold(es)[es[i].value.0] == es[i].value.1
    decreases |es|
  {
    if i < |es| - 1 {
      var init := es[..|es| - 1];
      assert init[i] == es[i];
      assert forall j :: i < j < |init| ==> init[j] == es[j];
      FoldLast(init, i);
    }
  }

  /** A key is in the dictionary iff some line defines it. */
  lemma PresetKeys(lines: seq<string>, k: string)
    ensures k in PresetOf(lines) <==>
            exists i :: 0 <= i < |lines| && ParseLine(lines[i]).Some? && ParseLine(lines[i]).value.0 == k
  {
    PresetOfIsFold(lines);
    FoldKeys(Parsed(lines), k);
  }

  /** The value of a key is the one on the last line that defines it. */
  lemma LastDefinitionWins(lines: seq<string>, i: nat)
    requires i < |lines| && ParseLine(lines[i]).Some?
    requires forall j :: i < j < |lines| ==> ParseLine(lines[j]).None? || ParseLine(lines[j]).value.0 != ParseLine(lines[i]).value.0
    ensures ParseLine(lines[i]).value.0 in PresetOf(lines)
    ensures PresetOf(lines)[ParseLine(lines[i]).value.0] == ParseLine(lines[i]).value.1
  {
    PresetOfIsFold(lines);
    FoldLast(Parsed(lines), i);
  }

  /** `os.path.splitext(name)[0]` for a name ending with ".set". */
  function Stem(name: string): (r: string)
    requires EndsWith(name, ".set")
    ensures r == name || r == name[..|name| - 4]
    ensures (exists i :: 0 <= i < |name| - 4 && name[i] != '.') ==> r == name[..|name| - 4]
  {
    var root := name[..|name| - 4];
    if forall i :: 0 <= i < |root| ==> root[i] == '.' then name else root
  }

  lemma StemExamples()
    ensures Stem("Scalping.set") == "Scalping"
    ensures Stem("a.b.set") == "a.b"
    ensures Stem(".set") == ".set"
    ensures Stem("...set") == "...set"
  {
    assert "Scalping.set"[..8][0] != '.';
    assert "a.b.set"[..3][0] != '.';
  }

  /** A file as the importer finds it. */
  datatype FileContent = Unreadable(reason: string) | Lines(lines: seq<string>)

  /** The presets directory: absent, or its entries in `os.listdir` order. */
  datatype Directory = Missing | Listing(entries: seq<(string, FileContent)>)

  // ---------------------------------------------------------------------------
  // The store

  /** The result an operation returns, or the error it raises. */
  function Lift<T>(a: Attempt, v: T): (r: Result<T, DbError>)
    ensures a.Succeeded? <==> r.Ok?
    ensures r.Ok? ==> r.value == v
    ensures r.Err? ==> r.error == a.error
  {
    match a
    case Succeeded(_) => Ok(v)
    case Raised(e) => Err(e)
  }

  /** `total_signals_today += 1` and the `last_update` stamp of `save_signal`, when the row exists. */
  function CountSignal(status: Option<BotStatus>, now: Time): (r: Option<BotStatus>)
    ensures r.Some? <==> status.Some?
    ensures r.Some? ==> r.value == status.value.(totalSignalsToday := status.value.totalSignalsToday + 1, lastUpdate := now)
  {
    match status
    case None => None
    case Some(s) => Some(s.(totalSignalsToday := s.totalSignalsToday + 1, lastUpdate := now))
  }

  /** `total_trades_today += 1`, when the row exists. */
  function CountTrade(status: Option<BotStatus>): (r: Option<BotStatus>)
    ensures r.Some? <==> status.Some?
    ensures r.Some? ==> r.value == status.value.(totalTradesToday := status.value.totalTradesToday + 1)
  {
    match status
    case None => None
    case Some(s) => Some(s.(totalTradesToday := s.totalTradesToday + 1))
  }

  /** `BotStatus.to_dict()`, or `{}` when there is no row. */
  function StatusDict(status: Option<BotStatus>, rt: Builtins): Option<StatusView> {
    match status
    case None => None
    case Some(s) => Some(StatusToDict(s, rt))
  }

  /** `DBManager`: the four tables, the database clock and the fault schedule. */
  class DBManager {
    /** The errors raised by the first attempts of the n-th operation. */
    const faults: nat -> FaultPlan
    const rt: Builtins
    /** How many operations have run. */
    var ops: nat
    /** The database clock, `datetime.now()`. */
    var now: Time
    var settings: map<string, string>
    var presets: Catalog
    var signals: seq<SignalRow>
    var status: Option<BotStatus>

    ghost predicate Valid()
      reads this`presets, this`signals, this`now
    {
      CatalogOk(presets) && SignalsOk(signals, now)
    }

    /** A database whose operations from `ops` on raise nothing. */
    ghost predicate Healthy()
      reads this`ops
    {
      forall n :: ops <= n ==> faults(n) == []
    }

    /** A new, empty database. */
    constructor(faults: nat -> FaultPlan, rt: Builtins, now: Time)
      ensures Valid() && this.faults == faults && this.rt == rt && this.now == now && ops == 0
      ensures settings == map[] && presets == EmptyCatalog && signals == [] && status == None
    {
      this.faults := faults;
      this.rt := rt;
      this.now := now;
      ops := 0;
      settings := map[];
      presets := EmptyCatalog;
      signals := [];
      status := None;
    }

    /**
     * The attempts of the n-th operation: its injected faults, then the error its body raises each time, if any.
     * An error the retry loop does not catch (a missing key) is raised before the body reaches the database,
     * so no injected fault comes before it.
     */
    function PlanAt(n: nat, intrinsic: Option<DbError>): FaultPlan {
      match intrinsic
      case None => faults(n)
      case Some(e) => if e.Retryable() then faults(n) + [e, e, e] else [e]
    }

    /** How the n-th operation ends. */
    function Fate(n: nat, intrinsic: Option<DbError>): Attempt {
      RetryOutcome(PlanAt(n, intrinsic))
    }

    /** An operation whose body always raises never returns. */
    lemma IntrinsicAlwaysRaises(n: nat, e: DbError)
      ensures Fate(n, Some(e)).Raised?
      ensures faults(n) == [] || !e.Retryable() ==> Fate(n, Some(e)) == Raised(e)
    {
      var plan := PlanAt(n, Some(e));
      if e.Retryable() {
        assert |plan| >= MaxRetries;
        if faults(n) == [] {
          LeadingAtLeast(plan, MaxRetries);
        }
      } else {
        LeadingStops(plan, 0);
      }
    }

    /** On a healthy database an operation whose body raises nothing returns at the first attempt. */
    lemma HealthyReturns(n: nat)
      requires faults(n) == []
      ensures Fate(n, None) == Succeeded(0)
    {
    }

    /** One run of `_execute_with_retry`; the sleeps and session resets it reports are not kept. */
    method Run(intrinsic: Option<DbError>) returns (outcome: Attempt)
      modifies this`ops
      ensures ops == old(ops) + 1
      ensures outcome == Fate(old(ops), intrinsic)
      ensures old(Healthy()) && intrinsic.None? ==> outcome == Succeeded(0)
    {
      if Healthy() {
        HealthyReturns(ops);
      }
      var calls, delays, resets;
      outcome, calls, delays, resets := ExecuteWithRetry(PlanAt(ops, intrinsic));
      ops := ops + 1;
    }

    /** `__init__`: create the tables, then the status row if there is none. */
    method Initialize() returns (r: Result<bool, DbError>)
      requires Valid()
      modifies this`ops, this`status
      ensures Valid()
      ensures old(Healthy()) ==> r.Ok?
      ensures Fate(old(ops), None).Raised? ==>
                r == Err(Fate(old(ops), None).error) && ops == old(ops) + 1 && status == old(status)
      ensures Fate(old(ops), None).Succeeded? ==>
                && ops == old(ops) + 2
                && r == Lift(Fate(old(ops) + 1, None), true)
                && status == (if r.Ok? && old(status).None? then Some(NewBotStatus(now)) else old(status))
    {
      var created := Run(None);
      if created.Raised? {
        return Err(created.error);
      }
      var init := Run(None);
      if init.Raised? {
        return Err(init.error);
      }
      if status.None? {
        status := Some(NewBotStatus(now));
      }
      r := Ok(true);
    }

    /** The clock moves forward. */
    method Advance(dt: nat)
      requires Valid()
      modifies this`now
      ensures Valid() && now == old(now) + dt
    {
      SignalsLater(signals, now, now + dt);
      now := now + dt;
    }

    method GetSetting(key: string) returns (r: Result<Option<string>, DbError>)
      modifies this`ops
      ensures ops == old(ops) + 1
      ensures r == Lift(Fate(old(ops), None), Lookup(settings, key))
      ensures old(Healthy()) ==> r.Ok?
    {
      var a := Run(None);
      r := Lift(a, Lookup(settings, key));
    }

    /** An upsert on `key`. */
    method SaveSettings(key: string, value: string) returns (r: Result<bool, DbError>)
      modifies this`ops, this`settings
      ensures ops == old(ops) + 1
      ensures r == Lift(Fate(old(ops), None), true)
      ensures old(Healthy()) ==> r.Ok?
      ensures settings == if r.Ok? then old(settings)[key := value] else old(settings)
    {
      var a := Run(None);
      if a.Succeeded? {
        settings := settings[key := value];
      }
      r := Lift(a, true);
    }

    /** True iff the key existed; only that entry goes. */
    method DeleteSettings(key: string) returns (r: Result<bool, DbError>)
      modifies this`ops, this`settings
      ensures ops == old(ops) + 1
      ensures r == Lift(Fate(old(ops), None), key in old(settings))
      ensures old(Healthy()) ==> r.Ok?
      ensures settings == if r.Ok? then old(settings) - {key} else old(settings)
    {
      var a := Run(None);
      var existed := key in settings;
      if a.Succeeded? {
        settings := settings - {key};
      }
      r := Lift(a, existed);
    }

    /** The parameters of a preset, `{}` for an unknown name. */
    method GetPreset(name: string) returns (r: Result<map<string, string>, DbError>)
      modifies this`ops
      ensures ops == old(ops) + 1
      ensures r == Lift(Fate(old(ops), None), if name in presets.rows then presets.rows[name].parameters else map[])
      ensures old(Healthy()) ==> r.Ok?
    {
      var a := Run(None);
      r := Lift(a, if name in presets.rows then presets.rows[name].parameters else map[]);
    }

    method GetAllPresets() returns (r: Result<seq<(string, map<string, string>)>, DbError>)
      modifies this`ops
      ensures ops == old(ops) + 1
      ensures r == Lift(Fate(old(ops), None), PresetList(presets))
      ensures old(Healthy()) ==> r.Ok?
    {
      var a := Run(None);
      r := Lift(a, PresetList(presets));
    }

    method SavePreset(name: string, parameters: map<string, string>, description: Option<string>)
      returns (r: Result<bool, DbError>)
      requires Valid()
      modifies this`ops, this`presets
      ensures Valid()
      ensures ops == old(ops) + 1
      ensures r == Lift(Fate(old(ops), None), true)
      ensures old(Healthy()) ==> r.Ok?
      ensures presets == if r.Ok? then UpsertPreset(old(presets), name, parameters, description) else old(presets)
    {
      var a := Run(None);
      if a.Succeeded? {
        presets := UpsertPreset(presets, name, parameters, description);
      }
      r := Lift(a, true);
    }

    method DeletePreset(name: string) returns (r: Result<bool, DbError>)
      requires Valid()
      modifies this`ops, this`presets
      ensures Valid()
      ensures ops == old(ops) + 1
      ensures r == Lift(Fate(old(ops), None), name in old(presets).rows)
      ensures old(Healthy()) ==> r.Ok?
      ensures presets == if r == Ok(true) then RemovePreset(old(presets), name) else old(presets)
    {
      var a := Run(None);
      var existed := name in presets.rows;
      if a.Succeeded? && existed {
        presets := RemovePreset(presets, name);
      }
      r := Lift(a, existed);
    }

    /** Appends one signal and returns its id; a missing required key raises at once. */
    method SaveSignal(data: map<string, Value>) returns (r: Result<nat, DbError>)
      requires Valid()
      modifies this`ops, this`signals, this`status
      ensures Valid()
      ensures ops == old(ops) + 1
      ensures r == Lift(Fate(old(ops), SignalFault(data)), |old(signals)| + 1)
      ensures old(Healthy()) && SignalFault(data).None? ==> r.Ok?
      ensures SignalFault(data).Some? && SignalFault(data).value.OtherError? ==> r == Err(SignalFault(data).value)
      ensures r.Ok? ==> SignalFault(data).None?
                        && signals == old(signals) + [SignalFrom(data, |old(signals)| + 1, now, rt)]
                        && status == CountSignal(old(status), now)
      ensures r.Err? ==> signals == old(signals) && status == old(status)
    {
      var fault := SignalFault(data);
      var id := |signals| + 1;
      var a := Run(fault);
      if fault.Some? {
        IntrinsicAlwaysRaises(old(ops), fault.value);
      }
      if a.Succeeded? {
        SignalFromFields(data, id, now, rt);
        AppendSignal(SignalFrom(data, id, now, rt));
      }
      r := Lift(a, id);
    }

    /** The insert and the counter update of a `save_signal` that went through. */
    method AppendSignal(row: SignalRow)
      requires Valid() && row.id == |signals| + 1 && row.createdAt == now
      modifies this`signals, this`status
      ensures Valid()
      ensures signals == old(signals) + [row] && status == CountSignal(old(status), now)
    {
      SignalsAppend(signals, now, row);
      signals := signals + [row];
      status := CountSignal(status, now);
    }

    /** The `limit` newest signals as dictionaries. */
    method GetSignals(limit: nat) returns (r: Result<seq<SignalView>, DbError>)
      modifies this`ops
      ensures ops == old(ops) + 1
      ensures r == Lift(Fate(old(ops), None), Views(Newest(signals, limit), rt))
      ensures old(Healthy()) ==> r.Ok?
    {
      var a := Run(None);
      r := Lift(a, Views(Newest(signals, limit), rt));
    }

    /** False for an unknown id; `executed=True` counts a trade on every call. */
    method UpdateSignalExecution(signalId: int, executed: bool) returns (r: Result<bool, DbError>)
      requires Valid()
      modifies this`ops, this`signals, this`status
      ensures Valid()
      ensures ops == old(ops) + 1
      ensures r == Lift(Fate(old(ops), None), 1 <= signalId <= |old(signals)|)
      ensures old(Healthy()) ==> r.Ok?
      ensures r == Ok(true) ==>
                && signals == old(signals)[signalId - 1 := MarkExecuted(old(signals)[signalId - 1], executed, now)]
                && status == (if executed then CountTrade(old(status)) else old(status))
      ensures r != Ok(true) ==> signals == old(signals) && status == old(status)
    {
      var a := Run(None);
      var found := 1 <= signalId <= |signals|;
      if a.Succeeded? && found {
        SignalsUpdate(signals, now, signalId - 1, MarkExecuted(signals[signalId - 1], executed, now));
        signals := signals[signalId - 1 := MarkExecuted(signals[signalId - 1], executed, now)];
        if executed {
          status := CountTrade(status);
        }
      }
      r := Lift(a, found);
    }

    method GetStatus() returns (r: Result<Option<StatusView>, DbError>)
      modifies this`ops
      ensures ops == old(ops) + 1
      ensures r == Lift(Fate(old(ops), None), StatusDict(status, rt))
      ensures old(Healthy()) ==> r.Ok?
    {
      var a := Run(None);
      r := Lift(a, StatusDict(status, rt));
    }

    /** Creates the row if missing, assigns the known columns and stamps `last_update`. */
    method UpdateStatus(data: map<string, Value>) returns (r: Result<bool, DbError>)
      modifies this`ops, this`status
      ensures ops == old(ops) + 1
      ensures r == Lift(Fate(old(ops), StatusFault(data)), true)
      ensures old(Healthy()) && !PatchRejected(data) ==> r.Ok?
      ensures r.Ok? ==> !PatchRejected(data) && status == Some(PatchStatus(old(status).GetOr(NewBotStatus(now)), data, now))
      ensures r.Err? ==> status == old(status)
    {
      var fault := StatusFault(data);
      var a := Run(fault);
      if a.Succeeded? {
        if fault.Some? {
          IntrinsicAlwaysRaises(old(ops), fault.value);
          assert false;
        }
        status := Some(PatchStatus(status.GetOr(NewBotStatus(now)), data, now));
      }
      r := Lift(a, true);
    }

    /** Zeroes both counters; False when there is no row. */
    method ResetDailyCounts() returns (r: Result<bool, DbError>)
      modifies this`ops, this`status
      ensures ops == old(ops) + 1
      ensures r == Lift(Fate(old(ops), None), old(status).Some?)
      ensures old(Healthy()) ==> r.Ok?
      ensures status == if r == Ok(true) then Some(old(status).value.(totalTradesToday := 0, totalSignalsToday := 0))
                        else old(status)
    {
      var a := Run(None);
      var found := status.Some?;
      if a.Succeeded? && found {
        status := Some(status.value.(totalTradesToday := 0, totalSignalsToday := 0));
      }
      r := Lift(a, found);
    }

    /**
     * The catalog and operation count after importing `entries` from catalog `c`
     * with the n-th operation next: each readable `.set` file is one `save_preset`,
     * whose failure is swallowed.
     */
    function Imported(c: Catalog, entries: seq<(string, FileContent)>, n: nat): (r: (Catalog, nat))
      ensures CatalogOk(c) ==> CatalogOk(r.0)
      ensures r.1 >= n
      decreases |entries|
    {
      if entries == [] then (c, n)
      else
        var name := entries[0].0;
        var content := entries[0].1;
        if !EndsWith(name, ".set") || content.Unreadable? then Imported(c, entries[1..], n)
        else
          var c' := if Fate(n, None).Succeeded? then UpsertPreset(c, Stem(name), PresetOf(content.lines), None) else c;
          Imported(c', entries[1..], n + 1)
    }

    /** What importing one entry does. */
    function ImportOne(c: Catalog, entry: (string, FileContent), n: nat): (r: (Catalog, nat)) {
      if !EndsWith(entry.0, ".set") || entry.1.Unreadable? then (c, n)
      else (if Fate(n, None).Succeeded? then UpsertPreset(c, Stem(entry.0), PresetOf(entry.1.lines), None) else c, n + 1)
    }

    lemma ImportedStep(c: Catalog, entries: seq<(string, FileContent)>, n: nat)
      requires entries != []
      ensures Imported(c, entries, n) == Imported(ImportOne(c, entries[0], n).0, entries[1..], ImportOne(c, entries[0], n).1)
    {
    }

    /** One directory entry of `import_presets_from_files`. */
    method ImportEntry(name: string, content: FileContent)
      requires Valid()
      modifies this`ops, this`presets
      ensures Valid()
      ensures (presets, ops) == ImportOne(old(presets), (name, content), old(ops))
    {
      if EndsWith(name, ".set") && content.Lines? {
        var data := ParsePresetLines(content.lines);
        var _ := SavePreset(Stem(name), data, None);
      }
    }

    /** `import_presets_from_files`: False for a missing directory, otherwise every `.set` file is saved as a preset. */
    method ImportPresetsFromFiles(dir: Directory) returns (r: bool)
      requires Valid()
      modifies this`ops, this`presets
      ensures Valid()
      ensures r == dir.Listing?
      ensures dir.Missing? ==> ops == old(ops) && presets == old(presets)
      ensures dir.Listing? ==> (presets, ops) == Imported(old(presets), dir.entries, old(ops))
    {
      if dir.Missing? {
        return false;
      }
      var entries := dir.entries;
      var i := 0;
      while i < |entries|
        invariant 0 <= i <= |entries|
        invariant Valid()
        invariant Imported(presets, entries[i..], ops) == Imported(old(presets), entries, old(ops))
      {
        assert entries[i..][0] == entries[i] && entries[i..][1..] == entries[i + 1..];
        ImportedStep(presets, entries[i..], ops);
        ImportEntry(entries[i].0, entries[i].1);
        i := i + 1;
      }
      r := true;
    }
  }

  /** The error an `update_status` commit raises on every attempt, if any. */
  function StatusFault(data: map<string, Value>): Option<DbError> {
    if PatchRejected(data) then Some(SqlError("StatementError: a status column was given a value of the wrong type"))
    else None
  }
}
