/**
 * Timing of operations (`PerformanceMonitor`) and their classification
 * against per-operation budgets (`PerformanceBudgetMonitor`).
 *
 * A monitor keeps the operations started and not yet ended, by id, in the order
 * a JavaScript `Map` keeps them. The clock (`performance.now()`) is a
 * parameter of each call, in milliseconds. What the optional storage service
 * records is kept as the list of rows it has been handed successfully.
 */
module Performance {
  import opened Wrappers
  import opened Errors
  import opened Assoc

  /** An operation's status: `'success'`, `'error'` or `'timeout'`. */
  datatype Status = Success | Error | Timeout

  /** A started operation: when, what, and the metadata given. */
  datatype Metric = Metric(startTime: real, operation: string, metadata: Option<seq<(string, Value)>>)

  /** A row handed to `trackOperation`. */
  datatype Stored = Stored(operation: string, duration: int, status: Status, metadata: Option<seq<(string, Value)>>)

  /** `Math.round`: the nearest integer, halves going up. */
  function Round(x: real): (n: int)
    ensures x - 0.5 < n as real <= x + 0.5
  {
    (x + 0.5).Floor
  }

  /** The monitor's metrics, and the rows stored so far. */
  datatype Monitor = Monitor(metrics: seq<(string, Metric)>, stored: seq<Stored>)

  /** `start(operationId, operation, metadata)` at time `now`: the entry for the id is set,
      replacing any earlier one. */
  function StartSpec(mon: Monitor, id: string, operation: string, metadata: Option<seq<(string, Value)>>, now: real): (r: Monitor)
    requires DistinctKeys(mon.metrics)
    ensures DistinctKeys(r.metrics) && r.stored == mon.stored
  {
    mon.(metrics := Put(mon.metrics, id, Metric(now, operation, metadata)))
  }

  /** `end(operationId, status)` at time `now`, with or without a service, the service's
      insert failing or not: the duration, and the monitor afterwards. */
  function EndSpec(mon: Monitor, id: string, status: Status, now: real, hasService: bool, serviceFails: bool): (real, Monitor)
  {
    match Get(mon.metrics, id)
    case None => (0.0, mon)
    case Some(m) =>
      var duration := now - m.startTime;
      var row := if hasService && !serviceFails then [Stored(m.operation, Round(duration), status, m.metadata)] else [];
      (duration, Monitor(Remove(mon.metrics, id), mon.stored + row))
  }

  /** Ending an unknown id gives 0 and changes nothing. Ending a known one gives the time
      since its start; that id alone is removed; a row with the rounded duration, the
      status and the operation's metadata is stored when a service is present and its
      insert works, and nothing is stored otherwise. */
  lemma EndFacts(mon: Monitor, id: string, status: Status, now: real, hasService: bool, serviceFails: bool)
    requires DistinctKeys(mon.metrics)
    ensures var (duration, after) := EndSpec(mon, id, status, now, hasService, serviceFails);
            && (id !in Keys(mon.metrics) ==> duration == 0.0 && after == mon)
            && (id in Keys(mon.metrics) ==>
                  var m := Get(mon.metrics, id).value;
                  && duration == now - m.startTime
                  && Get(after.metrics, id).None?
                  && (forall k :: k != id ==> Get(after.metrics, k) == Get(mon.metrics, k))
                  && DistinctKeys(after.metrics)
                  && after.stored == mon.stored + (if hasService && !serviceFails
                                                   then [Stored(m.operation, Round(duration), status, m.metadata)] else []))
  {
    if id in Keys(mon.metrics) {
      var after := EndSpec(mon, id, status, now, hasService, serviceFails).1;
      RemoveDistinct(mon.metrics, id);
      GetRemove(mon.metrics, id, id);
      forall k | k != id ensures Get(after.metrics, k) == Get(mon.metrics, k) {
        GetRemove(mon.metrics, id, k);
      }
    }
  }

  /** Starting and then ending an id times the interval between the two calls, records the
      operation under its own name and metadata, and leaves every other id as it was. */
  lemma StartThenEnd(mon: Monitor, id: string, operation: string, metadata: Option<seq<(string, Value)>>,
                     started: real, status: Status, ended: real, hasService: bool, serviceFails: bool)
    requires DistinctKeys(mon.metrics)
    ensures var (duration, after) := EndSpec(StartSpec(mon, id, operation, metadata, started), id, status, ended, hasService, serviceFails);
            && duration == ended - started
            && Get(after.metrics, id).None?
            && (forall k :: k != id ==> Get(after.metrics, k) == Get(mon.metrics, k))
            && after.stored == mon.stored + (if hasService && !serviceFails
                                             then [Stored(operation, Round(ended - started), status, metadata)] else [])
  {
    var mid := StartSpec(mon, id, operation, metadata, started);
    GetPut(mon.metrics, id, Metric(started, operation, metadata), id);
    EndFacts(mid, id, status, ended, hasService, serviceFails);
    forall k | k != id ensures Get(mid.metrics, k) == Get(mon.metrics, k) {
      GetPut(mon.metrics, id, Metric(started, operation, metadata), k);
    }
  }

  /** The monitor object. */
  class PerformanceMonitor {
    var metrics: seq<(string, Metric)>
    var stored: seq<Stored>
    const hasService: bool

    ghost predicate Valid()
      reads this
    {
      DistinctKeys(metrics)
    }

    function Value(): Monitor
      reads this
    {
      Monitor(metrics, stored)
    }

    constructor (hasService: bool)
      ensures Valid() && this.hasService == hasService && metrics == [] && stored == []
    {
      this.hasService := hasService;
      metrics := [];
      stored := [];
    }

    method Start(id: string, operation: string, metadata: Option<seq<(string, Value)>>, now: real)
      requires Valid()
      modifies this
      ensures Valid() && Value() == StartSpec(old(Value()), id, operation, metadata, now)
    {
      metrics := Put(metrics, id, Metric(now, operation, metadata));
    }

    method End(id: string, status: Status, now: real, serviceFails: bool) returns (duration: real)
      requires Valid()
      modifies this
      ensures Valid() && (duration, Value()) == EndSpec(old(Value()), id, status, now, hasService, serviceFails)
    {
      var metric := Get(metrics, id);
      if metric.None? {
        return 0.0;
      }
      duration := now - metric.value.startTime;
      var row := if hasService && !serviceFails then [Stored(metric.value.operation, Round(duration), status, metric.value.metadata)] else [];
      stored := stored + row;
      RemoveDistinct(metrics, id);
      metrics := Remove(metrics, id);
    }

    /** `getCurrentMetrics`: the started operations, oldest id first. */
    method GetCurrentMetrics() returns (r: seq<Metric>)
      ensures r == Values(metrics)
    {
      r := Values(metrics);
    }

    /** `measureAsync(operation, fn, monitor, metadata)` with `fn` settling as `outcome`:
        the operation is timed under `id` from `started` to `ended`, with status `success`
        when it resolved and `error` when it rejected, and its outcome is passed on as it
        was. */
    method MeasureAsync<T>(id: string, operation: string, metadata: Option<seq<(string, Value)>>,
                           outcome: Result<T, Thrown>, started: real, ended: real, serviceFails: bool)
      returns (r: Result<T, Thrown>)
      requires Valid()
      modifies this
      ensures Valid() && r == outcome
      ensures Value() == EndSpec(StartSpec(old(Value()), id, operation, metadata, started), id,
                                 if outcome.Ok? then Success else Error, ended, hasService, serviceFails).1
    {
      Start(id, operation, metadata, started);
      var status := if outcome.Ok? then Success else Error;
      var _ := End(id, status, ended, serviceFails);
      r := outcome;
    }
  }

  /** What `measureAsync` records: the status is `success` exactly when the operation
      resolved. */
  lemma MeasureStatus<T>(mon: Monitor, id: string, operation: string, metadata: Option<seq<(string, Value)>>,
                         outcome: Result<T, Thrown>, started: real, ended: real)
    requires DistinctKeys(mon.metrics)
    ensures var after := EndSpec(StartSpec(mon, id, operation, metadata, started), id,
                                 if outcome.Ok? then Success else Error, ended, true, false).1;
            && |after.stored| == |mon.stored| + 1
            && (after.stored[|mon.stored|].status == Success <==> outcome.Ok?)
            && after.stored[|mon.stored|].duration == Round(ended - started)
  {
    StartThenEnd(mon, id, operation, metadata, started, if outcome.Ok? then Success else Error, ended, true, false);
  }

  // ---------------------------------------------------------------------------
  // Budgets

  datatype Budget = Budget(operation: string, warningThreshold: real, errorThreshold: real)

  /** `'pass'`, `'warning'` or `'error'`. */
  datatype Verdict = Pass | Warning | Exceeded

  /** `checkBudget` given the budget found for the operation, if any. */
  function Classify(b: Option<Budget>, duration: real): Verdict {
    if b.None? then Pass
    else if duration > b.value.errorThreshold then Exceeded
    else if duration > b.value.warningThreshold then Warning
    else Pass
  }

  function Rank(v: Verdict): nat {
    match v
    case Pass => 0
    case Warning => 1
    case Exceeded => 2
  }

  /** With the warning threshold at most the error threshold, a longer duration never gets
      a milder verdict; reaching a threshold exactly is still within it. */
  lemma ClassifyMonotone(b: Budget, d1: real, d2: real)
    requires b.warningThreshold <= b.errorThreshold && d1 <= d2
    ensures Rank(Classify(Some(b), d1)) <= Rank(Classify(Some(b), d2))
    ensures Classify(Some(b), b.errorThreshold) != Exceeded
    ensures Classify(Some(b), b.warningThreshold) == Pass
  {
  }

  /** The error threshold is checked first: with the thresholds the wrong way round a
      warning is never given. */
  lemma ErrorCheckedFirst(b: Budget, d: real)
    requires b.warningThreshold > b.errorThreshold
    ensures Classify(Some(b), d) != Warning
  {
  }

  /** `addBudget` for each budget of `bs` in turn. */
  function AddAll(m: seq<(string, Budget)>, bs: seq<Budget>): (r: seq<(string, Budget)>)
    requires DistinctKeys(m)
    ensures DistinctKeys(r)
    decreases |bs|
  {
    if bs == [] then m
    else
      var b := bs[|bs| - 1];
      Put(AddAll(m, bs[..|bs| - 1]), b.operation, b)
  }

  /** The budgets the global budget monitor is given. */
  const DefaultBudgets: seq<Budget> := [
    Budget("post_generation", 30000.0, 60000.0),
    Budget("web_scraping", 10000.0, 30000.0),
    Budget("analysis", 5000.0, 15000.0),
    Budget("strategy", 5000.0, 15000.0),
    Budget("page_render", 1000.0, 3000.0),
    Budget("api_request", 2000.0, 5000.0)]

  /** Adding budgets for operations that are all different, to no budgets, lists them in
      order. */
  lemma {:induction false} AddAllFresh(bs: seq<Budget>)
    requires forall i, j :: 0 <= i < j < |bs| ==> bs[i].operation != bs[j].operation
    ensures var r := AddAll([], bs);
            |r| == |bs| && forall i :: 0 <= i < |bs| ==> r[i] == (bs[i].operation, bs[i])
    decreases |bs|
  {
    if bs != [] {
      var init := bs[..|bs| - 1];
      AddAllFresh(init);
      var before := AddAll([], init);
      var b := bs[|bs| - 1];
      assert b.operation !in Keys(before) by {
        forall i | 0 <= i < |before| ensures Keys(before)[i] != b.operation {
          assert Keys(before)[i] == init[i].operation == bs[i].operation;
        }
      }
      var r := AddAll([], bs);
      assert r == Put(before, b.operation, b);
      PutShape(before, b.operation, b);
      assert |Keys(r)| == |before| + 1;
      forall i | 0 <= i < |bs| ensures r[i] == (bs[i].operation, bs[i]) {
        if i < |init| {
          assert before[i] == (init[i].operation, init[i]) && init[i] == bs[i];
        }
      }
    }
  }

  /** The global budget monitor holds exactly the six default budgets, one per operation,
      in their order. */
  lemma GlobalBudgets()
    ensures var m := AddAll([], DefaultBudgets);
            && |m| == 6
            && (forall i :: 0 <= i < 6 ==> m[i] == (DefaultBudgets[i].operation, DefaultBudgets[i]))
            && forall i :: 0 <= i < 6 ==> Get(m, DefaultBudgets[i].operation) == Some(DefaultBudgets[i])
  {
    DefaultsDistinct();
    AddAllFresh(DefaultBudgets);
    var m := AddAll([], DefaultBudgets);
    forall i | 0 <= i < 6 ensures Get(m, DefaultBudgets[i].operation) == Some(DefaultBudgets[i]) {
      GetAt(m, i);
    }
  }

  lemma DefaultsDistinct()
    ensures forall i, j :: 0 <= i < j < |DefaultBudgets| ==> DefaultBudgets[i].operation != DefaultBudgets[j].operation
  {
    var ops := seq(6, i requires 0 <= i < 6 => DefaultBudgets[i].operation);
    assert ops == ["post_generation", "web_scraping", "analysis", "strategy", "page_render", "api_request"];
    assert forall i :: 0 <= i < 6 ==> |ops[i]| >= 8;
    assert ops[0][0] == 'p' && ops[1][0] == 'w' && ops[2][0] == 'a' && ops[3][0] == 's' && ops[4][0] == 'p' && ops[5][0] == 'a';
    assert ops[0][1] == 'o' && ops[4][1] == 'a';
    assert ops[2][1] == 'n' && ops[5][1] == 'p';
  }

  /** Generating a post for 45 seconds is a warning and for 61 an error; an operation with
      no budget always passes. */
  lemma DefaultVerdicts(d: real)
    ensures var m := AddAll([], DefaultBudgets);
            && Classify(Get(m, "post_generation"), 45000.0) == Warning
            && Classify(Get(m, "post_generation"), 61000.0) == Exceeded
            && Classify(Get(m, "page_render"), 1000.0) == Pass
            && Classify(Get(m, "unknown_operation"), d) == Pass
  {
    GlobalBudgets();
    var m := AddAll([], DefaultBudgets);
    assert DefaultBudgets[0].operation == "post_generation";
    assert DefaultBudgets[4].operation == "page_render";
    assert "unknown_operation" !in Keys(m);
  }

  /** The budget monitor object. */
  class PerformanceBudgetMonitor {
    var budgets: seq<(string, Budget)>

    ghost predicate Valid()
      reads this
    {
      DistinctKeys(budgets)
    }

    constructor ()
      ensures Valid() && budgets == []
    {
      budgets := [];
    }

    /** `addBudget`: replaces the operation's budget where it stands, or appends it. */
    method AddBudget(b: Budget)
      requires Valid()
      modifies this
      ensures Valid() && budgets == Put(old(budgets), b.operation, b)
    {
      budgets := Put(budgets, b.operation, b);
    }

    method CheckBudget(operation: string, duration: real) returns (v: Verdict)
      ensures v == Classify(Get(budgets, operation), duration)
    {
      var budget := Get(budgets, operation);
      if budget.None? {
        return Pass;
      }
      if duration > budget.value.errorThreshold {
        return Exceeded;
      }
      if duration > budget.value.warningThreshold {
        return Warning;
      }
      v := Pass;
    }

    method GetBudgets() returns (r: seq<Budget>)
      ensures r == Values(budgets)
    {
      r := Values(budgets);
    }

    /** `defaultPerformanceBudgets.forEach(budget => monitor.addBudget(budget))`. */
    method AddDefaults()
      requires Valid()
      modifies this
      ensures Valid() && budgets == AddAll(old(budgets), DefaultBudgets)
    {
      var i := 0;
      while i < |DefaultBudgets|
        invariant 0 <= i <= |DefaultBudgets|
        invariant Valid() && budgets == AddAll(old(budgets), DefaultBudgets[..i])
      {
        assert DefaultBudgets[..i + 1][..i] == DefaultBudgets[..i];
        AddBudget(DefaultBudgets[i]);
        i := i + 1;
      }
      assert DefaultBudgets[..i] == DefaultBudgets;
    }
  }

  /** `getGlobalBudgetMonitor` on its first call: a new monitor given the defaults. */
  method GlobalBudgetMonitor() returns (m: PerformanceBudgetMonitor)
    ensures fresh(m) && m.Valid() && m.budgets == AddAll([], DefaultBudgets)
  {
    m := new PerformanceBudgetMonitor();
    m.AddDefaults();
  }
}
