/** The log-scanning loop of the `onmessage` handler in `execute/index.js`. Each
    notification names a transaction and its logs; every sync log whose pool
    qualifies and has a mirror on the other exchange triggers one `execute`
    call. A pool that does not qualify, or a missing mirror, ends the whole
    handler rather than moving on to the next log. The `execute` calls are
    recorded rather than performed. */
module MatchMaker {
  import opened Wrappers
  import PM = PoolManager

  datatype Log = Log(address: PM.Address, topics: seq<string>)

  /** A notification: the transaction hash and its logs, which may be absent. */
  datatype Event = Event(hash: string, logs: Option<seq<Log>>)

  /** One `execute(firstPair, secondPair, txHash)` call. */
  datatype ExecuteCall = ExecuteCall(firstPair: PM.Address, secondPair: PM.Address, txHash: string)

  /** How the handler ended: no logs at all, every log scanned, or a return at
      log `at` because its pool is no WETH pair or has no mirror. */
  datatype Exit = NoLogs | Scanned | NotWethPair(at: nat) | NoMirror(at: nat)

  datatype Scan = Scan(calls: seq<ExecuteCall>, exit: Exit)

  /** The log's first topic is the sync-event topic; a log without topics has
      an undefined first topic and is not one. */
  predicate IsSyncLog(log: Log, syncTopic: string) {
    |log.topics| > 0 && log.topics[0] == syncTopic
  }

  /** What the loop body does with one log. */
  datatype Step = Skip | Call(call: ExecuteCall) | StopNotWeth | StopNoMirror

  function StepOf(pm: PM.PoolManager, syncTopic: string, hash: string, log: Log): (r: Step)
    ensures r.Skip? <==> !IsSyncLog(log, syncTopic)
    ensures r.StopNotWeth? <==> IsSyncLog(log, syncTopic) && !PM.HasWeth(pm, pm.provider.pool(log.address))
    // a WETH sync log stops the handler exactly when the other factory has no mirror
    ensures var c := PM.CheckPool(pm, log.address);
      r.StopNoMirror? <==>
        IsSyncLog(log, syncTopic) && c.WethPair? && PM.CheckFactory(pm, c.factoryToCheck, c.token0, c.token1).None?
    // otherwise it calls execute(log.address, mirror, hash)
    ensures var c := PM.CheckPool(pm, log.address);
      r.Call? ==>
        && c.WethPair?
        && PM.CheckFactory(pm, c.factoryToCheck, c.token0, c.token1).Some?
        && r.call == ExecuteCall(log.address, PM.CheckFactory(pm, c.factoryToCheck, c.token0, c.token1).value, hash)
        && r.call.secondPair != PM.ZeroAddress
  {
    if !IsSyncLog(log, syncTopic) then Skip
    else
      match PM.CheckPool(pm, log.address)
      case NotWethPair => StopNotWeth
      case WethPair(token0, token1, factoryToCheck) =>
        match PM.CheckFactory(pm, factoryToCheck, token0, token1)
        case None => StopNoMirror
        case Some(secondPair) => Call(ExecuteCall(log.address, secondPair, hash))
  }

  predicate IsStop(e: Exit) {
    e.NotWethPair? || e.NoMirror?
  }

  /** The outcome of scanning `logs` from index `from` on. */
  function ScanLogs(pm: PM.PoolManager, syncTopic: string, hash: string, logs: seq<Log>, from: nat): (s: Scan)
    requires from <= |logs|
    ensures s.exit.Scanned? || IsStop(s.exit)
    ensures IsStop(s.exit) ==> from <= s.exit.at < |logs| && IsSyncLog(logs[s.exit.at], syncTopic)
    ensures |s.calls| <= |logs| - from
    ensures forall c :: c in s.calls ==> c.txHash == hash && c.secondPair != PM.ZeroAddress
    decreases |logs| - from
  {
    if from == |logs| then Scan([], Scanned)
    else
      match StepOf(pm, syncTopic, hash, logs[from])
      case Skip => ScanLogs(pm, syncTopic, hash, logs, from + 1)
      case StopNotWeth => Scan([], NotWethPair(from))
      case StopNoMirror => Scan([], NoMirror(from))
      case Call(c) =>
        var rest := ScanLogs(pm, syncTopic, hash, logs, from + 1);
        Scan([c] + rest.calls, rest.exit)
  }

  /** The index scanning stopped at, or the number of logs when it ran through. */
  function StopIndex(s: Scan, n: nat): nat {
    if IsStop(s.exit) then s.exit.at else n
  }

  /** The calls the qualifying sync logs in `logs[from..end]` make, in log order. */
  function CallsBetween(pm: PM.PoolManager, syncTopic: string, hash: string, logs: seq<Log>, from: nat, end: nat)
    : seq<ExecuteCall>
    requires from <= end <= |logs|
    decreases end - from
  {
    if from == end then []
    else
      var step := StepOf(pm, syncTopic, hash, logs[from]);
      (if step.Call? then [step.call] else []) + CallsBetween(pm, syncTopic, hash, logs, from + 1, end)
  }

  /** The scan in full: every log before the stop is skipped or makes its call,
      the calls are those logs' calls in log order, and a stop happens exactly at
      a sync log that does not qualify or has no mirror. */
  lemma {:induction false} ScanCharacterization(pm: PM.PoolManager, syncTopic: string, hash: string,
                                                logs: seq<Log>, from: nat)
    requires from <= |logs|
    ensures var s := ScanLogs(pm, syncTopic, hash, logs, from);
      var stop := StopIndex(s, |logs|);
      && from <= stop <= |logs|
      && (s.exit.Scanned? <==> stop == |logs|)
      && (forall k :: from <= k < stop ==>
            StepOf(pm, syncTopic, hash, logs[k]).Skip? || StepOf(pm, syncTopic, hash, logs[k]).Call?)
      && (s.exit.NotWethPair? ==> StepOf(pm, syncTopic, hash, logs[stop]).StopNotWeth?)
      && (s.exit.NoMirror? ==> StepOf(pm, syncTopic, hash, logs[stop]).StopNoMirror?)
      && s.calls == CallsBetween(pm, syncTopic, hash, logs, from, stop)
    decreases |logs| - from
  {
    if from < |logs| {
      var step := StepOf(pm, syncTopic, hash, logs[from]);
      if step.Skip? || step.Call? {
        ScanCharacterization(pm, syncTopic, hash, logs, from + 1);
      }
    }
  }

  /** Once the scan stops at log `at`, the logs after it are never looked at:
      any log sequence that agrees up to `at` scans the same way. */
  lemma {:induction false} LaterLogsNotExamined(pm: PM.PoolManager, syncTopic: string, hash: string,
                                                logs: seq<Log>, other: seq<Log>, from: nat)
    requires from <= |logs|
    requires IsStop(ScanLogs(pm, syncTopic, hash, logs, from).exit)
    requires ScanLogs(pm, syncTopic, hash, logs, from).exit.at < |other|
    requires forall k :: from <= k <= ScanLogs(pm, syncTopic, hash, logs, from).exit.at ==> other[k] == logs[k]
    ensures ScanLogs(pm, syncTopic, hash, other, from) == ScanLogs(pm, syncTopic, hash, logs, from)
    decreases |logs| - from
  {
    var step := StepOf(pm, syncTopic, hash, logs[from]);
    assert other[from] == logs[from];
    if step.Skip? || step.Call? {
      LaterLogsNotExamined(pm, syncTopic, hash, logs, other, from + 1);
    }
  }

  /** The same, for a whole notification: replacing everything after the log
      the handler returned at changes nothing. */
  lemma StopIgnoresSuffix(pm: PM.PoolManager, syncTopic: string, hash: string, logs: seq<Log>, rest: seq<Log>)
    requires IsStop(ScanLogs(pm, syncTopic, hash, logs, 0).exit)
    ensures var at := ScanLogs(pm, syncTopic, hash, logs, 0).exit.at;
      ScanLogs(pm, syncTopic, hash, logs[..at + 1] + rest, 0) == ScanLogs(pm, syncTopic, hash, logs, 0)
  {
    var at := ScanLogs(pm, syncTopic, hash, logs, 0).exit.at;
    LaterLogsNotExamined(pm, syncTopic, hash, logs, logs[..at + 1] + rest, 0);
  }

  /** The handler: returns at once when the notification has no logs, then
      walks the logs in order, skipping non-sync logs, returning at the first
      sync log whose pool is not a WETH pair or has no mirror, and calling
      `execute` for every other sync log. */
  method OnMessage(event: Event, syncTopic: string, pm: PM.PoolManager) returns (calls: seq<ExecuteCall>, exit: Exit)
    ensures event.logs.None? ==> calls == [] && exit == NoLogs
    ensures event.logs.Some? ==> Scan(calls, exit) == ScanLogs(pm, syncTopic, event.hash, event.logs.value, 0)
  {
    calls := [];
    if event.logs.None? {
      exit := NoLogs;
      return;
    }
    var logs := event.logs.value;
    for i := 0 to |logs|
      invariant ScanLogs(pm, syncTopic, event.hash, logs, 0)
                == Scan(calls + ScanLogs(pm, syncTopic, event.hash, logs, i).calls,
                        ScanLogs(pm, syncTopic, event.hash, logs, i).exit)
    {
      var log := logs[i];
      if !IsSyncLog(log, syncTopic) {
        continue;
      }
      var firstPair := log.address;
      var check := PM.CheckPool(pm, firstPair);
      if check.NotWethPair? {
        exit := NotWethPair(i);
        return;
      }
      var secondPair := PM.CheckFactory(pm, check.factoryToCheck, check.token0, check.token1);
      if secondPair.None? {
        exit := NoMirror(i);
        return;
      }
      ghost var rest := ScanLogs(pm, syncTopic, event.hash, logs, i + 1).calls;
      assert (calls + [ExecuteCall(firstPair, secondPair.value, event.hash)]) + rest
             == calls + ([ExecuteCall(firstPair, secondPair.value, event.hash)] + rest);
      calls := calls + [ExecuteCall(firstPair, secondPair.value, event.hash)];
    }
    exit := Scanned;
  }
}
