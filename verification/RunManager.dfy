/**
 The enterprise run manager: installs and uninstalls keyed by cluster and module, each advanced
 by a background runner or by the operator's Next, cancellable, restartable, and reloaded after
 a crash. Every critical section is one event; what is in flight between events is a call.
 */
module RunManager {
  import opened Basics
  import opened RunPlans

  datatype Key = Key(cluster: string, app: Module)

  /** A run is known by its identity, not by its key: a key passes from run to run. */
  datatype RunId = RunId(key: Key, serial: nat)

  datatype StepState = Pending | Active | Finished | Skipped | Errored

  datatype RunState = Running | Succeeded | Broken | Cancelled

  /**
   One run's record. `published` says that launch stored its steps; `closes` counts how often
   the client dialled for it was closed; `cancelled` how often a Cancel met it running.
   */
  datatype Run = Run(
    host: string, uninstall: bool, manual: bool, plan: seq<Kind>, steps: seq<StepState>, current: nat, state: RunState,
    published: bool, dialled: bool, closes: nat, interrupted: bool, cancelled: nat)

  datatype Caller = Launcher | AutoRunner | NextCall | CancelCall

  datatype Pc = Dialling | RollingBack | LoopTop | Beginning | Executing | Advancing | Landing(failed: bool)
    | Finishing | Terminating | Cleaning

  /** A call in flight, with the client and plan it took from the maps, and where it is. */
  datatype Call = Call(caller: Caller, run: RunId, client: Option<RunId>, plan: seq<Kind>, at: nat, pc: Pc)

  datatype Sys = Sys(
    runs: map<RunId, Run>, calls: map<nat, Call>, next: nat,
    installs: map<Key, RunId>, clients: map<Key, RunId>, plans: map<Key, seq<Kind>>, cancels: map<Key, RunId>,
    busy: set<Key>, cancelReq: set<Key>, store: map<Key, Run>)

  datatype Outcome = Worked | WasPresent | Failed

  datatype Event =
    | Reserves(key: Key, host: string, uninstall: bool, manual: bool, plan: seq<Kind>)
    | DialFails(t: nat)
    | Publishes(t: nat, saved: bool)
    | RollsBack(t: nat)
    | Loops(t: nat)
    | Begins(t: nat)
    | Ends(t: nat, outcome: Outcome)
    | Advances(t: nat)
    | Completes(t: nat)
    | NextClaims(key: Key)
    | NextLands(t: nat)
    | CancelComes(key: Key)
    | Terminates(t: nat)
    | CleansUp(t: nat)
    | Crashes

  function Empty(): Sys { Sys(map[], map[], 0, map[], map[], map[], map[], {}, {}, map[]) }

  predicate Holds(s: Sys, r: RunId) { r.key in s.installs && s.installs[r.key] == r }

  function Put(s: Sys, r: RunId, run: Run): Sys { s.(runs := s.runs[r := run]) }

  function Save(s: Sys, r: RunId): Sys
    requires r in s.runs
  {
    s.(store := s.store[r.key := s.runs[r]])
  }

  function Go(s: Sys, t: nat, pc: Pc): Sys
    requires t in s.calls
  {
    s.(calls := s.calls[t := s.calls[t].(pc := pc)])
  }

  // ------------------------------------------------------------ critical sections

  function Reserve(s: Sys, k: Key, host: string, uninstall: bool, manual: bool, plan: seq<Kind>): Sys {
    if k in s.installs && s.installs[k] in s.runs && s.runs[s.installs[k]].state == Running then s
    else
      var r := RunId(k, s.next);
      var run := Run(host, uninstall, manual, plan, [], 0, Running, false, false, 0, false, 0);
      s.(runs := s.runs[r := run], installs := s.installs[k := r],
      calls := s.calls[s.next := Call(Launcher, r, None, plan, 0, Dialling)], next := s.next + 1)
  }

  function Drop<K, V>(m: map<K, V>, k: K, mine: bool): map<K, V> { if mine then m - {k} else m }

  function Close(runs: map<RunId, Run>, c: Option<RunId>): map<RunId, Run> {
    if c.None? || c.value !in runs then runs else runs[c.value := runs[c.value].(closes := runs[c.value].closes + 1)]
  }

  /** Frees a reservation, if it is still this run's, and closes the client if there is one. */
  function Rollback(s: Sys, t: nat): Sys
    requires t in s.calls && s.calls[t].run in s.runs
  {
    var r, k := s.calls[t].run, s.calls[t].run.key;
    var mine := Holds(s, r);
    Sys(Close(s.runs, s.calls[t].client), s.calls - {t}, s.next, Drop(s.installs, k, mine), Drop(s.clients, k, mine),
        Drop(s.plans, k, mine), s.cancels, s.busy, s.cancelReq, s.store)
  }

  function PublishedRun(run: Run, saved: bool): Run {
    run.(dialled := true, steps := seq(|run.plan|, _ => Pending), published := saved || run.published)
  }

  /** The dialled client and the plan become the key's; once the steps are saved an automatic run's runner starts. */
  function Publish(s: Sys, t: nat, saved: bool): Sys
    requires t in s.calls && s.calls[t].run in s.runs
  {
    var r := s.calls[t].run;
    var run := PublishedRun(s.runs[r], saved);
    var calls :=
      if !saved then s.calls[t := s.calls[t].(client := Some(r), pc := RollingBack)]
      else if run.manual then s.calls - {t}
      else s.calls[t := Call(AutoRunner, r, Some(r), run.plan, 0, LoopTop)];
    Sys(s.runs[r := run], calls, s.next, s.installs, s.clients[r.key := r], s.plans[r.key := run.plan],
        if saved && !run.manual then s.cancels[r.key := r] else s.cancels, s.busy, s.cancelReq,
        if saved then s.store[r.key := run] else s.store)
  }

  function LoopBody(s: Sys, t: nat): Sys
    requires t in s.calls && s.calls[t].run in s.runs
  {
    var run := s.runs[s.calls[t].run];
    if run.interrupted then Go(s, t, Terminating)
    else if run.current >= |s.calls[t].plan| then Go(s, t, Finishing)
    else s.(calls := s.calls[t := s.calls[t].(at := run.current, pc := Beginning)])
  }

  function Begin(s: Sys, t: nat): Sys
    requires t in s.calls && s.calls[t].run in s.runs
  {
    var r, i := s.calls[t].run, s.calls[t].at;
    var run := s.runs[r];
    if i >= |run.steps| then s
    else Go(Save(Put(s, r, run.(steps := run.steps[i := Active])), r), t, Executing)
  }

  predicate Dependent(s: Sys, r: RunId, k: Key) {
    && k in s.installs && s.installs[k] in s.runs && r in s.runs
    && s.installs[k].key.app != AppFw
    && (|| s.installs[k].key.cluster == r.key.cluster
        || (s.runs[r].host != "" && s.runs[s.installs[k]].host == s.runs[r].host))
  }

  /** Removing the App-Framework takes the records of everything installed on it along. */
  function Cascade(s: Sys, r: RunId): Sys
    requires r in s.runs
  {
    if !s.runs[r].uninstall || s.runs[r].state != Succeeded || r.key.app != AppFw then s
    else
      var gone := set k | k in s.installs && Dependent(s, r, k) :: k;
      var files := set k | k in gone :: s.installs[k].key;
      s.(installs := s.installs - gone, store := s.store - files)
  }

  /** A step can only be found already present if it copies or waits for the framework; completing cannot fail. */
  predicate Possible(k: Kind, o: Outcome) {
    && (o == WasPresent ==> k == CopyAndRun || k == Framework)
    && (o == Failed ==> k != Complete)
  }

  /** A run's record after step i of the plan ended; only the automatic runner's context can be cancelled. */
  function Ended(run: Run, i: nat, plan: seq<Kind>, o: Outcome, auto: bool): Run
    requires i < |run.steps| && i < |plan|
  {
    if o == Failed then
      run.(steps := run.steps[i := Errored], state := if auto && run.interrupted then Cancelled else Broken)
    else
      run.(steps := run.steps[i := if o == WasPresent then Skipped else Finished],
           state := if plan[i] == Complete then Succeeded else run.state)
  }

  function End(s: Sys, t: nat, o: Outcome): Sys
    requires t in s.calls && s.calls[t].run in s.runs
  {
    var r, i, plan := s.calls[t].run, s.calls[t].at, s.calls[t].plan;
    var auto := s.calls[t].caller == AutoRunner;
    if i >= |s.runs[r].steps| || i >= |plan| || !Possible(plan[i], o) then s
    else
      var u := Save(Put(s, r, Ended(s.runs[r], i, plan, o, auto)), r);
      if o == Failed then Go(u, t, if auto then Cleaning else Landing(true))
      else Go(Cascade(u, r), t, if auto then Advancing else Landing(false))
  }

  function Advance(s: Sys, t: nat): Sys
    requires t in s.calls && s.calls[t].run in s.runs
  {
    var r := s.calls[t].run;
    var run := s.runs[r];
    if run.state != Running then Go(s, t, Cleaning)
    else Go(Save(Put(s, r, run.(current := run.current + 1)), r), t, LoopTop)
  }

  function Conclude(s: Sys, t: nat): Sys
    requires t in s.calls && s.calls[t].run in s.runs
  {
    var r := s.calls[t].run;
    Go(Cascade(Save(Put(s, r, s.runs[r].(state := Succeeded)), r), r), t, Cleaning)
  }

  function ClaimNext(s: Sys, k: Key): Sys {
    if k !in s.installs || s.installs[k] !in s.runs then s else
    var r := s.installs[k];
    var run := s.runs[r];
    if run.state != Running || !run.manual || k in s.busy then s else
    var plan := if k in s.plans then s.plans[k] else [];
    if run.current >= |plan| then s
    else
      var call := Call(NextCall, r, if k in s.clients then Some(s.clients[k]) else None, plan, run.current, Beginning);
      s.(busy := s.busy + {k}, calls := s.calls[s.next := call], next := s.next + 1)
  }

  function LandedRun(run: Run, planned: nat): Run {
    run.(current := run.current + 1, state := if run.current + 1 >= planned then Succeeded else Running)
  }

  /**
   Back from its step, Next gives up the claim, and finishes what a Cancel asked for meanwhile; else it
   moves the run on.
   */
  function LandNext(s: Sys, t: nat, failed: bool): Sys
    requires t in s.calls && s.calls[t].run in s.runs
  {
    var r, k := s.calls[t].run, s.calls[t].run.key;
    var cancelled := k in s.cancelReq;
    var moves := !cancelled && !failed && s.runs[r].state == Running;
    var run := if moves then LandedRun(s.runs[r], |s.calls[t].plan|) else s.runs[r];
    var calls := if cancelled then s.calls[t := s.calls[t].(pc := Terminating)]
                 else if run.state != Running then s.calls[t := s.calls[t].(pc := Cleaning)]
                 else s.calls - {t};
    Sys(s.runs[r := run], calls, s.next, s.installs, s.clients, s.plans, s.cancels, s.busy - {k}, s.cancelReq - {k},
        if moves then s.store[k := run] else s.store)
  }

  function Cancel(s: Sys, k: Key): Sys {
    if k in s.cancels then
      if s.cancels[k] in s.runs then Put(s, s.cancels[k], s.runs[s.cancels[k]].(interrupted := true)) else s
    else if k !in s.installs || s.installs[k] !in s.runs || s.runs[s.installs[k]].state != Running then s
    else
      var r := s.installs[k];
      var run := s.runs[r].(cancelled := s.runs[r].cancelled + 1);
      if k in s.busy then Put(s, r, run).(cancelReq := s.cancelReq + {k})
      else
        var client := if k in s.clients then Some(s.clients[k]) else None;
        Put(s, r, run.(state := Cancelled)).(
        calls := s.calls[s.next := Call(CancelCall, r, client, [], 0, Terminating)], next := s.next + 1)
  }

  function Stopped(steps: seq<StepState>): (r: seq<StepState>)
    ensures |r| == |steps| && forall i :: 0 <= i < |r| ==> r[i] == if steps[i] == Active then Errored else steps[i]
  {
    seq(|steps|, i requires 0 <= i < |steps| => if steps[i] == Active then Errored else steps[i])
  }

  function Terminate(s: Sys, t: nat): Sys
    requires t in s.calls && s.calls[t].run in s.runs
  {
    var r := s.calls[t].run;
    Go(Save(Put(s, r, s.runs[r].(state := Cancelled, steps := Stopped(s.runs[r].steps))), r), t, Cleaning)
  }

  /** Closes the call's client, and prunes the key's entries only if this run still holds the key. */
  function Clean(s: Sys, t: nat): Sys
    requires t in s.calls && s.calls[t].run in s.runs
  {
    var r, k := s.calls[t].run, s.calls[t].run.key;
    var mine := Holds(s, r);
    Sys(Close(s.runs, s.calls[t].client), s.calls - {t}, s.next, s.installs, Drop(s.clients, k, mine),
        Drop(s.plans, k, mine), Drop(s.cancels, k, mine), if mine then s.busy - {k} else s.busy,
        if mine then s.cancelReq - {k} else s.cancelReq, s.store)
  }

  function Reload(run: Run): Run {
    run.(state := if run.state == Running then Broken else run.state,
         steps := if run.state == Running then Stopped(run.steps) else run.steps,
         published := true, dialled := false, closes := 0, interrupted := false, cancelled := 0)
  }

  /** The process dies with every call in flight; the next one reloads what was saved. */
  function Crash(s: Sys): Sys {
    var runs := map k | k in s.store :: RunId(k, s.next) := Reload(s.store[k]);
    Sys(runs, map[], s.next + 1, map k | k in s.store :: RunId(k, s.next), map[], map[], map[], {}, {},
        map k | k in s.store :: Reload(s.store[k]))
  }

  predicate AtPc(s: Sys, t: nat, pc: Pc) { t in s.calls && s.calls[t].run in s.runs && s.calls[t].pc == pc }

  function Step(s: Sys, e: Event): Sys {
    match e
    case Reserves(k, host, uninstall, manual, plan) => Reserve(s, k, host, uninstall, manual, plan)
    case DialFails(t) => if AtPc(s, t, Dialling) then Rollback(s, t) else s
    case Publishes(t, saved) => if AtPc(s, t, Dialling) then Publish(s, t, saved) else s
    case RollsBack(t) => if AtPc(s, t, RollingBack) then Rollback(s, t) else s
    case Loops(t) => if AtPc(s, t, LoopTop) then LoopBody(s, t) else s
    case Begins(t) => if AtPc(s, t, Beginning) then Begin(s, t) else s
    case Ends(t, o) => if AtPc(s, t, Executing) then End(s, t, o) else s
    case Advances(t) => if AtPc(s, t, Advancing) then Advance(s, t) else s
    case Completes(t) => if AtPc(s, t, Finishing) then Conclude(s, t) else s
    case NextClaims(k) => ClaimNext(s, k)
    case NextLands(t) => if t in s.calls && s.calls[t].run in s.runs
        && s.calls[t].pc.Landing? then LandNext(s, t, s.calls[t].pc.failed) else s
    case CancelComes(k) => Cancel(s, k)
    case Terminates(t) => if AtPc(s, t, Terminating) then Terminate(s, t) else s
    case CleansUp(t) => if AtPc(s, t, Cleaning) then Clean(s, t) else s
    case Crashes => Crash(s)
  }

  function After(events: seq<Event>): Sys
    decreases |events|
  {
    if events == [] then Empty() else Step(After(events[..|events| - 1]), events[|events| - 1])
  }
}
