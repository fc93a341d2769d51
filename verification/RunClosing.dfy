/**
 Which clients get closed. A run that nobody is at work on and that has lost its key keeps its
 client open for good; one that holds its key can always still be brought to an end.
 */
module RunClosing {
  import opened Basics
  import opened RunPlans
  import opened RunManager
  import opened RunSafety
  import opened RunTheorems
  import opened RunLimits

  // -------------------------------------------------------------- lost for good

  /** A launched run, still running, that nobody is at work on and no key leads to. */
  predicate Stranded(s: Sys, r: RunId) {
    && r in s.runs && Idle(s, r) && !Holds(s, r)
    && s.runs[r].published && s.runs[r].state == Running && s.runs[r].dialled && s.runs[r].closes == 0
  }

  /** What happens to a run that no key leads to and no call works on: at most its cancel flag rises. */
  predicate Untouched(s: Sys, u: Sys, r: RunId)
    requires r in s.runs
  {
    && r in u.runs && (u.runs[r] == s.runs[r] || u.runs[r] == s.runs[r].(interrupted := true))
    && Idle(u, r) && !Holds(u, r)
  }

  /** The call an event is a section of. */
  function CallOf(e: Event): Option<nat> {
    match e
    case DialFails(t) => Some(t)
    case Publishes(t, _) => Some(t)
    case RollsBack(t) => Some(t)
    case Loops(t) => Some(t)
    case Begins(t) => Some(t)
    case Ends(t, _) => Some(t)
    case Advances(t) => Some(t)
    case Completes(t) => Some(t)
    case NextLands(t) => Some(t)
    case Terminates(t) => Some(t)
    case CleansUp(t) => Some(t)
    case _ => None
  }

  /** A call's section changes its own run and itself; it takes keys and claims away at most. */
  predicate Local(s: Sys, u: Sys, t: nat)
    requires t in s.calls
  {
    var q := s.calls[t].run;
    && (forall r :: r in s.runs && r != q ==> r in u.runs && u.runs[r] == s.runs[r])
    && (forall v :: v in u.calls && v != t ==> v in s.calls && u.calls[v] == s.calls[v])
    && (forall v :: v in s.calls && v != t ==> v in u.calls)
    && (t in u.calls ==> u.calls[t].run == q)
    && Submap(u.installs, s.installs) && u.busy <= s.busy
    && (Busying(s.calls[t]) && q.key in u.busy ==> t in u.calls && Busying(u.calls[t]))
  }

  lemma LeavingIsLocal(s: Sys, t: nat)
    requires t in s.calls && s.calls[t].run in s.runs
    requires s.calls[t].client == None || s.calls[t].client == Some(s.calls[t].run)
    ensures !Busying(s.calls[t]) ==> Local(s, Rollback(s, t), t) && Local(s, Clean(s, t), t)
  {
  }

  lemma PublishIsLocal(s: Sys, t: nat, saved: bool)
    requires AtPc(s, t, Dialling)
    ensures Local(s, Publish(s, t, saved), t)
  {
    PublishMoves(s, t, saved);
    hide Publish;
  }

  lemma MoveIsLocal(s: Sys, t: nat, call: Call)
    requires t in s.calls && call.run == s.calls[t].run && (Busying(s.calls[t]) ==> Busying(call))
    ensures Local(s, s.(calls := s.calls[t := call]), t)
  {
  }

  lemma LoopIsLocal(s: Sys, t: nat)
    requires AtPc(s, t, LoopTop)
    ensures Local(s, LoopBody(s, t), t)
  {
    var run, call := s.runs[s.calls[t].run], s.calls[t];
    MoveIsLocal(s, t, call.(pc := Terminating));
    MoveIsLocal(s, t, call.(pc := Finishing));
    MoveIsLocal(s, t, call.(at := run.current, pc := Beginning));
    hide Local;
  }

  lemma AdvanceIsLocal(s: Sys, t: nat)
    requires AtPc(s, t, Advancing)
    ensures Local(s, Advance(s, t), t)
  {
    var run, call := s.runs[s.calls[t].run], s.calls[t];
    MoveIsLocal(s, t, call.(pc := Cleaning));
    QuietIsLocal(s, t, run.(current := run.current + 1), call.(pc := LoopTop), true);
    hide Local;
  }

  lemma BeginIsLocal(s: Sys, t: nat)
    requires AtPc(s, t, Beginning)
    ensures Local(s, Begin(s, t), t)
  {
    var run, call := s.runs[s.calls[t].run], s.calls[t];
    NothingIsLocal(s, t);
    if call.at < |run.steps| {
      QuietIsLocal(s, t, run.(steps := run.steps[call.at := Active]), call.(pc := Executing), true);
    }
    hide Local;
  }

  lemma TerminateIsLocal(s: Sys, t: nat)
    requires AtPc(s, t, Terminating)
    ensures Local(s, Terminate(s, t), t)
  {
    hide Stopped;
  }

  lemma QuietIsLocal(s: Sys, t: nat, run: Run, call: Call, saved: bool)
    requires t in s.calls && call.run == s.calls[t].run && (Busying(s.calls[t]) ==> Busying(call))
    ensures Local(s, Quiet(s, t, run, Some(call), saved), t)
  {
  }

  lemma CascadeIsLocal(s: Sys, u: Sys, t: nat, r: RunId)
    requires t in s.calls && Local(s, u, t) && r in u.runs
    ensures Local(s, Cascade(u, r), t)
  {
    CascadeShrinks(u, r);
    hide Cascade;
  }

  lemma EndIsLocal(s: Sys, t: nat, o: Outcome)
    requires AtPc(s, t, Executing)
    ensures Local(s, End(s, t, o), t)
  {
    var r, call := s.calls[t].run, s.calls[t];
    if EndFits(call, s.runs[r], o) {
      EndIsQuiet(s, t, o);
      assert Busying(call) ==> Busying(EndCall(call, o));
      assert EndCall(call, o).run == r;
      var u := Quiet(s, t, EndRun(s.runs[r], call, o), Some(EndCall(call, o)), true);
      QuietIsLocal(s, t, EndRun(s.runs[r], call, o), EndCall(call, o), true);
      hide *;
      if o != Failed { CascadeIsLocal(s, u, t, r); }
    }
  }

  lemma ConcludeIsLocal(s: Sys, t: nat)
    requires AtPc(s, t, Finishing)
    ensures Local(s, Conclude(s, t), t)
  {
    var r := s.calls[t].run;
    var run, call := s.runs[r].(state := Succeeded), s.calls[t].(pc := Cleaning);
    CascadeLater(Save(Put(s, r, run), r), r, t, Cleaning);
    hide Cascade;
    var u := Quiet(s, t, run, Some(call), true);
    assert Conclude(s, t) == Cascade(u, r);
    hide Conclude;
    QuietIsLocal(s, t, run, call, true);
    CascadeIsLocal(s, u, t, r);
  }

  lemma LandIsLocal(s: Sys, t: nat, failed: bool)
    requires AtPc(s, t, Landing(failed))
    ensures Local(s, LandNext(s, t, failed), t)
  {
    hide LandedRun;
  }

  lemma NothingIsLocal(s: Sys, t: nat)
    requires t in s.calls
    ensures Local(s, s, t)
  {
  }

  lemma SectionIsLocal(s: Sys, e: Event, t: nat)
    requires t in s.calls && CallOf(e) == Some(t)
    requires s.calls[t].client == None || s.calls[t].client == Some(s.calls[t].run)
    ensures Local(s, Step(s, e), t)
  {
    hide Local;
    hide Rollback;
    hide Publish;
    hide LoopBody;
    hide Begin;
    hide End;
    hide Advance;
    hide Conclude;
    hide LandNext;
    hide Terminate;
    hide Clean;
    NothingIsLocal(s, t);
    if s.calls[t].run in s.runs {
      match e
      case DialFails(_) => if AtPc(s, t, Dialling) { LeavingIsLocal(s, t); }
      case Publishes(_, saved) => if AtPc(s, t, Dialling) { PublishIsLocal(s, t, saved); }
      case RollsBack(_) => if AtPc(s, t, RollingBack) { LeavingIsLocal(s, t); }
      case Loops(_) => if AtPc(s, t, LoopTop) { LoopIsLocal(s, t); }
      case Begins(_) => if AtPc(s, t, Beginning) { BeginIsLocal(s, t); }
      case Ends(_, o) => if AtPc(s, t, Executing) { EndIsLocal(s, t, o); }
      case Advances(_) => if AtPc(s, t, Advancing) { AdvanceIsLocal(s, t); }
      case Completes(_) => if AtPc(s, t, Finishing) { ConcludeIsLocal(s, t); }
      case NextLands(_) => if s.calls[t].pc.Landing? { LandIsLocal(s, t, s.calls[t].pc.failed); }
      case Terminates(_) => if AtPc(s, t, Terminating) { TerminateIsLocal(s, t); }
      case CleansUp(_) => if AtPc(s, t, Cleaning) { LeavingIsLocal(s, t); }
    }
  }

  lemma LocalLeavesAlone(s: Sys, u: Sys, t: nat, r: RunId)
    requires t in s.calls && Local(s, u, t) && r in s.runs && Idle(s, r) && !Holds(s, r)
    ensures Untouched(s, u, r)
  {
    assert s.calls[t].run != r;
    forall v | v in u.calls ensures u.calls[v].run != r {}
  }

  lemma NothingHappens(s: Sys, e: Event)
    requires CallOf(e).Some? && CallOf(e).value !in s.calls
    ensures Step(s, e) == s
  {
  }

  lemma Bystander(s: Sys, e: Event, r: RunId)
    requires Inv(s) && r in s.runs && Idle(s, r) && !Holds(s, r) && !e.Crashes?
    ensures Untouched(s, Step(s, e), r)
  {
    hide Inv;
    hide Local;
    InvApart(s);
    if CallOf(e).Some? {
      hide Step;
      var t := CallOf(e).value;
      if t in s.calls {
        OwnClient(s, t);
        SectionIsLocal(s, e, t);
        LocalLeavesAlone(s, Step(s, e), t, r);
      } else {
        NothingHappens(s, e);
      }
    } else {
      hide Untouched;
      match e
      case Reserves(k, host, uninstall, manual, plan) => ReserveLeavesAlone(s, k, host, uninstall, manual, plan, r);
      case NextClaims(k) => ClaimLeavesAlone(s, k, r);
      case CancelComes(k) => CancelLeavesAlone(s, k, r);
    }
  }

  lemma ReserveLeavesAlone(s: Sys, k: Key, host: string, uninstall: bool, manual: bool, plan: seq<Kind>, r: RunId)
    requires Known(s) && r in s.runs && Idle(s, r) && !Holds(s, r)
    ensures Untouched(s, Reserve(s, k, host, uninstall, manual, plan), r)
  {
  }

  lemma ClaimLeavesAlone(s: Sys, k: Key, r: RunId)
    requires Known(s) && r in s.runs && Idle(s, r) && !Holds(s, r)
    ensures Untouched(s, ClaimNext(s, k), r)
  {
  }

  /** A Cancel changes one record, not the maps, and starts at most one call, on the holder. */
  predicate Stops(s: Sys, u: Sys, k: Key) {
    && u.installs == s.installs && u.busy == s.busy
    && (forall r :: r in s.runs && !Holds(s, r) ==>
          r in u.runs && (u.runs[r] == s.runs[r] || u.runs[r] == s.runs[r].(interrupted := true)))
    && (forall v :: v in s.calls ==> v in u.calls && u.calls[v] == s.calls[v])
    && (forall v :: v in u.calls && v !in s.calls ==> k in s.installs && u.calls[v].run == s.installs[k])
  }

  lemma FlagStops(s: Sys, k: Key, r: RunId)
    requires r in s.runs
    ensures Stops(s, Put(s, r, s.runs[r].(interrupted := true)), k)
  {
  }

  lemma EndingStops(s: Sys, u: Sys, k: Key, run: Run)
    requires Known(s) && k in s.installs && u.installs == s.installs && u.busy == s.busy
    requires u.runs == s.runs[s.installs[k] := run]
    requires u.calls == s.calls || (s.next in u.calls && u.calls[s.next].run == s.installs[k]
                                    && u.calls == s.calls[s.next := u.calls[s.next]])
    ensures Stops(s, u, k)
  {
  }

  lemma CancelStops(s: Sys, k: Key)
    requires Known(s)
    ensures Stops(s, Cancel(s, k), k)
  {
    hide Stops;
    NothingStops(s, k);
    if k in s.cancels {
      if s.cancels[k] in s.runs { FlagStops(s, k, s.cancels[k]); }
    } else if Taken(s, k) {
      hide Known;
      var u := Cancel(s, k);
      EndingStops(s, u, k, u.runs[s.installs[k]]);
    }
  }

  lemma NothingStops(s: Sys, k: Key)
    ensures Stops(s, s, k)
  {
  }

  lemma CancelLeavesAlone(s: Sys, k: Key, r: RunId)
    requires Known(s) && r in s.runs && Idle(s, r) && !Holds(s, r)
    ensures Untouched(s, Cancel(s, k), r)
  {
    CancelStops(s, k);
    hide Cancel;
  }

  /** `more` is an orderly way on from `events` without a crash. */
  ghost predicate Continues(events: seq<Event>, more: seq<Event>) {
    OrderlyHistory(events + more) && forall i :: 0 <= i < |more| ==> !more[i].Crashes?
  }

  /** A stranded run stays stranded, so its client is never closed. */
  lemma {:induction false} StrandedForGood(events: seq<Event>, more: seq<Event>, r: RunId)
    requires Stranded(After(events), r) && Continues(events, more)
    ensures Stranded(After(events + more), r)
    decreases |more|
  {
    hide After;
    hide Orderly;
    hide Step;
    hide Inv;
    if more == [] {
      assert events + more == events;
    } else {
      var before, e := more[..|more| - 1], more[|more| - 1];
      var all := events + before;
      assert events + more == all + [e];
      assert forall i :: 0 <= i < |all| ==> all[..i] == (events + more)[..i] && all[i] == (events + more)[i];
      StrandedForGood(events, before, r);
      HistoryKeeps(all);
      AfterNext(all, e);
      Bystander(After(all), e, r);
    }
  }

  /** And it happens: the App-Framework is removed while a manual run on it waits for its next step. */
  lemma RunCanBeStranded(c: string) returns (events: seq<Event>)
    ensures OrderlyHistory(events) && Stranded(After(events), RunId(Key(c, Cmp), 2))
  {
    hide *;
    events := LaunchMeetsRemoval(c);
    HistoryKeeps(events);
    MeetingPublished(After(events), c);
    OrderlyNext(events, Publishes(2, true));
    events := events + [Publishes(2, true)];
    HistoryKeeps(events);
    AlwaysOrderly(After(events), Ends(1, Worked));
    KeyTakenFromRun(After(events), c);
    OrderlyNext(events, Ends(1, Worked));
    events := events + [Ends(1, Worked)];
  }

  lemma KeyTakenFromRun(s: Sys, c: string)
    requires Inv(s) && Meeting(s, c, Executing)
    ensures Stranded(Step(s, Ends(1, Worked)), RunId(Key(c, Cmp), 2))
  {
    hide Inv;
    InvApart(s);
    InvIdle(s, RunId(Key(c, Cmp), 2));
    CascadeTakes(s, 1, Key(c, Cmp));
    hide Step;
  }

  // -------------------------------------------------------- what still can be closed

  predicate Claimed(s: Sys, k: Key) {
    exists t :: t in s.calls && Busying(s.calls[t]) && s.calls[t].run.key == k
  }

  /** A claim on a key's step always has its Next in flight. */
  predicate BusyOwned(s: Sys) { forall k :: k in s.busy ==> Claimed(s, k) }

  /** Every event but a crash carries the claims on, or takes them away. */
  lemma ClaimCarried(s: Sys, e: Event, k: Key)
    requires Inv(s) && Claimed(s, k) && k in Step(s, e).busy && !e.Crashes?
    ensures Claimed(Step(s, e), k)
  {
    hide Inv;
    InvApart(s);
    var t :| t in s.calls && Busying(s.calls[t]) && s.calls[t].run.key == k;
    if CallOf(e).Some? {
      var v := CallOf(e).value;
      if v in s.calls {
        OwnClient(s, v);
        SectionIsLocal(s, e, v);
      } else {
        NothingHappens(s, e);
      }
    } else {
      KeyEventKeepsCalls(s, e, t);
    }
    hide Step;
    assert t in Step(s, e).calls;
  }

  lemma KeyEventKeepsCalls(s: Sys, e: Event, t: nat)
    requires Known(s) && t in s.calls && (e.Reserves? || e.NextClaims? || e.CancelComes?)
    ensures t in Step(s, e).calls && Step(s, e).calls[t] == s.calls[t]
  {
    if e.CancelComes? {
      CancelStops(s, e.key);
      hide Cancel;
    }
  }

  lemma OnlyNextClaims(s: Sys, e: Event, k: Key)
    requires Inv(s) && k in Step(s, e).busy && k !in s.busy
    ensures e == NextClaims(k)
  {
    hide Inv;
    if CallOf(e).Some? {
      hide Step;
      var v := CallOf(e).value;
      if v in s.calls {
        OwnClient(s, v);
        SectionIsLocal(s, e, v);
      } else {
        NothingHappens(s, e);
      }
    } else if e.CancelComes? {
      InvApart(s);
      CancelStops(s, e.key);
      hide Cancel;
    }
  }

  lemma NewClaim(s: Sys, e: Event, k: Key)
    requires Inv(s) && k in Step(s, e).busy && k !in s.busy
    ensures Claimed(Step(s, e), k)
  {
    hide Inv;
    OnlyNextClaims(s, e, k);
    var u := ClaimNext(s, k);
    InvHolder(s, k);
    hide HolderFits;
    assert s.next in u.calls && Busying(u.calls[s.next]) && u.calls[s.next].run.key == k;
  }

  lemma {:induction false} BusyIsOwned(events: seq<Event>)
    requires OrderlyHistory(events)
    ensures BusyOwned(After(events))
    decreases |events|
  {
    hide Orderly;
    hide Inv;
    hide Step;
    if events != [] {
      var before, e := events[..|events| - 1], events[|events| - 1];
      assert forall i :: 0 <= i < |before| ==> before[..i] == events[..i] && before[i] == events[i];
      BusyIsOwned(before);
      HistoryKeeps(before);
      var s := After(before);
      hide After;
      forall k | k in Step(s, e).busy ensures Claimed(Step(s, e), k) {
        if k !in s.busy {
          NewClaim(s, e, k);
        } else if e.Crashes? {
          CrashFrees(s);
        } else {
          ClaimCarried(s, e, k);
        }
      }
    }
  }

  lemma CrashFrees(s: Sys)
    ensures Step(s, Crashes).busy == {}
  {
  }

  /** A launched, running run that holds its key and that nobody is at work on. */
  predicate Resting(s: Sys, r: RunId) {
    && r in s.runs && Idle(s, r) && Holds(s, r) && s.runs[r].published && s.runs[r].state == Running
  }

  /** How many sections a Next has before it. */
  function Rest(s: Sys, v: nat): nat {
    if v !in s.calls then 0
    else match s.calls[v].pc
      case Beginning => 5
      case Executing => 4
      case Landing(_) => 3
      case Terminating => 2
      case _ => 1
  }

  /** A step's outcome that is possible whatever it does. */
  function SomeOutcome(call: Call): Outcome {
    if call.at < |call.plan| && call.plan[call.at] == Complete then Worked else Failed
  }

  /** The next section of a Next in flight. */
  function Section(s: Sys, v: nat): Event
    requires v in s.calls
  {
    match s.calls[v].pc
    case Beginning => Begins(v)
    case Executing => Ends(v, SomeOutcome(s.calls[v]))
    case Landing(_) => NextLands(v)
    case Terminating => Terminates(v)
    case _ => CleansUp(v)
  }

  /** A section brings a Next nearer its end, and leaves the key to whoever else holds it. */
  predicate Nearer(s: Sys, u: Sys, v: nat)
    requires v in s.calls
  {
    var q := s.calls[v].run;
    && Rest(u, v) < Rest(s, v) && (v in u.calls ==> u.calls[v].caller == NextCall && u.calls[v].run == q)
    && (q.key in s.installs && s.installs[q.key].key == q.key && s.installs[q.key] != q ==>
          q.key in u.installs && u.installs[q.key] == s.installs[q.key])
  }

  lemma BeginIsNearer(s: Sys, v: nat)
    requires AtPc(s, v, Beginning) && s.calls[v].caller == NextCall
    requires s.calls[v].at < |s.runs[s.calls[v].run].steps|
    ensures Nearer(s, Begin(s, v), v)
  {
  }

  lemma EndIsNearer(s: Sys, v: nat, o: Outcome)
    requires AtPc(s, v, Executing) && s.calls[v].caller == NextCall && EndFits(s.calls[v], s.runs[s.calls[v].run], o)
    ensures Nearer(s, End(s, v, o), v)
  {
    var q := s.calls[v].run;
    EndIsQuiet(s, v, o);
    hide End;
    var u := Quiet(s, v, EndRun(s.runs[q], s.calls[v], o), Some(EndCall(s.calls[v], o)), true);
    hide EndRun;
    QuietIsNearer(s, u, v);
    if o != Failed { CascadeIsNearer(s, u, v); }
  }

  lemma QuietIsNearer(s: Sys, u: Sys, v: nat)
    requires v in s.calls && v in u.calls && u.calls[v].caller == NextCall && u.calls[v].run == s.calls[v].run
    requires s.calls[v].pc == Executing && u.calls[v].pc.Landing? && u.installs == s.installs
    ensures Nearer(s, u, v)
  {
  }

  /** The cascade spares the App-Framework's own record, which is the only one its key could lead to. */
  lemma CascadeIsNearer(s: Sys, u: Sys, v: nat)
    requires v in s.calls && Nearer(s, u, v) && s.calls[v].run in u.runs && u.installs == s.installs
    ensures Nearer(s, Cascade(u, s.calls[v].run), v)
  {
  }

  lemma LandIsNearer(s: Sys, v: nat, failed: bool)
    requires AtPc(s, v, Landing(failed)) && s.calls[v].caller == NextCall
    ensures Nearer(s, LandNext(s, v, failed), v)
  {
    hide LandedRun;
  }

  lemma LastIsNearer(s: Sys, v: nat)
    requires v in s.calls && s.calls[v].run in s.runs && s.calls[v].caller == NextCall
    ensures s.calls[v].pc == Terminating ==> Nearer(s, Terminate(s, v), v)
    ensures s.calls[v].pc == Cleaning ==> Nearer(s, Clean(s, v), v)
  {
    hide Stopped;
  }

  lemma NextFits(s: Sys, v: nat)
    requires Inv(s) && v in s.calls && s.calls[v].caller == NextCall
    ensures var q, call := s.calls[v].run, s.calls[v];
            && q in s.runs
            && (call.pc == Beginning ==> call.at < |s.runs[q].steps|)
            && (call.pc == Executing ==> EndFits(call, s.runs[q], SomeOutcome(call)))
            && (call.pc == Beginning || call.pc == Executing || call.pc.Landing? || call.pc == Terminating
                || call.pc == Cleaning)
  {
    hide Inv;
    CallAt(s, v);
    hide Claims;
    hide HolderFits;
  }

  lemma SectionMoves(s: Sys, v: nat)
    requires Inv(s) && v in s.calls && s.calls[v].caller == NextCall
    ensures Nearer(s, Step(s, Section(s, v)), v)
  {
    hide Inv;
    hide Nearer;
    NextFits(s, v);
    hide Begin;
    hide End;
    hide LandNext;
    hide Terminate;
    hide Clean;
    match s.calls[v].pc
    case Beginning => BeginIsNearer(s, v);
    case Executing => EndIsNearer(s, v, SomeOutcome(s.calls[v]));
    case Landing(failed) => LandIsNearer(s, v, failed);
    case _ => LastIsNearer(s, v);
  }

  /** A section of another run's Next on the key leaves a resting run as it is. */
  lemma SectionLetsRest(s: Sys, v: nat, r: RunId)
    requires Inv(s) && Resting(s, r) && v in s.calls && s.calls[v].caller == NextCall && s.calls[v].run.key == r.key
    ensures var e := Section(s, v);
            && Orderly(s, e) && !e.Crashes? && Resting(Step(s, e), r) && Nearer(s, Step(s, e), v)
            && (v !in Step(s, e).calls ==> NoNext(Step(s, e), r.key))
  {
    hide Inv;
    var e := Section(s, v);
    assert CallOf(e) == Some(v) && Orderly(s, e);
    OwnClient(s, v);
    SectionIsLocal(s, e, v);
    SectionMoves(s, v);
    CallAt(s, v);
    hide CallFits;
    hide Claims;
    hide HolderFits;
    hide Section;
    hide Step;
    hide Rest;
    assert s.calls[v].run != r;
    forall w | w in Step(s, e).calls ensures Step(s, e).calls[w].run != r {}
  }

  /** So whatever stands in the way of a resting run's next step passes. */
  lemma Drained(events: seq<Event>, v: nat, r: RunId) returns (more: seq<Event>)
    requires OrderlyHistory(events) && Resting(After(events), r)
    requires v in After(events).calls && After(events).calls[v].caller == NextCall
        && After(events).calls[v].run.key == r.key
    ensures Continues(events, more) && Resting(After(events + more), r) && NoNext(After(events + more), r.key)
    decreases Rest(After(events), v)
  {
    hide *;
    var s := After(events);
    var e := Section(s, v);
    HistoryKeeps(events);
    SectionLetsRest(s, v, r);
    OrderlyNext(events, e);
    OneMore(events, e);
    if v in Step(s, e).calls {
      NearerStill(s, Step(s, e), v);
      var rest := Drained(events + [e], v, r);
      more := [e] + rest;
      Joined(events, e, rest);
    } else {
      more := [e];
    }
  }

  lemma NearerStill(s: Sys, u: Sys, v: nat)
    requires v in s.calls && v in u.calls && Nearer(s, u, v)
    ensures Rest(u, v) < Rest(s, v) && u.calls[v].caller == NextCall && u.calls[v].run == s.calls[v].run
  {
  }

  lemma OneMore(events: seq<Event>, e: Event)
    requires OrderlyHistory(events + [e]) && !e.Crashes?
    ensures Continues(events, [e])
  {
    hide OrderlyHistory;
  }

  lemma Joined(events: seq<Event>, e: Event, rest: seq<Event>)
    requires !e.Crashes? && Continues(events + [e], rest)
    ensures Continues(events, [e] + rest) && events + [e] + rest == events + ([e] + rest)
  {
    hide OrderlyHistory;
    assert events + [e] + rest == events + ([e] + rest);
  }

  /** The Next c is at work on r at the given place, and no Cancel has left word for it. */
  predicate Under(s: Sys, c: nat, r: RunId, pc: Pc) {
    AtPc(s, c, pc) && s.calls[c].run == r && s.calls[c].caller == NextCall && r.key !in s.cancelReq
  }

  /** With nothing in the way, the operator's Next takes the step... */
  lemma NextStarts(s: Sys, r: RunId)
    requires Inv(s) && BusyOwned(s) && Resting(s, r) && NoNext(s, r.key)
    ensures Orderly(s, NextClaims(r.key)) && Under(Step(s, NextClaims(r.key)), s.next, r, Beginning)
  {
    hide Inv;
    InvHolder(s, r.key);
    InvIdle(s, r);
    InvApart(s);
    hide Consistent;
    assert r.key !in s.busy;
    assert Claimable(s, r.key);
  }

  lemma NextBegins(s: Sys, c: nat, r: RunId)
    requires Inv(s) && Under(s, c, r, Beginning)
    ensures Under(Step(s, Begins(c)), c, r, Executing) && c in Step(s, Begins(c)).calls
  {
    hide Inv;
    NextFits(s, c);
  }

  /** ...and however the step ends, it can end the run... */
  lemma NextEnds(s: Sys, c: nat, r: RunId)
    requires Inv(s) && Under(s, c, r, Executing)
    ensures var u, o := Step(s, Ends(c, SomeOutcome(s.calls[c]))), SomeOutcome(s.calls[c]);
            Under(u, c, r, Landing(o == Failed)) && u.runs[r].state != Running
  {
    hide Inv;
    NextFits(s, c);
    var o := SomeOutcome(s.calls[c]);
    EndIsQuiet(s, c, o);
    hide End;
    CascadeShrinks(Quiet(s, c, EndRun(s.runs[r], s.calls[c], o), Some(EndCall(s.calls[c], o)), true), r);
    hide Cascade;
  }

  lemma NextLandsOver(s: Sys, c: nat, r: RunId, failed: bool)
    requires Inv(s) && Under(s, c, r, Landing(failed)) && s.runs[r].state != Running
    ensures Under(Step(s, NextLands(c)), c, r, Cleaning)
  {
    hide Inv;
    hide LandedRun;
  }

  /** ...and close its client. */
  lemma NextCloses(s: Sys, c: nat, r: RunId)
    requires Inv(s) && Under(s, c, r, Cleaning)
    ensures r in Step(s, CleansUp(c)).runs && Step(s, CleansUp(c)).runs[r].closes >= 1
  {
    hide Inv;
    CallAt(s, c);
    hide Claims;
    hide HolderFits;
  }

  lemma ClosedByNext(events: seq<Event>, r: RunId) returns (more: seq<Event>)
    requires OrderlyHistory(events) && Resting(After(events), r) && NoNext(After(events), r.key)
    ensures Continues(events, more) && r in After(events + more).runs && After(events + more).runs[r].closes >= 1
  {
    hide *;
    var c := After(events).next;
    HistoryKeeps(events);
    BusyIsOwned(events);
    NextStarts(After(events), r);
    OrderlyNext(events, NextClaims(r.key));
    var h1 := events + [NextClaims(r.key)];
    HistoryKeeps(h1);
    NextBegins(After(h1), c, r);
    AlwaysOrderly(After(h1), Begins(c));
    OrderlyNext(h1, Begins(c));
    var h2 := h1 + [Begins(c)];
    HistoryKeeps(h2);
    NextEnds(After(h2), c, r);
    var o := SomeOutcome(After(h2).calls[c]);
    AlwaysOrderly(After(h2), Ends(c, o));
    OrderlyNext(h2, Ends(c, o));
    var h3 := h2 + [Ends(c, o)];
    HistoryKeeps(h3);
    NextLandsOver(After(h3), c, r, o == Failed);
    AlwaysOrderly(After(h3), NextLands(c));
    OrderlyNext(h3, NextLands(c));
    var h4 := h3 + [NextLands(c)];
    HistoryKeeps(h4);
    NextCloses(After(h4), c, r);
    AlwaysOrderly(After(h4), CleansUp(c));
    OrderlyNext(h4, CleansUp(c));
    more := [NextClaims(r.key), Begins(c), Ends(c, o), NextLands(c), CleansUp(c)];
    assert events + more == h4 + [CleansUp(c)];
    Crashless(events, more);
  }

  lemma Crashless(events: seq<Event>, more: seq<Event>)
    requires OrderlyHistory(events + more) && forall i :: 0 <= i < |more| ==> !more[i].Crashes?
    ensures Continues(events, more)
  {
    hide OrderlyHistory;
  }

  /** Some orderly way on, without a crash, closes the run's client. */
  ghost predicate Closable(events: seq<Event>, r: RunId) {
    exists more :: Continues(events, more) && r in After(events + more).runs && After(events + more).runs[r].closes >= 1
  }

  /**
   Whose client can still be closed. A launched run that is running and that nobody is at work
   on can still be brought to close its client if and only if it holds its key.
   */
  lemma ClosableIfHeld(events: seq<Event>, r: RunId)
    requires OrderlyHistory(events) && r in After(events).runs && Idle(After(events), r)
    requires After(events).runs[r].published && After(events).runs[r].state == Running
    ensures Closable(events, r) <==> Holds(After(events), r)
  {
    hide Inv;
    hide After;
    hide Continues;
    hide OrderlyHistory;
    var s := After(events);
    HistoryKeeps(events);
    if Holds(s, r) {
      ClosedFromRest(events, r);
    } else {
      InvIdle(s, r);
      assert Stranded(s, r) by { hide Consistent; }
      forall more | Continues(events, more)
        ensures r in After(events + more).runs && After(events + more).runs[r].closes == 0
      {
        StrandedForGood(events, more, r);
      }
    }
  }

  lemma ClosedFromRest(events: seq<Event>, r: RunId)
    requires OrderlyHistory(events) && Resting(After(events), r)
    ensures Closable(events, r)
  {
    hide Inv;
    hide After;
    hide Continues;
    hide OrderlyHistory;
    var before: seq<Event> := [];
    assert events + before == events;
    if !NoNext(After(events), r.key) {
      var v :| v in After(events).calls && After(events).calls[v].caller == NextCall
          && After(events).calls[v].run.key == r.key;
      before := Drained(events, v, r);
    } else {
      Stays(events);
    }
    OrderlySoFar(events, before);
    var more := ClosedByNext(events + before, r);
    BothContinue(events, before, more);
    assert events + before + more == events + (before + more);
  }

  lemma Stays(events: seq<Event>)
    requires OrderlyHistory(events)
    ensures Continues(events, [])
  {
    assert events + [] == events;
    hide OrderlyHistory;
  }

  lemma OrderlySoFar(events: seq<Event>, more: seq<Event>)
    requires Continues(events, more)
    ensures OrderlyHistory(events + more)
  {
    hide OrderlyHistory;
  }

  lemma BothContinue(events: seq<Event>, one: seq<Event>, two: seq<Event>)
    requires Continues(events, one) && Continues(events + one, two)
    ensures Continues(events, one + two)
  {
    hide OrderlyHistory;
    assert events + one + two == events + (one + two);
  }
}
