/**
 How far the run manager's promises reach: the orderly uses are exactly those that keep its
 invariant, and what the others break is shown on histories that get there.
 */
module RunLimits {
  import opened Basics
  import opened RunPlans
  import opened RunManager
  import opened RunSafety
  import opened RunTheorems

  // ------------------------------------------------------- orderly use is exact

  lemma ReserveBreaks(s: Sys, k: Key, host: string, uninstall: bool, manual: bool, plan: seq<Kind>)
    requires Inv(s) && !Taken(s, k) && !Shaped(plan)
    ensures !Inv(Reserve(s, k, host, uninstall, manual, plan))
  {
    hide Inv;
    var u := Reserve(s, k, host, uninstall, manual, plan);
    if Inv(u) {
      CallAt(u, s.next);
    }
  }

  /** A second call on a run, or a second Next on a key, is what the invariant rules out. */
  lemma NewcomerBreaks(s: Sys, u: Sys, call: Call)
    requires Inv(s) && u.calls == s.calls[s.next := call]
    requires !Idle(s, call.run) || (call.caller == NextCall && !NoNext(s, call.run.key))
    ensures !Inv(u)
  {
    hide Inv;
    NewRun(s, call.run.key);
    if !Idle(s, call.run) {
      var t :| t in s.calls && s.calls[t].run == call.run;
      assert t in u.calls && s.next in u.calls && t != s.next;
    } else {
      var t :| t in s.calls && s.calls[t].caller == NextCall && s.calls[t].run.key == call.run.key;
      assert t in u.calls && s.next in u.calls && t != s.next && SameNext(u.calls[t], u.calls[s.next]);
    }
    if Inv(u) {
      InvApart(u);
    }
  }

  lemma ClaimBreaks(s: Sys, k: Key)
    requires Inv(s) && Claimable(s, k) && !(Idle(s, s.installs[k]) && NoNext(s, k))
    ensures !Inv(ClaimNext(s, k))
  {
    hide Inv;
    InvHolder(s, k);
    hide HolderFits;
    var u := ClaimNext(s, k);
    NewcomerBreaks(s, u, u.calls[s.next]);
  }

  lemma StopBreaks(s: Sys, k: Key)
    requires Inv(s) && Stoppable(s, k) && !Idle(s, s.installs[k])
    ensures !Inv(Cancel(s, k))
  {
    hide Inv;
    var u := Cancel(s, k);
    NewcomerBreaks(s, u, u.calls[s.next]);
  }

  lemma PublishBreaks(s: Sys, t: nat, saved: bool)
    requires Inv(s) && AtPc(s, t, Dialling) && !MayPublish(s, t, saved)
    ensures !Inv(Publish(s, t, saved))
  {
    hide Inv;
    var r, u := s.calls[t].run, Publish(s, t, saved);
    var k, h := r.key, s.installs[r.key];
    InvHolder(s, k);
    hide HolderFits;
    PublishMoves(s, t, saved);
    assert h in u.runs && u.runs[h] == s.runs[h] && u.clients[k] == r;
    if Inv(u) {
      if s.runs[h].published && s.runs[h].state == Running {
        InvHolder(u, k);
        HolderOwnsClient(u, h);
      } else {
        var v :| v in s.calls && s.calls[v].run == h && s.calls[v].caller == AutoRunner;
        assert v in u.calls && u.calls[v] == s.calls[v] && u.cancels[k] == r;
        CallAt(u, v);
        hide CallFits;
      }
    }
  }

  lemma HolderOwnsClient(s: Sys, r: RunId)
    requires r in s.runs && HolderFits(s, r) && s.runs[r].published && s.runs[r].state == Running
    ensures r.key in s.clients && s.clients[r.key] == r
  {
  }

  /** Publishing keeps the manager in order exactly if it takes no running run's entries away. */
  lemma PublishIsSafe(s: Sys, t: nat, saved: bool)
    requires Inv(s) && AtPc(s, t, Dialling)
    ensures Inv(Publish(s, t, saved)) <==> MayPublish(s, t, saved)
  {
    hide *;
    if MayPublish(s, t, saved) { PublishKeeps(s, t, saved); } else { PublishBreaks(s, t, saved); }
  }

  /**
   Orderly use is neither too strict nor too loose: from a manager in order, an event leaves it
   in order if and only if the event is orderly.
   */
  lemma OrderlyIsExact(s: Sys, e: Event)
    requires Inv(s)
    ensures Inv(Step(s, e)) <==> Orderly(s, e)
  {
    hide Inv;
    if Orderly(s, e) {
      StepKeeps(s, e);
    } else {
      match e
      case Reserves(k, host, uninstall, manual, plan) => ReserveBreaks(s, k, host, uninstall, manual, plan);
      case Publishes(t, saved) => PublishBreaks(s, t, saved);
      case NextClaims(k) => ClaimBreaks(s, k);
      case CancelComes(k) => StopBreaks(s, k);
      case _ =>
    }
  }

  // ------------------------------------------------------------- callers who behave

  /** The run's launch has returned. */
  predicate Launched(s: Sys, r: RunId) {
    forall t :: t in s.calls && s.calls[t].run == r ==> s.calls[t].caller != Launcher
  }

  /** The moment a further Cancel must not meet: a Next has given up its claim and is about to end its cancelled run. */
  predicate Exposed(s: Sys, k: Key, t: nat) {
    && AtPc(s, t, Terminating) && s.calls[t].caller == NextCall && s.calls[t].run.key == k && Holds(s, s.calls[t].run)
    && s.runs[s.calls[t].run].state == Running && k !in s.busy && k !in s.cancels
  }

  /** The only call that can be at work on a launched running run nobody has claimed is such a Next. */
  lemma OnlyExposed(s: Sys, k: Key, t: nat)
    requires Inv(s) && Taken(s, k) && k !in s.busy && Launched(s, s.installs[k])
    requires s.runs[s.installs[k]].manual || k !in s.cancels
    requires t in s.calls && s.calls[t].run == s.installs[k]
    ensures s.calls[t].caller == NextCall && s.calls[t].pc == Terminating
  {
    hide Inv;
    InvHolder(s, k);
    hide HolderFits;
    hide Consistent;
    CallAt(s, t);
  }

  /**
   When a Cancel may end a run itself. With the launch returned, it leaves the manager in order
   if and only if no Next stands between giving up its claim on the key and ending its run; how
   often the run was cancelled before does not matter.
   */
  lemma CancelIsSafe(s: Sys, k: Key)
    requires Inv(s) && Stoppable(s, k) && Launched(s, s.installs[k])
    ensures Inv(Cancel(s, k)) <==> Idle(s, s.installs[k])
    ensures Inv(Cancel(s, k)) <==> forall t: nat :: !Exposed(s, k, t)
  {
    hide Inv;
    hide Cancel;
    var r := s.installs[k];
    InvHolder(s, k);
    hide HolderFits;
    if Idle(s, r) {
      StopKeeps(s, k);
      forall t: nat ensures !Exposed(s, k, t) {
        if t in s.calls { assert s.calls[t].run != r; }
      }
    } else {
      StopBreaks(s, k);
      var t :| t in s.calls && s.calls[t].run == r;
      OnlyExposed(s, k, t);
      assert Exposed(s, k, t);
    }
  }

  /** Calls that come one Next at a time to a key, after launch has returned, and cancel a run once, are orderly. */
  lemma PoliteCallersAreOrderly(s: Sys, k: Key)
    requires Inv(s) && k in s.installs && s.installs[k] in s.runs && Launched(s, s.installs[k])
    ensures NoNext(s, k) ==> Orderly(s, NextClaims(k))
    ensures s.runs[s.installs[k]].cancelled == 0 ==> Orderly(s, CancelComes(k))
  {
    hide Inv;
    InvHolder(s, k);
    hide HolderFits;
    var r := s.installs[k];
    forall t | t in s.calls && s.calls[t].run == r && Taken(s, k) && k !in s.busy
        && (s.runs[r].manual || k !in s.cancels)
      ensures s.calls[t].caller == NextCall && s.runs[r].cancelled >= 1
    {
      OnlyExposed(s, k, t);
      CallAt(s, t);
      hide CallFits;
    }
  }

  // ------------------------------------------------------------------- histories

  lemma AfterNext(events: seq<Event>, e: Event)
    ensures After(events + [e]) == Step(After(events), e)
  {
    assert (events + [e])[..|events|] == events;
  }

  lemma OrderlyNext(events: seq<Event>, e: Event)
    requires OrderlyHistory(events) && Orderly(After(events), e)
    ensures OrderlyHistory(events + [e]) && After(events + [e]) == Step(After(events), e)
  {
    AfterNext(events, e);
    hide After;
    hide Orderly;
    var all := events + [e];
    forall i | 0 <= i < |all| ensures Orderly(After(all[..i]), all[i]) {
      if i < |events| {
        assert all[..i] == events[..i] && all[i] == events[i];
      } else {
        assert all[..i] == events;
      }
    }
  }

  /** One manual run of one step, at work on it under a claim. */
  function OneStepRun(k: Key, uninstall: bool, kind: Kind, step: StepState, pc: Pc, asked: bool, saved: Run): Sys {
    var r := RunId(k, 0);
    var run := Run("", uninstall, true, [kind], [step], 0, Running, true, true, 0, false, if asked then 1 else 0);
    Sys(map[r := run], map[1 := Call(NextCall, r, Some(r), [kind], 0, pc)], 2, map[k := r], map[k := r],
        map[k := [kind]], map[], {k}, if asked then {k} else {}, map[k := saved])
  }

  function Reserved(k: Key, uninstall: bool, kind: Kind): Sys {
    var run := Run("", uninstall, true, [kind], [], 0, Running, false, false, 0, false, 0);
    Sys(map[RunId(k, 0) := run], map[0 := Call(Launcher, RunId(k, 0), None, [kind], 0, Dialling)], 1,
        map[k := RunId(k, 0)], map[], map[], map[], {}, {}, map[])
  }

  function Published(k: Key, uninstall: bool, kind: Kind): Sys {
    var run := Run("", uninstall, true, [kind], [Pending], 0, Running, true, true, 0, false, 0);
    Sys(map[RunId(k, 0) := run], map[], 1, map[k := RunId(k, 0)], map[k := RunId(k, 0)], map[k := [kind]],
        map[], {}, {}, map[k := run])
  }

  lemma FirstReserves(k: Key, uninstall: bool, kind: Kind)
    ensures var e := Reserves(k, "", uninstall, true, [kind]);
            Orderly(Empty(), e) && Step(Empty(), e) == Reserved(k, uninstall, kind)
  {
  }

  lemma FirstPublishes(k: Key, uninstall: bool, kind: Kind)
    ensures var s := Reserved(k, uninstall, kind);
            Orderly(s, Publishes(0, true)) && Step(s, Publishes(0, true)) == Published(k, uninstall, kind)
  {
    var s := Reserved(k, uninstall, kind);
    var r := RunId(k, 0);
    assert PublishedRun(s.runs[r], true) == Published(k, uninstall, kind).runs[r];
    hide PublishedRun;
  }

  lemma FirstClaims(k: Key, uninstall: bool, kind: Kind)
    ensures var s := Published(k, uninstall, kind);
            Orderly(s, NextClaims(k))
            && Step(s, NextClaims(k)) == OneStepRun(k, uninstall, kind, Pending, Beginning, false, s.runs[RunId(k, 0)])
  {
  }

  lemma FirstSteps(k: Key, uninstall: bool, kind: Kind)
    ensures var e1, e2, e3 := Reserves(k, "", uninstall, true, [kind]), Publishes(0, true), NextClaims(k);
            var run := Run("", uninstall, true, [kind], [Pending], 0, Running, true, true, 0, false, 0);
            && Orderly(Empty(), e1) && Orderly(Step(Empty(), e1), e2) && Orderly(Step(Step(Empty(), e1), e2), e3)
            && Step(Step(Step(Empty(), e1), e2), e3) == OneStepRun(k, uninstall, kind, Pending, Beginning, false, run)
  {
    hide Step;
    hide Orderly;
    FirstReserves(k, uninstall, kind);
    FirstPublishes(k, uninstall, kind);
    FirstClaims(k, uninstall, kind);
  }

  lemma StepUnderWay(k: Key, uninstall: bool, kind: Kind, saved: Run)
    ensures exists run ::
        Step(OneStepRun(k, uninstall, kind, Pending, Beginning, false, saved), Begins(1))
        == OneStepRun(k, uninstall, kind, Active, Executing, false, run)
  {
    var run := Run("", uninstall, true, [kind], [Active], 0, Running, true, true, 0, false, 0);
    var s := OneStepRun(k, uninstall, kind, Pending, Beginning, false, saved);
    assert [Pending][0 := Active] == [Active];
    assert Step(s, Begins(1)) == Begin(s, 1);
    assert s.runs[RunId(k, 0)].(steps := [Active]) == run;
    hide Step;
    assert Begin(s, 1) == OneStepRun(k, uninstall, kind, Active, Executing, false, run);
  }

  lemma CancelAsked(k: Key, saved: Run)
    ensures var s := OneStepRun(k, false, Detect, Active, Executing, false, saved);
            Orderly(s, CancelComes(k)) && Step(s, CancelComes(k))
                == OneStepRun(k, false, Detect, Active, Executing, true, saved)
  {
  }

  lemma StepDone(k: Key, saved: Run)
    ensures exists run ::
        Step(OneStepRun(k, false, Detect, Active, Executing, true, saved), Ends(1, Worked))
        == OneStepRun(k, false, Detect, Finished, Landing(false), true, run)
  {
    var run := Run("", false, true, [Detect], [Finished], 0, Running, true, true, 0, false, 1);
    assert [Active][0 := Finished] == [Finished];
    assert Step(OneStepRun(k, false, Detect, Active, Executing, true, saved), Ends(1, Worked))
        == OneStepRun(k, false, Detect, Finished, Landing(false), true, run);
  }

  lemma CancelHonoured(k: Key, saved: Run)
    ensures Exposed(Step(OneStepRun(k, false, Detect, Finished, Landing(false), true, saved), NextLands(1)), k, 1)
  {
  }

  lemma StepRunning(k: Key, uninstall: bool, kind: Kind) returns (events: seq<Event>, saved: Run)
    ensures OrderlyHistory(events) && After(events) == OneStepRun(k, uninstall, kind, Active, Executing, false, saved)
  {
    assert After([]) == Empty();
    hide *;
    FirstSteps(k, uninstall, kind);
    var one: seq<Event> := [Reserves(k, "", uninstall, true, [kind])];
    assert [] + one == one && OrderlyHistory([]) by { NothingHappened(); }
    OrderlyNext([], one[0]);
    OrderlyNext(one, Publishes(0, true));
    events := one + [Publishes(0, true)];
    OrderlyNext(events, NextClaims(k));
    events := events + [NextClaims(k)];
    saved := Run("", uninstall, true, [kind], [Pending], 0, Running, true, true, 0, false, 0);
    StepUnderWay(k, uninstall, kind, saved);
    saved :| After(events) == OneStepRun(k, uninstall, kind, Pending, Beginning, false, saved);
    AlwaysOrderly(After(events), Begins(1));
    OrderlyNext(events, Begins(1));
    events := events + [Begins(1)];
    saved :| After(events) == OneStepRun(k, uninstall, kind, Active, Executing, false, saved);
  }

  lemma ExposureIsReachable(k: Key) returns (events: seq<Event>)
    ensures OrderlyHistory(events) && Exposed(After(events), k, 1)
  {
    hide *;
    var saved;
    events, saved := StepRunning(k, false, Detect);
    CancelAsked(k, saved);
    OrderlyNext(events, CancelComes(k));
    events := events + [CancelComes(k)];
    StepDone(k, saved);
    AlwaysOrderly(After(events), Ends(1, Worked));
    OrderlyNext(events, Ends(1, Worked));
    events := events + [Ends(1, Worked)];
    saved :| After(events) == OneStepRun(k, false, Detect, Finished, Landing(false), true, saved);
    CancelHonoured(k, saved);
    AlwaysOrderly(After(events), NextLands(1));
    OrderlyNext(events, NextLands(1));
    events := events + [NextLands(1)];
  }

  lemma NothingHappened()
    ensures OrderlyHistory([])
  {
  }

  lemma AlwaysOrderly(s: Sys, e: Event)
    requires e.Loops? || e.Begins? || e.Ends? || e.NextLands? || e.CleansUp?
    ensures Orderly(s, e)
  {
  }

  /**
   A second Cancel in the moment a cancelled Next has given up its claim but not yet ended the
   run finds the run unclaimed, ends it too, and the client is closed twice.
   */
  lemma SecondCancelClosesTwice(events: seq<Event>, t: nat, k: Key) returns (more: seq<Event>)
    requires OrderlyHistory(events) && Exposed(After(events), k, t)
    ensures more == [CancelComes(k), Terminates(t), CleansUp(t), Terminates(After(events).next),
        CleansUp(After(events).next)]
    ensures var r := After(events).calls[t].run;
        r in After(events + more).runs && After(events + more).runs[r].closes == 2
  {
    hide Inv;
    hide After;
    hide Step;
    HistoryKeeps(events);
    var s := After(events);
    var c := s.next;
    more := [CancelComes(k), Terminates(t), CleansUp(t), Terminates(c), CleansUp(c)];
    var r := s.calls[t].run;
    HeldByNext(s, t, k);
    assert events + more
        == events + [CancelComes(k)] + [Terminates(t)] + [CleansUp(t)] + [Terminates(c)] + [CleansUp(c)];
    AfterNext(events, CancelComes(k));
    AfterNext(events + [CancelComes(k)], Terminates(t));
    AfterNext(events + [CancelComes(k)] + [Terminates(t)], CleansUp(t));
    AfterNext(events + [CancelComes(k)] + [Terminates(t)] + [CleansUp(t)], Terminates(c));
    AfterNext(events + [CancelComes(k)] + [Terminates(t)] + [CleansUp(t)] + [Terminates(c)], CleansUp(c));
    FiveSteps(s, t, k, r);
  }

  lemma HeldByNext(s: Sys, t: nat, k: Key)
    requires Inv(s) && AtPc(s, t, Terminating) && s.calls[t].caller == NextCall && s.calls[t].run.key == k
    requires Holds(s, s.calls[t].run) && s.runs[s.calls[t].run].state == Running
    ensures var r := s.calls[t].run;
            t < s.next && s.calls[t].client == Some(r) && k in s.clients && s.clients[k] == r && s.runs[r].closes == 0
  {
    hide Inv;
    CallAt(s, t);
    hide Claims;
  }

  lemma OneTermination(s: Sys, t: nat)
    requires AtPc(s, t, Terminating)
    ensures var r, u := s.calls[t].run, Step(s, Terminates(t));
            r in u.runs && u.runs[r].closes == s.runs[r].closes && u.calls == s.calls[t := s.calls[t].(pc := Cleaning)]
  {
  }

  lemma OneCleanup(s: Sys, t: nat)
    requires AtPc(s, t, Cleaning) && s.calls[t].client == Some(s.calls[t].run)
    ensures var r, u := s.calls[t].run, Step(s, CleansUp(t));
            r in u.runs && u.runs[r].closes == s.runs[r].closes + 1 && u.calls == s.calls - {t}
  {
  }

  lemma LateCancel(s: Sys, t: nat, k: Key, r: RunId)
    requires AtPc(s, t, Terminating) && s.calls[t].run == r && r.key == k && Holds(s, r)
    requires s.runs[r].state == Running && k !in s.busy && k !in s.cancels && k in s.clients && s.clients[k] == r
    ensures var u := Step(s, CancelComes(k));
            && r in u.runs && u.runs[r].closes == s.runs[r].closes
            && u.calls == s.calls[s.next := Call(CancelCall, r, Some(r), [], 0, Terminating)]
  {
  }

  lemma FiveSteps(s: Sys, t: nat, k: Key, r: RunId)
    requires AtPc(s, t, Terminating) && s.calls[t].run == r && r.key == k && Holds(s, r) && t < s.next
    requires s.runs[r].state == Running && k !in s.busy && k !in s.cancels
    requires s.calls[t].client == Some(r) && k in s.clients && s.clients[k] == r && s.runs[r].closes == 0
    ensures var c := s.next;
            var u := Step(Step(Step(Step(Step(s, CancelComes(k)), Terminates(t)), CleansUp(t)), Terminates(c)),
                CleansUp(c));
            r in u.runs && u.runs[r].closes == 2
  {
    hide Step;
    hide Holds;
    var c := s.next;
    var s1 := Step(s, CancelComes(k));
    LateCancel(s, t, k, r);
    var s2 := Step(s1, Terminates(t));
    OneTermination(s1, t);
    var s3 := Step(s2, CleansUp(t));
    OneCleanup(s2, t);
    var s4 := Step(s3, Terminates(c));
    OneTermination(s3, c);
    OneCleanup(s4, c);
  }

  // --------------------------------------- a cascade that meets a launch or a run

  /** A Next about to complete the removal of the App-Framework of a cluster. */
  predicate Removing(s: Sys, t: nat, cluster: string) {
    && AtPc(s, t, Executing) && s.calls[t].caller == NextCall && s.calls[t].run.key == Key(cluster, AppFw)
    && s.runs[s.calls[t].run].uninstall
    && s.calls[t].at < |s.runs[s.calls[t].run].steps| && s.calls[t].at < |s.calls[t].plan|
    && s.calls[t].plan[s.calls[t].at] == Complete
  }

  lemma CascadeDrops(s: Sys, r: RunId, k: Key)
    requires r in s.runs && s.runs[r].uninstall && s.runs[r].state == Succeeded && r.key == Key(k.cluster, AppFw)
    requires k.app != AppFw && (k in s.installs ==> s.installs[k] in s.runs && s.installs[k].key == k)
    ensures k !in Cascade(s, r).installs
  {
    assert k in s.installs ==> Dependent(s, r, k);
  }

  /** It takes every record of the cluster's other modules, whatever their runs are doing. */
  lemma CascadeTakes(s: Sys, t: nat, k: Key)
    requires Known(s) && Removing(s, t, k.cluster) && k.app != AppFw
    ensures var u := Step(s, Ends(t, Worked));
            && k !in u.installs && u.busy == s.busy && u.next == s.next
            && (forall q :: q in s.runs && q.key.app != AppFw ==> q in u.runs && u.runs[q] == s.runs[q])
            && (forall v :: v in s.calls && v != t ==> v in u.calls && u.calls[v] == s.calls[v])
            && (forall v :: v in u.calls ==> v in s.calls && u.calls[v].run == s.calls[v].run)
  {
    var r, call := s.calls[t].run, s.calls[t];
    var run' := Ended(s.runs[r], call.at, call.plan, Worked, false);
    EndIsQuiet(s, t, Worked);
    var v := Quiet(s, t, run', Some(EndCall(call, Worked)), true);
    assert Step(s, Ends(t, Worked)) == Cascade(v, r);
    hide End;
    hide Step;
    CascadeShrinks(v, r);
    CascadeDrops(v, r, k);
    hide Cascade;
    hide Dependent;
  }

  lemma ReserveTakes(s: Sys, k: Key, host: string, uninstall: bool, manual: bool, plan: seq<Kind>)
    requires !Taken(s, k)
    ensures var u := Step(s, Reserves(k, host, uninstall, manual, plan));
            var r := RunId(k, s.next);
            && AtPc(u, s.next, Dialling) && u.calls[s.next].run == r && Holds(u, r) && u.next == s.next + 1
            && u.runs == s.runs[r := Run(host, uninstall, manual, plan, [], 0, Running, false, false, 0, false, 0)]
            && (forall v :: v in s.calls && v != s.next ==> v in u.calls && u.calls[v] == s.calls[v])
            && (forall v :: v in u.calls && v != s.next ==> v in s.calls)
            && u.cancels == s.cancels && u.busy == s.busy && u.clients == s.clients && u.plans == s.plans
  {
  }

  lemma PublishTakes(s: Sys, t: nat)
    requires AtPc(s, t, Dialling) && s.runs[s.calls[t].run].manual
    ensures var r, u := s.calls[t].run, Step(s, Publishes(t, true));
            && u.runs == s.runs[r := PublishedRun(s.runs[r], true)] && u.calls == s.calls - {t} && u.next == s.next
            && u.installs == s.installs && u.cancels == s.cancels && u.busy == s.busy
            && u.clients == s.clients[r.key := r] && u.plans == s.plans[r.key := s.runs[r].plan]
  {
  }

  /** The App-Framework of a cluster is being removed while its CMP is being launched, by call 2. */
  predicate Meeting(s: Sys, c: string, pc: Pc) {
    var k := Key(c, Cmp);
    && Removing(s, 1, c) && s.next == 3 && k !in s.busy && k !in s.cancels
    && Holds(s, RunId(k, 2)) && RunId(k, 2) in s.runs && s.runs[RunId(k, 2)].manual
    && s.runs[RunId(k, 2)].plan == [Detect] && s.runs[RunId(k, 2)].state == Running
    && if pc == Dialling then AtPc(s, 2, Dialling) && s.calls[2].run == RunId(k, 2)
       else Idle(s, RunId(k, 2)) && s.runs[RunId(k, 2)].published
  }

  lemma LaunchMeetsRemoval(c: string) returns (events: seq<Event>)
    ensures OrderlyHistory(events) && Meeting(After(events), c, Dialling)
  {
    hide *;
    var k, saved := Key(c, Cmp), Run("", true, true, [Complete], [], 0, Running, false, false, 0, false, 0);
    events, saved := StepRunning(Key(c, AppFw), true, Complete);
    var s := After(events);
    var e := Reserves(k, "", false, true, [Detect]);
    RemovalUnderWay(c, saved);
    OrderlyNext(events, e);
    events := events + [e];
  }

  lemma RemovalUnderWay(c: string, saved: Run)
    ensures var s := OneStepRun(Key(c, AppFw), true, Complete, Active, Executing, false, saved);
            var e := Reserves(Key(c, Cmp), "", false, true, [Detect]);
            Orderly(s, e) && Meeting(Step(s, e), c, Dialling)
  {
    ReserveTakes(OneStepRun(Key(c, AppFw), true, Complete, Active, Executing, false, saved), Key(c, Cmp), "", false,
        true, [Detect]);
  }

  /** A launch under its key publishes; it is manual, so nobody is at work on it until its first Next. */
  lemma MeetingPublished(s: Sys, c: string)
    requires Inv(s) && Meeting(s, c, Dialling)
    ensures Orderly(s, Publishes(2, true)) && Meeting(Step(s, Publishes(2, true)), c, Executing)
  {
    hide Inv;
    InvApart(s);
    PublishTakes(s, 2);
    hide Step;
  }

  /** A cascade may take the key from a launch that is still dialling; nobody has misbehaved. */
  lemma LaunchCanLoseItsKey(c: string) returns (events: seq<Event>)
    ensures OrderlyHistory(events)
    ensures var s, k := After(events), Key(c, Cmp);
            && AtPc(s, 2, Dialling) && s.calls[2].run == RunId(k, 2) && k !in s.installs && k !in s.busy
            && s.next == 3 && s.runs[RunId(k, 2)].plan == [Detect]
  {
    hide *;
    events := LaunchMeetsRemoval(c);
    var s := After(events);
    HistoryKeeps(events);
    AlwaysOrderly(s, Ends(1, Worked));
    OrderlyNext(events, Ends(1, Worked));
    events := events + [Ends(1, Worked)];
    KeyTaken(s, c);
  }

  lemma KeyTaken(s: Sys, c: string)
    requires Inv(s) && Meeting(s, c, Dialling)
    ensures var u, k := Step(s, Ends(1, Worked)), Key(c, Cmp);
            && AtPc(u, 2, Dialling) && u.calls[2].run == RunId(k, 2) && k !in u.installs && k !in u.busy
            && u.next == 3 && u.runs[RunId(k, 2)].plan == [Detect]
  {
    hide Inv;
    InvApart(s);
    CascadeTakes(s, 1, Key(c, Cmp));
    hide Step;
  }

  /**
   The late launch of call 2 may not publish, since run 3 is running under the key; if it does,
   the key's next step is taken for run 3 but over the late launch's client.
   */
  predicate TakesOver(s: Sys, k: Key, saved: bool) {
    && AtPc(s, 2, Dialling) && s.calls[2].run == RunId(k, 2) && Holds(s, RunId(k, 3))
    && !MayPublish(s, 2, saved) &&
    var u := Step(Step(s, Publishes(2, saved)), NextClaims(k));
    s.next in u.calls && u.calls[s.next].run == RunId(k, 3) && u.calls[s.next].client == Some(RunId(k, 2))
  }

  /** A manual run of one step, just launched, with an older launch of its key still dialling. */
  predicate Overtaken(s: Sys, k: Key) {
    && AtPc(s, 2, Dialling) && s.calls[2].run == RunId(k, 2) && s.runs[RunId(k, 2)].plan == [Detect]
    && Holds(s, RunId(k, 3)) && RunId(k, 3) in s.runs && k !in s.busy && s.next == 4 &&
    var run := s.runs[RunId(k, 3)];
    run.published && run.state == Running && run.manual && run.current == 0
  }

  lemma RelaunchIsOrderly(s: Sys, k: Key)
    requires AtPc(s, 2, Dialling) && s.calls[2].run == RunId(k, 2) && k !in s.installs && k !in s.busy && s.next == 3
    requires s.runs[RunId(k, 2)].plan == [Detect]
    ensures var e := Reserves(k, "", false, true, [Detect]);
            && Orderly(s, e) && Orderly(Step(s, e), Publishes(3, true))
            && Overtaken(Step(Step(s, e), Publishes(3, true)), k)
  {
    var e := Reserves(k, "", false, true, [Detect]);
    ReserveTakes(s, k, "", false, true, [Detect]);
    PublishTakes(Step(s, e), 3);
    hide Step;
  }

  lemma StolenClient(s: Sys, k: Key, saved: bool)
    requires Overtaken(s, k)
    ensures TakesOver(s, k, saved)
  {
    var u := Step(s, Publishes(2, saved));
    assert u.runs[RunId(k, 3)] == s.runs[RunId(k, 3)] && u.plans[k] == [Detect] && u.clients[k] == RunId(k, 2);
  }

  /** What that can lead to, once the module has been launched again. */
  lemma LateLaunchTakesOver(c: string) returns (events: seq<Event>)
    ensures OrderlyHistory(events) && forall saved :: TakesOver(After(events), Key(c, Cmp), saved)
  {
    hide *;
    events := LaunchCanLoseItsKey(c);
    var k := Key(c, Cmp);
    var e := Reserves(k, "", false, true, [Detect]);
    RelaunchIsOrderly(After(events), k);
    OrderlyNext(events, e);
    events := events + [e];
    OrderlyNext(events, Publishes(3, true));
    events := events + [Publishes(3, true)];
    forall saved ensures TakesOver(After(events), k, saved) {
      StolenClient(After(events), k, saved);
    }
  }
}
