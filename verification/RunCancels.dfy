/** What a Cancel achieves, and which runs do not hear one. */
module RunCancels {
  import opened Basics
  import opened RunPlans
  import opened RunManager
  import opened RunSafety
  import opened RunTheorems
  import opened RunLimits
  import opened RunClosing

  predicate Working(s: Sys, r: RunId) {
    exists t :: t in s.calls && s.calls[t].run == r && Busying(s.calls[t])
  }

  /** A Cancel has got through to a manual run: it is cancelled, or the Next at work on it finds word left. */
  predicate Reached(s: Sys, r: RunId) {
    r in s.runs && (s.runs[r].state == Cancelled || (r.key in s.cancelReq && Working(s, r)))
  }

  /**
   Which manual runs hear a Cancel. With no word left before, a Cancel on the key of a running
   manual run gets through to it if and only if the key has no cancel entry and, should the key's
   step be claimed, it is this run's Next that claimed it.
   */
  lemma CancelReaches(s: Sys, k: Key)
    requires Inv(s) && Taken(s, k) && s.runs[s.installs[k]].manual && k !in s.cancelReq
    ensures Reached(Step(s, CancelComes(k)), s.installs[k])
        <==> k !in s.cancels && (k in s.busy ==> Working(s, s.installs[k]))
  {
    hide Inv;
    InvHolder(s, k);
    hide HolderFits;
    var r, u := s.installs[k], Cancel(s, k);
    if k in s.busy || k in s.cancels {
      assert u.calls == s.calls;
      assert Working(u, r) <==> Working(s, r);
    }
  }

  /** An automatic run always hears it: the key's cancel entry is its own. */
  lemma AutomaticHears(s: Sys, k: Key)
    requires Inv(s) && Taken(s, k) && s.runs[s.installs[k]].published && !s.runs[s.installs[k]].manual
    ensures var r, u := s.installs[k], Step(s, CancelComes(k));
            k in s.cancels && s.cancels[k] == r && r in u.runs && u.runs[r].interrupted
  {
    hide Inv;
    hide Consistent;
    InvHolder(s, k);
    hide HolderFits;
    var r := s.installs[k];
    if t :| t in s.calls && s.calls[t].run == r {
      CallAt(s, t);
    } else {
      assert Idle(s, r);
      InvIdle(s, r);
    }
  }

  /** Word that was left ends the run when the step under way lands, however that went. */
  lemma WordEndsTheRun(s: Sys, t: nat, failed: bool)
    requires AtPc(s, t, Landing(failed)) && s.calls[t].run.key in s.cancelReq
    ensures var r, u := s.calls[t].run, Step(Step(s, NextLands(t)), Terminates(t));
            r in u.runs && u.runs[r].state == Cancelled && NoneActive(u.runs[r])
  {
    var u := Step(s, NextLands(t));
    hide LandedRun;
    assert AtPc(u, t, Terminating) && u.calls[t].run == s.calls[t].run;
    hide LandNext;
  }

  // ------------------------------------------------------- what a section leaves alone

  /** A call's section drops an entry of its own key only, and does not change what kind of run it works on. */
  predicate KeyLocal(s: Sys, u: Sys, t: nat)
    requires t in s.calls
  {
    var q := s.calls[t].run;
    && (q in s.runs ==>
        q in u.runs && u.runs[q].manual == s.runs[q].manual && (s.runs[q].published ==> u.runs[q].published))
    && (forall k :: k in s.cancelReq ==> k in u.cancelReq || (k == q.key && (s.calls[t].pc.Landing? || Departs(s, t))))
    && (forall k :: k in s.cancels ==> k in u.cancels || (k == q.key && Departs(s, t)))
  }

  predicate Departs(s: Sys, t: nat)
    requires t in s.calls
  {
    s.calls[t].pc == Cleaning && Holds(s, s.calls[t].run)
  }

  lemma NothingIsKeyLocal(s: Sys, t: nat)
    requires t in s.calls
    ensures KeyLocal(s, s, t)
  {
  }

  lemma QuietIsKeyLocal(s: Sys, t: nat, u: Sys)
    requires t in s.calls && s.calls[t].run in s.runs && s.calls[t].run in u.runs
    requires u.cancels == s.cancels && u.cancelReq == s.cancelReq
    requires var q := s.calls[t].run;
             u.runs[q].manual == s.runs[q].manual && (s.runs[q].published ==> u.runs[q].published)
    ensures KeyLocal(s, u, t)
  {
  }

  lemma LoopIsKeyLocal(s: Sys, t: nat)
    requires AtPc(s, t, LoopTop)
    ensures KeyLocal(s, LoopBody(s, t), t)
  {
    QuietIsKeyLocal(s, t, LoopBody(s, t));
    hide KeyLocal;
  }

  lemma BeginIsKeyLocal(s: Sys, t: nat)
    requires AtPc(s, t, Beginning)
    ensures KeyLocal(s, Begin(s, t), t)
  {
    QuietIsKeyLocal(s, t, Begin(s, t));
    hide KeyLocal;
  }

  lemma AdvanceIsKeyLocal(s: Sys, t: nat)
    requires AtPc(s, t, Advancing)
    ensures KeyLocal(s, Advance(s, t), t)
  {
    QuietIsKeyLocal(s, t, Advance(s, t));
    hide KeyLocal;
  }

  lemma TerminateIsKeyLocal(s: Sys, t: nat)
    requires AtPc(s, t, Terminating)
    ensures KeyLocal(s, Terminate(s, t), t)
  {
    hide Stopped;
    QuietIsKeyLocal(s, t, Terminate(s, t));
    hide KeyLocal;
  }

  lemma RollbackIsKeyLocal(s: Sys, t: nat)
    requires t in s.calls && s.calls[t].run in s.runs
    ensures KeyLocal(s, Rollback(s, t), t)
  {
    QuietIsKeyLocal(s, t, Rollback(s, t));
    hide KeyLocal;
  }

  lemma EndIsKeyLocal(s: Sys, t: nat, o: Outcome)
    requires AtPc(s, t, Executing)
    ensures KeyLocal(s, End(s, t, o), t)
  {
    var r, call := s.calls[t].run, s.calls[t];
    NothingIsKeyLocal(s, t);
    if EndFits(call, s.runs[r], o) {
      EndIsQuiet(s, t, o);
      var u := Quiet(s, t, EndRun(s.runs[r], call, o), Some(EndCall(call, o)), true);
      CascadeShrinks(u, r);
      hide Cascade;
      QuietIsKeyLocal(s, t, End(s, t, o));
      hide End;
      hide KeyLocal;
    }
  }

  lemma ConcludeIsKeyLocal(s: Sys, t: nat)
    requires AtPc(s, t, Finishing)
    ensures KeyLocal(s, Conclude(s, t), t)
  {
    var r := s.calls[t].run;
    CascadeShrinks(Save(Put(s, r, s.runs[r].(state := Succeeded)), r), r);
    hide Cascade;
    QuietIsKeyLocal(s, t, Conclude(s, t));
    hide KeyLocal;
  }

  lemma PublishIsKeyLocal(s: Sys, t: nat, saved: bool)
    requires AtPc(s, t, Dialling)
    ensures KeyLocal(s, Publish(s, t, saved), t)
  {
    PublishMoves(s, t, saved);
    hide Publish;
  }

  lemma LandIsKeyLocal(s: Sys, t: nat, failed: bool)
    requires AtPc(s, t, Landing(failed))
    ensures KeyLocal(s, LandNext(s, t, failed), t)
  {
  }

  lemma CleanIsKeyLocal(s: Sys, t: nat)
    requires AtPc(s, t, Cleaning)
    ensures KeyLocal(s, Clean(s, t), t)
  {
  }

  lemma SectionIsKeyLocal(s: Sys, e: Event, t: nat)
    requires t in s.calls && CallOf(e) == Some(t)
    ensures KeyLocal(s, Step(s, e), t)
  {
    hide KeyLocal;
    hide Rollback;
    hide Publish;
    hide LoopBody;
    hide Begin;
    hide End;
    hide Advance;
    hide Conclude;
    hide LandNext;
    hide Terminate;
    hide Clean;
    NothingIsKeyLocal(s, t);
    if s.calls[t].run in s.runs {
      match e
      case DialFails(_) => RollbackIsKeyLocal(s, t);
      case Publishes(_, saved) => if AtPc(s, t, Dialling) { PublishIsKeyLocal(s, t, saved); }
      case RollsBack(_) => RollbackIsKeyLocal(s, t);
      case Loops(_) => if AtPc(s, t, LoopTop) { LoopIsKeyLocal(s, t); }
      case Begins(_) => if AtPc(s, t, Beginning) { BeginIsKeyLocal(s, t); }
      case Ends(_, o) => if AtPc(s, t, Executing) { EndIsKeyLocal(s, t, o); }
      case Advances(_) => if AtPc(s, t, Advancing) { AdvanceIsKeyLocal(s, t); }
      case Completes(_) => if AtPc(s, t, Finishing) { ConcludeIsKeyLocal(s, t); }
      case NextLands(_) => if s.calls[t].pc.Landing? { LandIsKeyLocal(s, t, s.calls[t].pc.failed); }
      case Terminates(_) => if AtPc(s, t, Terminating) { TerminateIsKeyLocal(s, t); }
      case CleansUp(_) => if AtPc(s, t, Cleaning) { CleanIsKeyLocal(s, t); }
    }
  }

  // ------------------------------------------------------------- word stays

  /** Word has been left for the Next at work on a run that holds its key. */
  predicate WordLeft(s: Sys, t: nat) {
    t in s.calls && Busying(s.calls[t]) && Holds(s, s.calls[t].run) && s.calls[t].run.key in s.cancelReq
  }

  /** The call stays busy on its run, and all words that were left are kept. */
  predicate StillBusy(s: Sys, u: Sys, t: nat)
    requires t in s.calls
  {
    t in u.calls && Busying(u.calls[t]) && u.calls[t].run == s.calls[t].run && u.cancelReq == s.cancelReq
  }

  lemma BeginStaysBusy(s: Sys, t: nat)
    requires AtPc(s, t, Beginning) && Busying(s.calls[t])
    ensures StillBusy(s, Begin(s, t), t)
  {
  }

  lemma EndStaysBusy(s: Sys, t: nat, o: Outcome)
    requires AtPc(s, t, Executing) && Busying(s.calls[t])
    ensures StillBusy(s, End(s, t, o), t)
  {
    var r, call := s.calls[t].run, s.calls[t];
    if EndFits(call, s.runs[r], o) {
      EndIsQuiet(s, t, o);
      hide End;
      CascadeShrinks(Quiet(s, t, EndRun(s.runs[r], call, o), Some(EndCall(call, o)), true), r);
      hide Cascade;
      hide EndRun;
    }
  }

  lemma OwnSectionKeepsWord(s: Sys, e: Event, t: nat)
    requires t in s.calls && Busying(s.calls[t]) && CallOf(e) == Some(t) && e != NextLands(t)
    ensures StillBusy(s, Step(s, e), t)
  {
    hide Begin;
    hide End;
    assert StillBusy(s, s, t);
    hide StillBusy;
    if s.calls[t].run in s.runs {
      match e
      case Begins(_) => if AtPc(s, t, Beginning) { BeginStaysBusy(s, t); }
      case Ends(_, o) => if AtPc(s, t, Executing) { EndStaysBusy(s, t, o); }
      case _ =>
    }
  }

  lemma LandingIsNext(s: Sys, v: nat)
    requires Inv(s) && v in s.calls && s.calls[v].pc.Landing?
    ensures s.calls[v].caller == NextCall
  {
    hide Inv;
    CallAt(s, v);
    hide Claims;
    hide HolderFits;
  }

  lemma OtherSectionKeepsWord(s: Sys, e: Event, t: nat, v: nat)
    requires Inv(s) && WordLeft(s, t) && CallOf(e) == Some(v) && v != t && v in s.calls
    ensures var u := Step(s, e);
            t in u.calls && u.calls[t] == s.calls[t] && s.calls[t].run.key in u.cancelReq
  {
    hide Inv;
    hide Claims;
    hide CallFits;
    hide HolderFits;
    CallAt(s, t);
    OwnClient(s, v);
    SectionIsLocal(s, e, v);
    SectionIsKeyLocal(s, e, v);
    if s.calls[v].pc.Landing? { LandingIsNext(s, v); }
    hide Step;
  }

  /** It stays until that Next lands, whatever else happens, unless a cascade takes the run's key. */
  lemma WordStays(s: Sys, e: Event, t: nat)
    requires Inv(s) && WordLeft(s, t) && e != NextLands(t) && !e.Crashes?
    ensures var r, u := s.calls[t].run, Step(s, e);
            t in u.calls && u.calls[t].run == r && (Holds(u, r) ==> WordLeft(u, t))
  {
    hide Inv;
    hide Step;
    if CallOf(e).Some? {
      var v := CallOf(e).value;
      if v == t {
        OwnSectionKeepsWord(s, e, t);
      } else if v in s.calls {
        OtherSectionKeepsWord(s, e, t, v);
      } else {
        NothingHappens(s, e);
      }
    } else {
      InvApart(s);
      KeyEventKeepsCalls(s, e, t);
      KeyEventKeepsWord(s, e, s.calls[t].run.key);
    }
  }

  lemma KeyEventKeepsWord(s: Sys, e: Event, k: Key)
    requires (e.Reserves? || e.NextClaims? || e.CancelComes?) && k in s.cancelReq
    ensures k in Step(s, e).cancelReq
  {
  }

  // ------------------------------------------------------------ runs that do not hear

  /** A manual run under way whose key carries a cancel entry left by an earlier run. */
  predicate Deaf(s: Sys, r: RunId) {
    && r in s.runs && Holds(s, r) && s.runs[r].published && s.runs[r].manual && s.runs[r].state == Running
    && r.key in s.cancels
  }

  /** No Cancel on its key touches such a run or leaves word for its Next... */
  lemma DeafToCancel(s: Sys, r: RunId)
    requires Deaf(s, r)
    ensures var u := Step(s, CancelComes(r.key));
            r in u.runs && u.runs[r].state == Running && u.runs[r].steps == s.runs[r].steps && u.calls == s.calls
                && u.cancelReq == s.cancelReq
  {
  }

  /** ...and it stays so while the run is running under its key. */
  lemma DeafStays(s: Sys, e: Event, r: RunId)
    requires Inv(s) && Deaf(s, r) && !e.Crashes?
    ensures var u := Step(s, e);
            r in u.runs && (Holds(u, r) && u.runs[r].state == Running ==> Deaf(u, r))
  {
    hide Inv;
    if CallOf(e).Some? {
      hide Step;
      var v := CallOf(e).value;
      if v in s.calls {
        SectionKeepsDeaf(s, e, r, v);
      } else {
        NothingHappens(s, e);
      }
    } else {
      InvApart(s);
      KeyEventKeepsDeaf(s, e, r);
    }
  }

  lemma SectionKeepsDeaf(s: Sys, e: Event, r: RunId, v: nat)
    requires Inv(s) && Deaf(s, r) && CallOf(e) == Some(v) && v in s.calls
    ensures var u := Step(s, e);
            r in u.runs && u.runs[r].manual && u.runs[r].published && r.key in u.cancels
  {
    hide Inv;
    hide Step;
    hide Consistent;
    OwnClient(s, v);
    SectionIsLocal(s, e, v);
    SectionIsKeyLocal(s, e, v);
    CallAt(s, v);
    hide Claims;
    hide HolderFits;
  }

  predicate SameKind(s: Sys, u: Sys, r: RunId)
    requires r in s.runs
  {
    && r in u.runs && u.runs[r].manual == s.runs[r].manual && u.runs[r].published == s.runs[r].published
    && u.cancels == s.cancels
  }

  lemma ReserveKeepsKind(s: Sys, k: Key, host: string, uninstall: bool, manual: bool, plan: seq<Kind>, r: RunId)
    requires Known(s) && r in s.runs
    ensures SameKind(s, Reserve(s, k, host, uninstall, manual, plan), r)
  {
  }

  lemma OneRecordKeepsKind(s: Sys, u: Sys, q: RunId, run: Run, r: RunId)
    requires r in s.runs && q in s.runs && run.manual == s.runs[q].manual && run.published == s.runs[q].published
    requires u.cancels == s.cancels && (u.runs == s.runs || u.runs == s.runs[q := run])
    ensures SameKind(s, u, r)
  {
  }

  lemma CancelKeepsKind(s: Sys, k: Key, r: RunId)
    requires r in s.runs
    ensures SameKind(s, Cancel(s, k), r)
  {
    hide SameKind;
    if k in s.cancels && s.cancels[k] in s.runs {
      var q := s.cancels[k];
      OneRecordKeepsKind(s, Cancel(s, k), q, s.runs[q].(interrupted := true), r);
    } else if k !in s.cancels && Taken(s, k) {
      OneRecordKeepsKind(s, Cancel(s, k), s.installs[k], Cancel(s, k).runs[s.installs[k]], r);
    } else {
      OneRecordKeepsKind(s, s, r, s.runs[r], r);
    }
  }

  lemma KeyEventKeepsDeaf(s: Sys, e: Event, r: RunId)
    requires Known(s) && Deaf(s, r) && (e.Reserves? || e.NextClaims? || e.CancelComes?)
    ensures var u := Step(s, e);
            r in u.runs && u.runs[r].manual && u.runs[r].published && r.key in u.cancels
  {
    hide Reserve;
    hide Cancel;
    match e
    case Reserves(k, host, uninstall, manual, plan) => ReserveKeepsKind(s, k, host, uninstall, manual, plan, r);
    case NextClaims(k) =>
    case CancelComes(k) => CancelKeepsKind(s, k, r);
  }

  // ---------------------------------------------------------------- and they occur

  /** One automatic run of one step. */
  function OneAutomaticRun(k: Key, step: StepState, state: RunState, pc: Pc, saved: Run): Sys {
    var r := RunId(k, 0);
    Sys(map[r := Run("", false, false, [Detect], [step], 0, state, true, true, 0, false, 0)],
        map[0 := Call(AutoRunner, r, Some(r), [Detect], 0, pc)], 1, map[k := r], map[k := r], map[k := [Detect]],
        map[k := r], {}, {}, map[k := saved])
  }

  lemma AutomaticLaunch(k: Key)
    ensures var e1, e2 := Reserves(k, "", false, false, [Detect]), Publishes(0, true);
            var saved := Run("", false, false, [Detect], [Pending], 0, Running, true, true, 0, false, 0);
            && Orderly(Empty(), e1) && Orderly(Step(Empty(), e1), e2)
            && Step(Step(Empty(), e1), e2) == OneAutomaticRun(k, Pending, Running, LoopTop, saved)
  {
    var r := RunId(k, 0);
    var run := Run("", false, false, [Detect], [], 0, Running, false, false, 0, false, 0);
    var s1 := Sys(map[r := run], map[0 := Call(Launcher, r, None, [Detect], 0, Dialling)], 1, map[k := r], map[],
        map[], map[], {}, {}, map[]);
    assert Step(Empty(), Reserves(k, "", false, false, [Detect])) == s1;
    assert PublishedRun(run, true) == run.(dialled := true, published := true, steps := [Pending]);
  }

  lemma AutomaticLoop(k: Key, saved: Run)
    ensures Step(OneAutomaticRun(k, Pending, Running, LoopTop, saved), Loops(0))
        == OneAutomaticRun(k, Pending, Running, Beginning, saved)
  {
  }

  lemma AutomaticStep(k: Key, saved: Run)
    ensures exists now ::
        Step(OneAutomaticRun(k, Pending, Running, Beginning, saved), Begins(0))
        == OneAutomaticRun(k, Active, Running, Executing, now)
  {
    var now := Run("", false, false, [Detect], [Active], 0, Running, true, true, 0, false, 0);
    assert [Pending][0 := Active] == [Active];
    var s, u := OneAutomaticRun(k, Pending, Running, Beginning, saved),
        OneAutomaticRun(k, Active, Running, Executing, now);
    assert Begin(s, 0) == u;
    hide OneAutomaticRun;
    assert Step(s, Begins(0)) == u;
  }

  lemma AutomaticFailure(k: Key, saved: Run)
    ensures exists now ::
        Step(OneAutomaticRun(k, Active, Running, Executing, saved), Ends(0, Failed))
        == OneAutomaticRun(k, Errored, Broken, Cleaning, now)
  {
    var now := Run("", false, false, [Detect], [Errored], 0, Broken, true, true, 0, false, 0);
    assert [Active][0 := Errored] == [Errored];
    var s, u := OneAutomaticRun(k, Active, Running, Executing, saved),
        OneAutomaticRun(k, Errored, Broken, Cleaning, now);
    assert End(s, 0, Failed) == u;
    hide OneAutomaticRun;
    assert Step(s, Ends(0, Failed)) == u;
  }

  /** A cleanup that comes after the key has passed on leaves the key's cancel entry behind. */
  lemma LateCleanupLeavesEntry(s: Sys, t: nat)
    requires AtPc(s, t, Cleaning) && !Holds(s, s.calls[t].run)
    ensures var u := Step(s, CleansUp(t));
            && u.calls == s.calls - {t} && u.cancels == s.cancels && u.installs == s.installs
            && forall q :: q in s.runs && (s.calls[t].client != Some(q)) ==> q in u.runs && u.runs[q] == s.runs[q]
  {
  }

  /** A manual run launched between an automatic run's failure and its cleanup. */
  lemma Relaunched(k: Key, saved: Run)
    ensures var s := OneAutomaticRun(k, Errored, Broken, Cleaning, saved);
            var e1 := Reserves(k, "", false, true, [Detect]);
            var u := Step(Step(s, e1), CleansUp(0));
            Orderly(s, e1) && Orderly(u, Publishes(1, true)) && Deaf(Step(u, Publishes(1, true)), RunId(k, 1))
  {
    var s := OneAutomaticRun(k, Errored, Broken, Cleaning, saved);
    var e1 := Reserves(k, "", false, true, [Detect]);
    ReserveTakes(s, k, "", false, true, [Detect]);
    hide Step;
    var v, u := Step(s, e1), Step(Step(s, e1), CleansUp(0));
    LateCleanupLeavesEntry(v, 0);
    assert AtPc(u, 1, Dialling) && Holds(u, RunId(k, 1)) && u.runs[RunId(k, 1)] == v.runs[RunId(k, 1)];
    PublishTakes(u, 1);
  }

  lemma RunsCanBeDeaf(k: Key) returns (events: seq<Event>)
    ensures OrderlyHistory(events) && Deaf(After(events), RunId(k, 1))
  {
    assert After([]) == Empty();
    hide *;
    var saved := Run("", false, false, [Detect], [Pending], 0, Running, true, true, 0, false, 0);
    AutomaticLaunch(k);
    NothingHappened();
    OrderlyNext([], Reserves(k, "", false, false, [Detect]));
    events := [] + [Reserves(k, "", false, false, [Detect])];
    OrderlyNext(events, Publishes(0, true));
    events := events + [Publishes(0, true)];
    AutomaticLoop(k, saved);
    AutomaticStep(k, saved);
    AlwaysOrderly(After(events), Loops(0));
    OrderlyNext(events, Loops(0));
    events := events + [Loops(0)];
    AlwaysOrderly(After(events), Begins(0));
    OrderlyNext(events, Begins(0));
    events := events + [Begins(0)];
    saved :| After(events) == OneAutomaticRun(k, Active, Running, Executing, saved);
    AutomaticFailure(k, saved);
    AlwaysOrderly(After(events), Ends(0, Failed));
    OrderlyNext(events, Ends(0, Failed));
    events := events + [Ends(0, Failed)];
    saved :| After(events) == OneAutomaticRun(k, Errored, Broken, Cleaning, saved);
    Relaunched(k, saved);
    OrderlyNext(events, Reserves(k, "", false, true, [Detect]));
    events := events + [Reserves(k, "", false, true, [Detect])];
    AlwaysOrderly(After(events), CleansUp(0));
    OrderlyNext(events, CleansUp(0));
    events := events + [CleansUp(0)];
    OrderlyNext(events, Publishes(1, true));
    events := events + [Publishes(1, true)];
  }
}
