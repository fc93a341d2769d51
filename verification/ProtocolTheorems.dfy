/** The deploy protocol's guarantees, over every run of one generation. */
module ProtocolTheorems {
  import opened Basics
  import opened Sel
  import opened Deploy
  import opened Protocol
  import opened ProtocolSafety

  ghost predicate NeverReleased(events: seq<Event>, h: Host) {
    forall i :: 0 <= i < |events| ==> events[i] != Driver(OperatorReleases(h))
  }

  lemma {:induction false} ReleasedOnlyByHand(l: Launch, events: seq<Event>, h: Host)
    requires NeverReleased(events, h)
    ensures h !in Run(Init(l), events).released
    decreases |events|
  {
    if events != [] {
      ReleasedOnlyByHand(l, events[..|events| - 1], h);
      assert events[|events| - 1] != Driver(OperatorReleases(h));
    }
  }

  lemma StartShape(l: Launch)
    requires Launchable(l)
    ensures var s := Init(l);
            && s.agents.Keys == l.logs.Keys && s.d.master == l.master && s.d.manual == l.manual
                && s.d.skewLimit == l.skewLimit
  {
  }

  lemma {:induction false} RunFixed(l: Launch, events: seq<Event>)
    requires Launchable(l)
    ensures var s := Run(Init(l), events);
            && Shape(s) && s.agents.Keys == l.logs.Keys && s.d.master == l.master
            && s.d.manual == l.manual && s.d.skewLimit == l.skewLimit
    decreases |events|
  {
    hide Inv;
    hide Shape;
    hide Launchable;
    if events == [] {
      InitKeeps(l);
      Shaped(Init(l));
      StartShape(l);
    } else {
      hide Init;
      hide Step;
      var s := Run(Init(l), events[..|events| - 1]);
      RunFixed(l, events[..|events| - 1]);
      RunKeeps(l, events);
      Shaped(Run(Init(l), events));
      StepGrows(s, events[|events| - 1]);
    }
  }

  /** The invariant at one node, at any point of any run. */
  lemma Reached(l: Launch, events: seq<Event>, h: Host)
    requires Launchable(l) && h in l.logs
    ensures var s := Run(Init(l), events);
            && Shape(s) && Barriers(s) && h in s.d.nodes && NodeOk(s, h)
            && s.agents.Keys == l.logs.Keys && s.d.master == l.master && s.d.manual == l.manual
            && s.d.skewLimit == l.skewLimit
  {
    hide Inv;
    hide NodeOk;
    hide Barriers;
    var s := Run(Init(l), events);
    RunKeeps(l, events);
    RunFixed(l, events);
    Shaped(s);
    At(s, h);
  }

  // ------------------------------------------------------------- master first

  /**
   No node other than the master begins its snapshot apply before the master's agent has finished
   its own, in either mode, whichever route its agent takes, whatever that agent believes about
   being the master, and whatever the network and the logs lose; only the operator's release of
   that very node overrides it.
   */
  lemma MasterFirst(l: Launch, events: seq<Event>, h: Host)
    requires Launchable(l) && h in l.logs && h != l.master && NeverReleased(events, h)
    ensures var s := Run(Init(l), events);
            h in s.agents && l.master in s.agents && (s.agents[h].applyBegun ==> s.agents[l.master].applyDone)
  {
    Reached(l, events, h);
    ReleasedOnlyByHand(l, events, h);
  }

  // --------------------------------------------------------------- set-ready

  /**
   Whoever runs cluster set_ready, on either route, every agent has finished its apply; releases do not
   change that.
   */
  lemma SetReadyLast(l: Launch, events: seq<Event>, h: Host, k: Host)
    requires Launchable(l) && h in l.logs && k in l.logs
    ensures var s := Run(Init(l), events);
            h in s.agents && k in s.agents && (s.agents[h].setReadyRun ==> s.agents[k].applyDone)
  {
    Reached(l, events, h);
  }

  /** A set-ready go is only ever readable on the master, and only once the whole fleet has applied. */
  lemma SetReadyGoOnlyOnMaster(l: Launch, events: seq<Event>, h: Host, k: Host)
    requires Launchable(l) && h in l.logs && k in l.logs
    ensures var s := Run(Init(l), events);
            h in s.logs && k in s.agents && (SET_READY in Gates(s, h) ==> h == l.master && s.agents[k].applyDone)
  {
    Reached(l, events, h);
    GatesAuthorised(Run(Init(l), events), h);
  }

  /** Stage 4 enters a ledger only in a critical section that sees every node of the deploy done. */
  lemma SetReadyGrantedWhenAllDone(s: Sys, e: Event, h: Host)
    requires Shape(s) && h in s.d.nodes && h in Step(s, e).d.nodes
    requires SET_READY !in s.d.nodes[h].gates && SET_READY in Step(s, e).d.nodes[h].gates
    ensures h == s.d.master && AllApplied(s.d)
  {
    match e
    case Driver(de) =>
      GrantedStage(s, de, h);
    case _ =>
  }

  lemma TouchGrantsNothing(d: Deploy, k: Host, op: NodeOp, h: Host)
    requires h in d.nodes && !op.Grant?
    ensures h in Touch(d, k, op).nodes && Touch(d, k, op).nodes[h].gates == d.nodes[h].gates
  {
  }

  /** Every driver event but these four leaves all ledgers as they are. */
  lemma OthersGrantNothing(s: Sys, e: DriverEvent, h: Host)
    requires DriverEnabled(s, e) && h in s.d.nodes && h in DriverEffect(s, e).d.nodes
    requires !e.FollowsUp? && !e.ConsidersSetReady? && !e.OperatorNext? && !e.OperatorReleases?
    ensures DriverEffect(s, e).d.nodes[h].gates == s.d.nodes[h].gates
  {
    hide Update;
    hide Touch;
    hide Hold;
    hide FabricReady;
    hide SelState;
    hide Reconcile;
    hide Trigger;
    hide CancelAll;
    var d := s.d;
    if e.Touches? { TouchedOp(s, e); }
    match e
    case OperatorCancels => CancelGrantsNothing(d, h);
    case Touches(k, op) => TouchGrantsNothing(d, k, op, h);
    case GivesGreenLight(k) =>
      if k in d.nodes { TouchGrantsNothing(d, k, GreenLight(!d.hasGate || RESTORE in d.nodes[k].ack), h); }
    case AnswersCheckIn(k) => TouchGrantsNothing(d, k, CheckIn(Hold(d, k)), h);
    case HearsStarted(k) =>
      TouchGrantsNothing(d, k, if k == d.master then ApplyStarted(ApplyProceed(d, k)) else WaitForMaster, h);
    case HearsApplied(k) => TouchGrantsNothing(d, k, MarkApplied, h);
    case HearsReport(k, st) => TouchGrantsNothing(d, k, NodeOp.Report(st), h);
    case Merges(k, st) =>
      if SelState(st).Some? { TouchGrantsNothing(d, k, NodeOp.Merge(SelState(st).value), h); }
    case Acknowledges(j) => TouchGrantsNothing(d, j.host, Ack(j.stages), h);
    case _ =>
  }

  lemma CancelGrantsNothing(d: Deploy, h: Host)
    requires h in d.nodes
    ensures h in CancelAll(d).nodes && CancelAll(d).nodes[h].gates == d.nodes[h].gates
  {
  }

  lemma TouchedOp(s: Sys, e: DriverEvent)
    requires DriverEnabled(s, e) && e.Touches?
    ensures !e.op.Grant?
  {
  }

  lemma AuthorizeGrants(d: Deploy, targets: set<Host>, stage: Stage, h: Host, g: Stage)
    requires h in d.nodes && g !in d.nodes[h].gates && g in Authorize(d, targets, stage).nodes[h].gates
    ensures h in targets && g == stage
  {
  }

  lemma NextGrants(d: Deploy, h: Host)
    requires h in d.nodes && SET_READY !in d.nodes[h].gates && h in AdvanceStep(d).0.nodes
    requires SET_READY in AdvanceStep(d).0.nodes[h].gates
    ensures h == d.master && AllApplied(d)
  {
    var next := d.(step := d.step + 1);
    var (targets, stage) := StepGrant(next, next.step);
    AuthorizeGrants(next, targets, stage, h, SET_READY);
    hide Authorize;
    hide Flush;
    assert d.step == STEP_APPLY_REST && AllReached(d, 7);
    forall k | k in d.nodes ensures d.nodes[k].state == Done {
      assert PipelineRank(d.nodes[k].state) >= 7;
    }
  }

  lemma GrantedStage(s: Sys, e: DriverEvent, h: Host)
    requires DriverEnabled(s, e) && h in s.d.nodes && h in DriverEffect(s, e).d.nodes
    requires SET_READY !in s.d.nodes[h].gates && SET_READY in DriverEffect(s, e).d.nodes[h].gates
    ensures h == s.d.master && AllApplied(s.d)
  {
    hide Authorize;
    hide Flush;
    hide Update;
    if e.OperatorNext? {
      hide AdvanceStep;
      NextGrants(s.d, h);
    } else if e.ConsidersSetReady? {
      AuthorizeGrants(s.d, MasterOnly(s.d), SET_READY, h, SET_READY);
    } else if e.FollowsUp? {
      AuthorizeGrants(s.d, Peers(s.d), APPLY, h, SET_READY);
    } else if e.OperatorReleases? {
      AuthorizeGrants(s.d, {e.host}, APPLY, h, SET_READY);
    } else {
      hide DriverEffect;
      OthersGrantNothing(s, e, h);
    }
  }

  // ------------------------------------------------------------ manual deploys

  /** A manual deploy's ledger is exactly what its step and the node's role fix. */
  lemma ManualLedgerExact(l: Launch, events: seq<Event>, h: Host)
    requires Launchable(l) && l.manual && h in l.logs && NeverReleased(events, h)
    ensures var d := Run(Init(l), events).d;
            && h in d.nodes && STEP_PREFLIGHT <= d.step <= STEP_SET_READY
            && d.nodes[h].gates == ManualLedger(d.step, h == l.master)
  {
    Reached(l, events, h);
    ReleasedOnlyByHand(l, events, h);
  }

  /** The step moves only by the operator, only by one, and only through an open barrier. */
  lemma ManualStepRises(s: Sys, e: Event)
    ensures var t := Step(s, e);
            t.d.step != s.d.step ==>
              e == Driver(OperatorNext) && t.d.step == s.d.step + 1 && t.d.step <= STEP_SET_READY && CanAdvance(s.d)
  {
    if Enabled(s, e) && e.Driver? {
      DriverStep(s, e.de);
      hide DriverEffect;
      hide DriverEnabled;
      hide CanAdvance;
    } else {
      hide CanAdvance;
      hide Sends;
      hide Writes;
      hide NextAgent;
    }
  }

  lemma DriverStep(s: Sys, e: DriverEvent)
    ensures var t := DriverEffect(s, e);
            t.d.step != s.d.step ==>
              e == OperatorNext && t.d.step == s.d.step + 1 && t.d.step <= STEP_SET_READY && CanAdvance(s.d)
  {
    hide CanAdvance;
    hide Update;
    hide FabricReady;
    hide AllApplied;
    hide Flush;
    hide Reconcile;
    hide SelState;
    hide StepGrant;
  }

  /**
   No agent of a manual deploy begins to restore before every node has passed preflight with its skew
   inside the limit.
   */
  lemma RestoreBarrier(l: Launch, events: seq<Event>, h: Host, k: Host)
    requires Launchable(l) && l.manual && h in l.logs && k in l.logs
    ensures var s := Run(Init(l), events); h in s.agents && (s.agents[h].restoreBegun ==> HasPassed(s, k))
  {
    Reached(l, events, h);
  }

  /** None leaves the installer before every node's disk is imaged, unless its own power is cut once its disk is. */
  lemma RebootBarrier(l: Launch, events: seq<Event>, h: Host, k: Host)
    requires Launchable(l) && l.manual && h in l.logs && k in l.logs
    ensures var s := Run(Init(l), events);
            h in s.agents && k in s.agents && (LeftInstaller(s.agents[h]) && !s.agents[h].cut ==> s.agents[k].imaged)
  {
    Reached(l, events, h);
  }

  /** What the step counter says, the fleet has really done. */
  lemma StepMeansProgress(l: Launch, events: seq<Event>, k: Host)
    requires Launchable(l) && l.manual && k in l.logs
    ensures var s := Run(Init(l), events);
            && k in s.agents && l.master in s.agents
            && (s.d.step >= STEP_RESTORE ==> HasPassed(s, k))
            && (s.d.step >= STEP_REBOOT ==> s.agents[k].imaged)
            && (s.d.step >= STEP_APPLY_MASTER ==> s.agents[k].booted)
            && (s.d.step >= STEP_APPLY_REST ==> s.agents[l.master].applyDone)
            && (s.d.step >= STEP_SET_READY ==> s.agents[k].applyDone)
  {
    Reached(l, events, k);
  }

  /** The agent leaves the clock to the driver, so its own verdict may pass with a skew beyond the driver's limit. */
  function SkewedPass(l: Launch): Fabric { Fabric(true, l.skewLimit + 1.0, true) }

  /**
   Automatic mode has no restore barrier at all: any node may restore while no node has passed within
   the limit, not even itself.
   */
  lemma AutomaticRestoresEarly(l: Launch, p: Host) returns (events: seq<Event>)
    requires Launchable(l) && !l.manual && l.hasGate && p in l.logs
    ensures var s := Run(Init(l), events);
            p in s.agents && s.agents[p].restoreBegun && forall k :: !HasPassed(s, k)
  {
    hide *;
    var j := OpeningJob(l, p);
    var land := Channel(GateLands(j, RESTORE, 1));
    var round := Acts(p, Round(SkewedPass(l)));
    var begin := Acts(p, BeginsRestore(None));
    events := [land, round, begin];
    OpeningState(l, p);
    EarlyRestore(l, Init(l), p, j, land, round, begin);
    Run3(Init(l), land, round, begin);
  }

  /** No node of this run has begun to restore before every node has passed. */
  ghost predicate RestoresTogether(l: Launch, events: seq<Event>) {
    var s := Run(Init(l), events);
    forall h, k :: h in l.logs && k in l.logs ==> h in s.agents && (s.agents[h].restoreBegun ==> HasPassed(s, k))
  }

  /** Of the launches with gates exactly the manual ones have the restore barrier in every run. */
  lemma BarrierIffManual(l: Launch)
    requires Launchable(l) && l.hasGate
    ensures l.manual <==> forall events :: RestoresTogether(l, events)
  {
    hide Run;
    hide Init;
    hide HasPassed;
    hide Launchable;
    if l.manual {
      forall events ensures RestoresTogether(l, events) {
        forall h, k | h in l.logs && k in l.logs
          ensures h in Run(Init(l), events).agents
          ensures Run(Init(l), events).agents[h].restoreBegun ==> HasPassed(Run(Init(l), events), k)
        {
          RestoreBarrier(l, events, h, k);
        }
      }
    } else {
      MasterIsNode(l);
      var events := AutomaticRestoresEarly(l, l.master);
      assert !RestoresTogether(l, events);
    }
  }

  lemma MasterIsNode(l: Launch)
    requires Launchable(l)
    ensures l.master in l.logs
  {
  }

  lemma OpeningState(l: Launch, p: Host)
    requires Launchable(l) && p in l.logs
    ensures var s := Init(l);
            && Shape(s) && p in s.d.nodes && s.d.skewLimit == l.skewLimit
            && s.agents[p].activity == InPreflight && s.net == {}
  {
    hide NodeOk;
    InitNode(l, p);
    StartNode(map h | h in l.logs :: Anchor(l.logs[h]), l, p);
    hide Start;
    hide StartsWell;
  }

  lemma Run3(s: Sys, a: Event, b: Event, c: Event)
    ensures Run(s, [a, b, c]) == Step(Step(Step(s, a), b), c)
  {
    hide Step;
    assert [a][..0] == [] && [a, b][..1] == [a] && [a, b, c][..2] == [a, b];
    assert Run(s, []) == s;
    assert Run(s, [a]) == Step(s, a);
    assert Run(s, [a, b]) == Step(Step(s, a), b);
  }

  lemma EarlyRestore(l: Launch, s0: Sys, p: Host, j: Job, land: Event, round: Event, begin: Event)
    requires Shape(s0) && p in s0.d.nodes && s0.d.skewLimit == l.skewLimit
    requires j in s0.jobs && j.host == p && RESTORE in j.stages
    requires s0.agents[p].activity == InPreflight && s0.net == {}
    requires land == Channel(GateLands(j, RESTORE, 1))
    requires round == Acts(p, Round(SkewedPass(l))) && begin == Acts(p, BeginsRestore(None))
    ensures var s := Step(Step(Step(s0, land), round), begin);
            p in s.agents && s.agents[p].restoreBegun && forall k :: !HasPassed(s, k)
  {
    var s1 := Step(s0, land);
    var r := Record(1, Some(GateOem(RESTORE)));
    GatesInAppend(s0.logs[p].log, r);
    assert s1 == PutRecord(s0, p, r) && RESTORE in Gates(s1, p);
    var s2 := Step(s1, round);
    assert s2.logs == s1.logs && s2.d == s1.d && s2.net == {FabricMsg(p, SkewedPass(l))};
    assert s2.agents[p].passed && s2.agents[p].activity == InPreflight;
    hide GatesIn;
    var s3 := Step(s2, begin);
    assert s3.net == s2.net && s3.d.skewLimit == l.skewLimit;
  }

  lemma OpeningJob(l: Launch, p: Host) returns (j: Job)
    requires Launchable(l) && !l.manual && l.hasGate && p in l.logs
    ensures j in Init(l).jobs && j.host == p && RESTORE in j.stages
  {
    StartNode(map h | h in l.logs :: Anchor(l.logs[h]), l, p);
    var d := Init(l).d;
    j := Job(p, d.nodes[p].gates);
    assert d.nodes[p].gates[0] == RESTORE;
    assert Init(l).jobs == Flush(d, Everyone(d));
  }

  // --------------------------------------------------------- the ledger and the logs

  /**
   Under any interleaving of writers, reconcilers, endpoint stamps, wipes and losses, a node's log
   never shows a stage its ledger does not hold; the ledger has no repetitions, and everything
   acknowledged is in it.
   */
  lemma NoUnauthorisedGo(l: Launch, events: seq<Event>, h: Host)
    requires Launchable(l) && h in l.logs
    ensures var s := Run(Init(l), events);
            && h in s.logs && h in s.d.nodes
            && Gates(s, h) <= Elems(s.d.nodes[h].gates)
            && NoDup(s.d.nodes[h].gates)
            && Elems(s.d.nodes[h].ack) <= Elems(s.d.nodes[h].gates) <= {RESTORE, REBOOT, APPLY, SET_READY}
  {
    Reached(l, events, h);
  }

  /** A ledger is only ever extended at its end. */
  lemma {:induction false} LedgerOnlyGrows(s: Sys, events: seq<Event>, h: Host)
    requires Shape(s) && h in s.d.nodes
    ensures h in Run(s, events).d.nodes && s.d.nodes[h].gates <= Run(s, events).d.nodes[h].gates
    decreases |events|
  {
    if events != [] {
      LedgerOnlyGrows(s, events[..|events| - 1], h);
      StepGrows(Run(s, events[..|events| - 1]), events[|events| - 1]);
    }
  }

  /** What the driver shows of a node, the node has done. */
  lemma StateIsEarned(l: Launch, events: seq<Event>, h: Host)
    requires Launchable(l) && h in l.logs
    ensures var s := Run(Init(l), events);
            && h in s.agents && h in s.d.nodes
            && (PipelineRank(s.d.nodes[h].state) >= 4 ==> s.agents[h].imaged)
            && (PipelineRank(s.d.nodes[h].state) >= 5 ==> s.agents[h].booted)
            && (s.d.nodes[h].state == Done ==> s.agents[h].applyDone)
  {
    hide Run;
    hide Init;
    hide Launchable;
    hide LedgerOk;
    hide LogOk;
    hide Barriers;
    Reached(l, events, h);
  }
}
