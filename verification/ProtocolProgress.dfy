/**
 The other side of the protocol's guarantees: a deploy can be finished. From every launch with
 gates there is a run, without releases by hand, in which every node applies and the master makes
 the cluster ready.
 */
module ProtocolProgress {
  import opened Basics
  import opened Sel
  import opened Deploy
  import opened DeployTheorems
  import opened Protocol
  import opened ProtocolSafety
  import opened ProtocolTheorems

  // --------------------------------------------------------------------- runs

  /** An automatic deploy that holds its peers for the operator. */
  predicate HoldsPeers(d: Deploy) { !d.manual && d.manualGate }

  /** No release by hand, and no use of the network by an installed node unless the peers are held. */
  predicate ByTheBook(d: Deploy, e: Event) {
    !(e.Driver? && e.de.OperatorReleases?) && (e.Acts? && e.ae.Boots? && e.ae.inBand ==> HoldsPeers(d))
  }

  ghost predicate Plain(d: Deploy, events: seq<Event>) { forall i :: 0 <= i < |events| ==> ByTheBook(d, events[i]) }

  lemma RunNext(s: Sys, events: seq<Event>, e: Event)
    ensures Run(s, events + [e]) == Step(Run(s, events), e)
  {
    assert (events + [e])[..|events|] == events;
  }

  lemma {:induction false} RunBoth(s: Sys, a: seq<Event>, b: seq<Event>)
    ensures Run(s, a + b) == Run(Run(s, a), b)
    decreases |b|
  {
    hide Step;
    if b == [] {
      assert a + b == a;
    } else {
      var before, e := b[..|b| - 1], b[|b| - 1];
      RunBoth(s, a, before);
      assert a + b == (a + before) + [e] && b == before + [e];
      RunNext(s, a + before, e);
      RunNext(Run(s, a), before, e);
    }
  }

  // ------------------------------------------------------------- one node's events

  /** From s to t only node h has done anything; messages and writes have only been added. */
  ghost predicate Only(s: Sys, t: Sys, h: Host) {
    && Shape(s) && Shape(t) && h in s.d.nodes
    && t.d == s.d.(nodes := t.d.nodes) && t.d.nodes.Keys == s.d.nodes.Keys
    && s.jobs <= t.jobs && s.net <= t.net
    && forall k :: k in s.d.nodes && k != h ==>
         t.d.nodes[k] == s.d.nodes[k] && t.logs[k] == s.logs[k] && t.agents[k] == s.agents[k]
  }

  lemma OnlyTwice(s: Sys, t: Sys, u: Sys, h: Host)
    requires Only(s, t, h) && Only(t, u, h)
    ensures Only(s, u, h)
  {
  }

  /** The agent acts, and none of its records reaches the log. */
  lemma Acted(s: Sys, h: Host, e: AgentEvent)
    requires Shape(s) && h in s.d.nodes && AgentEnabled(s, h, e) && Writes(s.agents[h], e).None?
    ensures var t := Step(s, Acts(h, e));
            && Only(s, t, h) && t.agents[h] == NextAgent(s.agents[h], e) && t.logs == s.logs && t.d == s.d
            && Sends(h, s.agents[h], e) <= t.net
  {
    hide NextAgent;
    hide Sends;
    hide Writes;
    hide AgentEnabled;
  }

  /** A stage of an issued write lands. */
  lemma Landed(s: Sys, h: Host, j: Job, g: Stage)
    requires Shape(s) && h in s.d.nodes && j in s.jobs && j.host == h && g in j.stages
    ensures var t := Step(s, Channel(GateLands(j, g, 0)));
            && Only(s, t, h) && t.agents == s.agents && t.d == s.d
            && g in Gates(t, h) && Gates(s, h) <= Gates(t, h)
  {
    GatesInAppend(s.logs[h].log, Record(0, Some(GateOem(g))));
  }

  /**
   Where a node stands: its agent, the state, report and ledger in its record, a set of stages its
   log shows, and of messages it has sent.
   */
  datatype Place = Place(
    a: Agent, state: State, fabric: Option<Fabric>, gates: seq<Stage>, shown: set<Stage>, said: set<Msg>)

  /** The node stands there, and a write of its ledger has been issued. */
  ghost predicate Stands(s: Sys, h: Host, p: Place) {
    && Shape(s) && h in s.d.nodes && s.agents[h] == p.a
    && s.d.nodes[h].state == p.state && s.d.nodes[h].fabric == p.fabric && s.d.nodes[h].gates == p.gates
    && (p.gates != [] ==> Job(h, p.gates) in s.jobs) && p.shown <= Gates(s, h) && p.said <= s.net
  }

  /** The node's events so far have taken it from s to where it stands, and nobody else anywhere. */
  ghost predicate Reaches(s: Sys, h: Host, events: seq<Event>, p: Place) {
    Plain(s.d, events) && Only(s, Run(s, events), h) && Stands(Run(s, events), h, p)
  }

  lemma Begins(s: Sys, h: Host, p: Place)
    requires Stands(s, h, p)
    ensures Reaches(s, h, [], p)
  {
  }

  lemma GoesOn(s: Sys, h: Host, events: seq<Event>, p: Place, e: Event, q: Place)
    requires Reaches(s, h, events, p) && ByTheBook(s.d, e)
    requires Only(Run(s, events), Step(Run(s, events), e), h) && Stands(Step(Run(s, events), e), h, q)
    ensures Reaches(s, h, events + [e], q)
  {
    RunNext(s, events, e);
    hide Step;
    hide Run;
    hide Stands;
    OnlyTwice(s, Run(s, events), Run(s, events + [e]), h);
    hide Only;
  }

  /** What the agent needs for an event, given what its log shows and what has been said. */
  predicate MayAct(h: Host, p: Place, e: AgentEvent) {
    match e
    case Round(_) => p.a.activity == InPreflight
    case BeginsRestore(_) => p.a.activity == InPreflight && p.a.passed && RESTORE in p.shown
    case EndsRestore(_) => p.a.activity == RestoringDisk
    case LeavesInstaller => p.a.activity == AwaitReboot && REBOOT in p.shown
    case Boots(_, _, _) => p.a.activity == BootingOs
    case ChecksIn => p.a.activity == AwaitApply && p.a.inBand
    case BeginsApply(_) =>
      p.a.activity == AwaitApply && if p.a.inBand then HoldReply(h, false) in p.said else APPLY in p.shown
    case EndsApply(_) => p.a.activity == ApplyingSnapshot
    case RunsSetReady(polled, _, _) =>
      p.a.activity == AppliedOk && p.a.believesMaster && !p.a.inBand && !polled && SET_READY in p.shown
    case _ => false
  }

  lemma ThenActs(s: Sys, h: Host, events: seq<Event>, p: Place, e: AgentEvent)
    requires Reaches(s, h, events, p) && MayAct(h, p, e) && Writes(p.a, e).None? && ByTheBook(s.d, Acts(h, e))
    ensures Reaches(s, h, events + [Acts(h, e)], p.(a := NextAgent(p.a, e), said := p.said + Sends(h, p.a, e)))
  {
    hide Run;
    hide NextAgent;
    hide Sends;
    hide Writes;
    var t := Run(s, events);
    assert AgentEnabled(t, h, e) by { hide Gates; }
    hide AgentEnabled;
    Acted(t, h, e);
    hide Step;
    hide Only;
    GoesOn(s, h, events, p, Acts(h, e), p.(a := NextAgent(p.a, e), said := p.said + Sends(h, p.a, e)));
  }

  lemma ThenLands(s: Sys, h: Host, events: seq<Event>, p: Place, g: Stage)
    requires Reaches(s, h, events, p) && g in p.gates
    ensures Reaches(s, h, events + [Channel(GateLands(Job(h, p.gates), g, 0))], p.(shown := p.shown + {g}))
  {
    hide Run;
    hide Gates;
    var e := Channel(GateLands(Job(h, p.gates), g, 0));
    Landed(Run(s, events), h, Job(h, p.gates), g);
    hide Step;
    GoesOn(s, h, events, p, e, p.(shown := p.shown + {g}));
  }

  /** The driver handles something about the node, and says what it says. */
  ghost predicate HandlesAs(s: Sys, h: Host, e: DriverEvent, op: NodeOp, says: set<Msg>) {
    DriverEnabled(s, e) && DriverEffect(s, e) == s.(d := Touch(s.d, h, op), net := s.net + says)
  }

  /** What the driver is told on the way, and what it makes of it. */
  predicate Heeds(st: State, f: Option<Fabric>, op: NodeOp, to: State, fab: Option<Fabric>) {
    match op
    case PreflightReport(g) => g.passed && to == PreflightOk && fab == Some(g)
    case RestoreDone => st == PreflightOk && to == Rebooting && fab == f
    case ApplyStarted(proceed) => st == Rebooting && !proceed && to == Waiting && fab == f
    case WaitForMaster => st == Rebooting && to == Waiting && fab == f
    case CheckIn(_) => st == Pending && to == Pending && fab == f
    case MarkApplied => to == Done && fab == f
    case Report(told) => to == told && fab == f
    case _ => false
  }

  lemma Heeded(n: Node, op: NodeOp, to: State, fab: Option<Fabric>)
    requires Heeds(n.state, n.fabric, op, to, fab)
    ensures Update(n, op).state == to && Update(n, op).fabric == fab
  {
  }

  lemma Touched(s: Sys, u: Sys, h: Host, op: NodeOp, says: set<Msg>)
    requires Shape(s) && h in s.d.nodes && !op.Grant? && u == s.(d := Touch(s.d, h, op), net := s.net + says)
    ensures Only(s, u, h) && u.d.nodes[h] == Update(s.d.nodes[h], op) && u.d.nodes[h].gates == s.d.nodes[h].gates
    ensures u.agents == s.agents && u.logs == s.logs && u.jobs == s.jobs && u.net == s.net + says
        && Gates(u, h) == Gates(s, h)
  {
    LedgerHasItsOwnSections(s.d.nodes[h], op);
    hide Update;
  }

  lemma ThenHandles(s: Sys, h: Host, events: seq<Event>, p: Place, e: DriverEvent, op: NodeOp, says: set<Msg>,
                    st: State, fab: Option<Fabric>)
    requires Reaches(s, h, events, p) && HandlesAs(Run(s, events), h, e, op, says) && !e.OperatorReleases?
    requires Heeds(p.state, p.fabric, op, st, fab)
    ensures Reaches(s, h, events + [Driver(e)], p.(state := st, fabric := fab, said := p.said + says))
  {
    hide Run;
    hide Gates;
    hide Update;
    hide Touch;
    var t := Run(s, events);
    var u := Step(t, Driver(e));
    assert u == t.(d := Touch(t.d, h, op), net := t.net + says) by { hide Stands; hide Only; hide Heeds; }
    hide Step;
    hide HandlesAs;
    Touched(t, u, h, op, says);
    Heeded(t.d.nodes[h], op, st, fab);
    hide Heeds;
    hide Only;
    GoesOn(s, h, events, p, Driver(e), p.(state := st, fabric := fab, said := p.said + says));
  }

  /** What the node's events leave as it was for the driver, and what it can hear. */
  lemma Unmoved(s: Sys, h: Host, events: seq<Event>, p: Place)
    requires Reaches(s, h, events, p)
    ensures var d := Run(s, events).d;
            && p.said <= Run(s, events).net && d.master == s.d.master && d.manual == s.d.manual && d.step == s.d.step
            && (h != s.d.master ==> MasterDone(d) == MasterDone(s.d))
  {
    hide Run;
  }

  // ---------------------------------------------------------- one node's share of a phase

  function Passed(): Agent { FreshAgent().(passed := true) }

  function WithImage(): Agent { Passed().(activity := AwaitReboot, restoreBegun := true, imaged := true) }

  function Up(believes: bool, inBand: bool): Agent {
    WithImage().(activity := AwaitApply, inBand := inBand, believesMaster := believes, booted := true)
  }

  function Finished(believes: bool, inBand: bool): Agent {
    Up(believes, inBand).(activity := AppliedOk, applyBegun := true, applyDone := true)
  }

  /** A passing round nobody hears of. */
  lemma RoundPart(s: Sys, h: Host, p: Place, f: Fabric) returns (events: seq<Event>, q: Place)
    requires Stands(s, h, p) && p.a == FreshAgent() && f.passed
    ensures Reaches(s, h, events, q) && q == p.(a := Passed(), said := q.said) && FabricMsg(h, f) in q.said
  {
    Begins(s, h, p);
    hide Reaches;
    ThenActs(s, h, [], p, Round(f));
    events := [] + [Acts(h, Round(f))];
    q := p.(a := NextAgent(p.a, Round(f)), said := p.said + Sends(h, p.a, Round(f)));
  }

  /** The same, heard by the driver. */
  lemma PreflightPart(s: Sys, h: Host, p: Place, f: Fabric) returns (events: seq<Event>, q: Place)
    requires Stands(s, h, p) && p.a == FreshAgent() && f.passed
    ensures Reaches(s, h, events, q) && q == p.(a := Passed(), state := PreflightOk, fabric := Some(f), said := q.said)
  {
    events, q := RoundPart(s, h, p, f);
    hide Reaches;
    hide Stands;
    HeardReport(s, h, events, q, f);
    hide HandlesAs;
    ThenHandles(s, h, events, q, Touches(h, PreflightReport(f)), PreflightReport(f), {}, PreflightOk, Some(f));
    events := events + [Driver(Touches(h, PreflightReport(f)))];
    q := q.(state := PreflightOk, fabric := Some(f), said := q.said + {});
  }

  lemma HeardReport(s: Sys, h: Host, events: seq<Event>, p: Place, f: Fabric)
    requires Reaches(s, h, events, p) && FabricMsg(h, f) in p.said
    ensures HandlesAs(Run(s, events), h, Touches(h, PreflightReport(f)), PreflightReport(f), {})
  {
    hide Reaches;
    Unmoved(s, h, events, p);
    hide Update;
    hide Run;
  }

  /** The restore, from its go to its end. */
  lemma ImagePart(s: Sys, h: Host, events: seq<Event>, p: Place) returns (more: seq<Event>, q: Place)
    requires Reaches(s, h, events, p) && p.a == Passed() && RESTORE in p.gates
    ensures Reaches(s, h, more, q)
    ensures q == p.(a := WithImage(), shown := p.shown + {RESTORE}, said := q.said) && RestoreDoneMsg(h) in q.said
  {
    hide Reaches;
    ThenLands(s, h, events, p, RESTORE);
    more := events + [Channel(GateLands(Job(h, p.gates), RESTORE, 0))];
    q := p.(shown := p.shown + {RESTORE});
    ThenActs(s, h, more, q, BeginsRestore(None));
    more := more + [Acts(h, BeginsRestore(None))];
    q := q.(a := NextAgent(q.a, BeginsRestore(None)), said := q.said + Sends(h, q.a, BeginsRestore(None)));
    ThenActs(s, h, more, q, EndsRestore(None));
    more := more + [Acts(h, EndsRestore(None))];
    q := q.(a := NextAgent(q.a, EndsRestore(None)), said := q.said + Sends(h, q.a, EndsRestore(None)));
  }

  /** The same, heard by the driver. */
  lemma RestorePart(s: Sys, h: Host, p: Place) returns (events: seq<Event>, q: Place)
    requires Stands(s, h, p) && p.a == Passed() && p.state == PreflightOk && RESTORE in p.gates
    ensures Reaches(s, h, events, q)
    ensures q == p.(a := WithImage(), state := Rebooting, shown := p.shown + {RESTORE}, said := q.said)
  {
    Begins(s, h, p);
    events, q := ImagePart(s, h, [], p);
    hide Reaches;
    hide Stands;
    HeardRestored(s, h, events, q);
    hide HandlesAs;
    ThenHandles(s, h, events, q, Touches(h, RestoreDone), RestoreDone, {}, Rebooting, q.fabric);
    events := events + [Driver(Touches(h, RestoreDone))];
    q := q.(state := Rebooting, fabric := q.fabric, said := q.said + {});
  }

  lemma HeardRestored(s: Sys, h: Host, events: seq<Event>, p: Place)
    requires Reaches(s, h, events, p) && RestoreDoneMsg(h) in p.said
    ensures HandlesAs(Run(s, events), h, Touches(h, RestoreDone), RestoreDone, {})
  {
    hide Reaches;
    Unmoved(s, h, events, p);
    hide Update;
    hide Run;
  }

  /** Out of the installer and up in the installed system. */
  lemma UpPart(s: Sys, h: Host, events: seq<Event>, p: Place, believes: bool, inBand: bool)
    returns (more: seq<Event>, q: Place)
    requires Reaches(s, h, events, p) && p.a == WithImage() && REBOOT in p.gates && (inBand ==> HoldsPeers(s.d))
    ensures Reaches(s, h, more, q)
    ensures q == p.(a := Up(believes, inBand), shown := p.shown + {REBOOT}, said := q.said)
    ensures !inBand ==> StartedMsg(h) in q.said
  {
    hide Reaches;
    ThenLands(s, h, events, p, REBOOT);
    more := events + [Channel(GateLands(Job(h, p.gates), REBOOT, 0))];
    q := p.(shown := p.shown + {REBOOT});
    ThenActs(s, h, more, q, LeavesInstaller);
    more := more + [Acts(h, LeavesInstaller)];
    q := q.(a := NextAgent(q.a, LeavesInstaller), said := q.said + Sends(h, q.a, LeavesInstaller));
    var e := Boots(inBand, believes, None);
    ThenActs(s, h, more, q, e);
    more := more + [Acts(h, e)];
    q := q.(a := NextAgent(q.a, e), said := q.said + Sends(h, q.a, e));
  }

  /** The same at a manual deploy's third step, heard by the driver: nobody may apply yet. */
  lemma BootPart(s: Sys, h: Host, p: Place) returns (events: seq<Event>, q: Place)
    requires Stands(s, h, p) && p.a == WithImage() && p.state == Rebooting && REBOOT in p.gates
    requires s.d.manual && s.d.step == STEP_REBOOT
    ensures Reaches(s, h, events, q)
    ensures q == p.(a := Up(h == s.d.master, false), state := Waiting, shown := p.shown + {REBOOT}, said := q.said)
  {
    Begins(s, h, p);
    hide Reaches;
    hide Stands;
    events, q := UpPart(s, h, [], p, h == s.d.master, false);
    var op := if h == s.d.master then ApplyStarted(false) else WaitForMaster;
    HeardStarted(s, h, events, q, op);
    hide HandlesAs;
    ThenHandles(s, h, events, q, HearsStarted(h), op, {}, Waiting, q.fabric);
    events := events + [Driver(HearsStarted(h))];
    q := q.(state := Waiting, fabric := q.fabric, said := q.said + {});
  }

  lemma HeardStarted(s: Sys, h: Host, events: seq<Event>, p: Place, op: NodeOp)
    requires Reaches(s, h, events, p) && StartedMsg(h) in p.said && s.d.manual && s.d.step == STEP_REBOOT
    requires op == if h == s.d.master then ApplyStarted(false) else WaitForMaster
    ensures HandlesAs(Run(s, events), h, HearsStarted(h), op, {})
  {
    hide Reaches;
    Unmoved(s, h, events, p);
    hide Update;
    hide Run;
  }

  /** The apply, from its go to its end. */
  lemma SnapshotPart(s: Sys, h: Host, events: seq<Event>, p: Place, believes: bool) returns (more: seq<Event>, q: Place)
    requires Reaches(s, h, events, p) && p.a == Up(believes, false) && APPLY in p.gates
    ensures Reaches(s, h, more, q)
    ensures q == p.(a := Finished(believes, false), shown := p.shown + {APPLY}, said := q.said)
    ensures AppliedMsg(h) in q.said
  {
    hide Reaches;
    ThenLands(s, h, events, p, APPLY);
    more := events + [Channel(GateLands(Job(h, p.gates), APPLY, 0))];
    q := p.(shown := p.shown + {APPLY});
    ThenActs(s, h, more, q, BeginsApply(None));
    more := more + [Acts(h, BeginsApply(None))];
    q := q.(a := NextAgent(q.a, BeginsApply(None)), said := q.said + Sends(h, q.a, BeginsApply(None)));
    ThenActs(s, h, more, q, EndsApply(None));
    more := more + [Acts(h, EndsApply(None))];
    q := q.(a := NextAgent(q.a, EndsApply(None)), said := q.said + Sends(h, q.a, EndsApply(None)));
  }

  /** The same, heard by the driver. */
  lemma ApplyPart(s: Sys, h: Host, p: Place, believes: bool) returns (events: seq<Event>, q: Place)
    requires Stands(s, h, p) && p.a == Up(believes, false) && APPLY in p.gates
    ensures Reaches(s, h, events, q)
    ensures q == p.(a := Finished(believes, false), state := Done, shown := p.shown + {APPLY}, said := q.said)
    ensures DoneFollowUp(h) in q.said
  {
    Begins(s, h, p);
    hide Reaches;
    hide Stands;
    events, q := SnapshotPart(s, h, [], p, believes);
    HeardApplied(s, h, events, q);
    hide HandlesAs;
    ThenHandles(s, h, events, q, HearsApplied(h), MarkApplied, {DoneFollowUp(h)}, Done, q.fabric);
    events := events + [Driver(HearsApplied(h))];
    q := q.(state := Done, fabric := q.fabric, said := q.said + {DoneFollowUp(h)});
  }

  lemma HeardApplied(s: Sys, h: Host, events: seq<Event>, p: Place)
    requires Reaches(s, h, events, p) && AppliedMsg(h) in p.said
    ensures HandlesAs(Run(s, events), h, HearsApplied(h), MarkApplied, {DoneFollowUp(h)})
  {
    hide Reaches;
    Unmoved(s, h, events, p);
    hide Update;
    hide Run;
  }

  /** The master makes the cluster ready. */
  lemma ReadyPart(s: Sys, h: Host, p: Place) returns (events: seq<Event>, q: Place)
    requires Stands(s, h, p) && p.a == Finished(true, false) && SET_READY in p.gates
    ensures Reaches(s, h, events, q) && q == p.(a := p.a.(setReadyRun := true), shown := q.shown, said := q.said)
  {
    Begins(s, h, p);
    hide Reaches;
    ThenLands(s, h, [], p, SET_READY);
    events := [] + [Channel(GateLands(Job(h, p.gates), SET_READY, 0))];
    q := p.(shown := p.shown + {SET_READY});
    var e := RunsSetReady(false, true, None);
    ThenActs(s, h, events, q, e);
    events := events + [Acts(h, e)];
    q := q.(a := NextAgent(q.a, e), said := q.said + Sends(h, q.a, e));
  }

  /** All of the installer and the boot behind it, with both gos issued beforehand. */
  lemma InstallPart(s: Sys, h: Host, p: Place, f: Fabric) returns (events: seq<Event>, q: Place)
    requires Stands(s, h, p) && p.a == FreshAgent() && f.passed && RESTORE in p.gates && REBOOT in p.gates
    ensures Reaches(s, h, events, q)
    ensures q == p.(a := Up(h == s.d.master, h != s.d.master && HoldsPeers(s.d)), shown := q.shown,
                    said := q.said)
  {
    events, q := RoundPart(s, h, p, f);
    hide *;
    events, q := ImagePart(s, h, events, q);
    events, q := UpPart(s, h, events, q, h == s.d.master, h != s.d.master && HoldsPeers(s.d));
  }

  /** A node that uses the network checks in after the master is done, and is let go. */
  lemma CheckInPart(s: Sys, h: Host, p: Place) returns (events: seq<Event>, q: Place)
    requires Stands(s, h, p) && p.a == Up(false, true) && p.state == Pending && h != s.d.master && MasterDone(s.d)
    ensures Reaches(s, h, events, q) && q == p.(said := q.said) && HoldReply(h, false) in q.said
  {
    Begins(s, h, p);
    hide Reaches;
    hide Stands;
    ThenActs(s, h, [], p, ChecksIn);
    events := [] + [Acts(h, ChecksIn)];
    q := p.(a := NextAgent(p.a, ChecksIn), said := p.said + Sends(h, p.a, ChecksIn));
    HeardCheckIn(s, h, events, q);
    hide HandlesAs;
    ThenHandles(s, h, events, q, AnswersCheckIn(h), CheckIn(false), {HoldReply(h, false)}, Pending, q.fabric);
    events := events + [Driver(AnswersCheckIn(h))];
    q := q.(state := Pending, fabric := q.fabric, said := q.said + {HoldReply(h, false)});
  }

  lemma HeardCheckIn(s: Sys, h: Host, events: seq<Event>, p: Place)
    requires Reaches(s, h, events, p) && CheckInMsg(h) in p.said && p.state == Pending
    requires h != s.d.master && MasterDone(s.d)
    ensures HandlesAs(Run(s, events), h, AnswersCheckIn(h), CheckIn(false), {HoldReply(h, false)})
  {
    hide Reaches;
    Unmoved(s, h, events, p);
    hide Update;
    hide Run;
  }

  /** It applies, and says so itself. */
  lemma BandApplyPart(s: Sys, h: Host, events: seq<Event>, p: Place) returns (more: seq<Event>, q: Place)
    requires Reaches(s, h, events, p) && p.a == Up(false, true) && HoldReply(h, false) in p.said
    ensures Reaches(s, h, more, q)
    ensures q == p.(a := Finished(false, true), said := q.said) && ReportMsg(h, Done) in q.said
  {
    hide Reaches;
    ThenActs(s, h, events, p, BeginsApply(None));
    more := events + [Acts(h, BeginsApply(None))];
    q := p.(a := NextAgent(p.a, BeginsApply(None)), said := p.said + Sends(h, p.a, BeginsApply(None)));
    ThenActs(s, h, more, q, EndsApply(None));
    more := more + [Acts(h, EndsApply(None))];
    q := q.(a := NextAgent(q.a, EndsApply(None)), said := q.said + Sends(h, q.a, EndsApply(None)));
  }

  /** The same, heard by the driver. */
  lemma InBandPart(s: Sys, h: Host, p: Place) returns (events: seq<Event>, q: Place)
    requires Stands(s, h, p) && p.a == Up(false, true) && p.state == Pending && h != s.d.master && MasterDone(s.d)
    ensures Reaches(s, h, events, q) && q == p.(a := Finished(false, true), state := Done, said := q.said)
  {
    events, q := CheckInPart(s, h, p);
    hide Reaches;
    hide Stands;
    events, q := BandApplyPart(s, h, events, q);
    HeardDone(s, h, events, q);
    hide HandlesAs;
    ThenHandles(s, h, events, q, HearsReport(h, Done), Report(Done), {}, Done, q.fabric);
    events := events + [Driver(HearsReport(h, Done))];
    q := q.(state := Done, fabric := q.fabric, said := q.said + {});
  }

  lemma HeardDone(s: Sys, h: Host, events: seq<Event>, p: Place)
    requires Reaches(s, h, events, p) && ReportMsg(h, Done) in p.said
    ensures HandlesAs(Run(s, events), h, HearsReport(h, Done), Report(Done), {})
  {
    hide Reaches;
    Unmoved(s, h, events, p);
    hide Update;
    hide Run;
  }
}
