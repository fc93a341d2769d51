/**
 What every run of the deploy protocol keeps. One inductive invariant, proved event by event,
 and the operator-facing guarantees it yields.
 */
module ProtocolSafety {
  import opened Basics
  import opened Sel
  import opened Deploy
  import opened Protocol

  // ------------------------------------------------------------ the invariant

  /** What the node must physically have done for a state to be claimed of it. */
  predicate Backed(a: Agent, st: State) {
    && (PipelineRank(st) >= 4 ==> a.imaged)
    && (PipelineRank(st) >= 5 ==> a.booted)
    && (PipelineRank(st) >= 7 ==> a.applyDone)
  }

  predicate RecordBacked(a: Agent, r: Record) {
    DecodeCube(r).Some? ==> StatusBacked(a, DecodeCube(r).value)
  }

  predicate StatusBacked(a: Agent, s: Status) {
    s.phase != ReadyPh && SelState(s).Some? ==> Backed(a, SelState(s).value)
  }

  ghost predicate AllApplyDone(s: Sys) { forall h :: h in s.agents ==> s.agents[h].applyDone }
  ghost predicate AllImaged(s: Sys) { forall h :: h in s.agents ==> s.agents[h].imaged }
  ghost predicate AllBooted(s: Sys) { forall h :: h in s.agents ==> s.agents[h].booted }

  /** Some report of this node passed: carrier up, verdict passed, residual skew inside the limit. */
  ghost predicate HasPassed(s: Sys, h: Host) {
    exists f :: FabricMsg(h, f) in s.net && FabricOk(Some(f), s.d.skewLimit)
  }

  ghost predicate AllPassed(s: Sys) { forall h :: h in s.agents ==> HasPassed(s, h) }

  predicate AgentShape(a: Agent) {
    && (a.applyDone ==> a.booted)
    && (a.booted ==> a.imaged)
    && (a.imaged ==> a.restoreBegun)
    && (a.activity != InPreflight ==> a.restoreBegun)
    && (!(a.activity in {InPreflight, RestoringDisk}) ==> a.imaged)
    && (a.activity in {AwaitApply, ApplyingSnapshot, AppliedOk, GaveUp} ==> a.booted)
    && (a.activity in {ApplyingSnapshot, AppliedOk} ==> a.applyBegun)
    && (a.activity == AppliedOk ==> a.applyDone)
  }

  predicate LeftInstaller(a: Agent) {
    a.activity in {BootingOs, AwaitApply, ApplyingSnapshot, AppliedOk, GaveUp}
  }

  ghost predicate Shape(s: Sys) {
    && s.logs.Keys == s.d.nodes.Keys && s.agents.Keys == s.d.nodes.Keys
    && s.d.master in s.d.nodes
    && (s.d.manual ==> STEP_PREFLIGHT <= s.d.step <= STEP_SET_READY)
  }

  /** What is known of the fleet when a node's ledger is judged. */
  datatype Facts = Facts(isMaster: bool, manual: bool, step: nat, released: bool, allDone: bool, masterDone: bool)

  ghost function FactsOf(s: Sys, h: Host): Facts
    requires Shape(s)
  {
    Facts(h == s.d.master, s.d.manual, s.d.step, h in s.released, AllApplyDone(s), s.agents[s.d.master].applyDone)
  }

  ghost predicate LedgerFits(n: Node, f: Facts) {
    && NoDup(n.gates) && Elems(n.gates) <= {RESTORE, REBOOT, APPLY, SET_READY}
    && Elems(n.ack) <= Elems(n.gates)
    && (SET_READY in n.gates ==> f.isMaster && f.allDone)
    && (APPLY in n.gates && !f.isMaster ==> f.released || f.masterDone)
    && (f.manual && RESTORE in n.gates ==> f.step >= STEP_RESTORE)
    && (f.manual && REBOOT in n.gates ==> f.step >= STEP_REBOOT)
    && (f.manual ==> f.released || n.gates == ManualLedger(f.step, f.isMaster))
  }

  ghost predicate LedgerOk(s: Sys, h: Host)
    requires Shape(s) && h in s.d.nodes
  {
    LedgerFits(s.d.nodes[h], FactsOf(s, h))
  }

  ghost predicate StateOk(s: Sys, h: Host)
    requires Shape(s) && h in s.d.nodes
  {
    var n := s.d.nodes[h];
    && Backed(s.agents[h], n.state)
    && (n.fabric.Some? && n.fabric.value.passed ==> FabricMsg(h, n.fabric.value) in s.net)
  }

  ghost predicate LogOk(s: Sys, h: Host)
    requires Shape(s) && h in s.d.nodes
  {
    var l := s.logs[h];
    var anchor := s.d.nodes[h].anchor;
    && GatesIn(l.log) <= Elems(s.d.nodes[h].gates)
    && l.stale <= |l.log| && (anchor == 0 ==> l.stale == 0)
    && (forall i :: 0 <= i < l.stale - 1 ==> l.log[i].id != anchor)
    && (forall i :: l.stale <= i < |l.log| ==> RecordBacked(s.agents[h], l.log[i]))
  }

  /** What an agent has done, the fleet's progress allowed. */
  ghost predicate AgentEarned(s: Sys, h: Host, a: Agent)
    requires Shape(s) && h in s.d.nodes
  {
    && (a.applyBegun && h != s.d.master ==> h in s.released || s.agents[s.d.master].applyDone)
    && (a.setReadyRun ==> AllApplyDone(s))
    && (s.d.manual && a.restoreBegun ==> AllPassed(s))
    && (s.d.manual && LeftInstaller(a) && !a.cut ==> AllImaged(s))
  }

  ghost predicate AgentOk(s: Sys, h: Host)
    requires Shape(s) && h in s.d.nodes
  {
    var a := s.agents[h];
    AgentShape(a) && AgentEarned(s, h, a)
  }

  ghost predicate JobOk(s: Sys, j: Job) {
    j.host in s.d.nodes && Elems(j.stages) <= Elems(s.d.nodes[j.host].gates)
  }

  ghost predicate MsgOk(s: Sys, m: Msg)
    requires Shape(s)
  {
    match m
    case FabricMsg(h, _) => true
    case RestoreDoneMsg(h) => h in s.agents && s.agents[h].imaged
    case StartedMsg(h) => h in s.agents && s.agents[h].imaged && s.agents[h].booted
    case CheckInMsg(h) => h in s.agents && s.agents[h].imaged && s.agents[h].booted
    case HoldReply(h, hold) => !hold && h != s.d.master ==> s.agents[s.d.master].applyDone
    case ReportMsg(h, st) => h in s.agents && Backed(s.agents[h], st)
    case AppliedMsg(h) => h in s.agents && Backed(s.agents[h], Done)
    case TriggerReply(t) => t ==> AllApplyDone(s)
    case DoneFollowUp(h) => h in s.agents && s.agents[h].applyDone
    case ReadResult(h, st) => h in s.agents && StatusBacked(s.agents[h], st)
    case Confirmed(j) => JobOk(s, j)
  }

  ghost predicate NodeOk(s: Sys, h: Host)
    requires Shape(s) && h in s.d.nodes
  {
    LedgerOk(s, h) && StateOk(s, h) && LogOk(s, h) && AgentOk(s, h)
  }

  /** Every manual step was entered with its barrier met, and what a barrier demanded stays true. */
  ghost predicate Barriers(s: Sys)
    requires Shape(s)
  {
    s.d.manual ==>
      && (s.d.step >= STEP_RESTORE ==> AllPassed(s))
      && (s.d.step >= STEP_REBOOT ==> AllImaged(s))
      && (s.d.step >= STEP_APPLY_MASTER ==> AllBooted(s))
      && (s.d.step >= STEP_APPLY_REST ==> s.agents[s.d.master].applyDone)
      && (s.d.step >= STEP_SET_READY ==> AllApplyDone(s))
  }

  ghost predicate Inv(s: Sys) {
    && Shape(s) && Barriers(s)
    && (forall h :: h in s.d.nodes ==> NodeOk(s, h))
    && (forall j :: j in s.jobs ==> JobOk(s, j))
    && (forall m :: m in s.net ==> MsgOk(s, m))
  }

  // ------------------------------------------------------------- monotonicity

  predicate AgentGrows(a: Agent, b: Agent) {
    && (a.restoreBegun ==> b.restoreBegun) && (a.imaged ==> b.imaged) && (a.booted ==> b.booted)
    && (a.applyBegun ==> b.applyBegun) && (a.applyDone ==> b.applyDone) && (a.setReadyRun ==> b.setReadyRun)
  }

  /** The deploy stays the deploy; ledgers are extended, never reordered or shortened. */
  ghost predicate DeployGrows(d: Deploy, t: Deploy) {
    && t.nodes.Keys == d.nodes.Keys && t.master == d.master && t.manual == d.manual
    && t.skewLimit == d.skewLimit && t.hasGate == d.hasGate && t.manualGate == d.manualGate
    && d.step <= t.step <= d.step + 1
    && (forall h :: h in d.nodes ==> d.nodes[h].gates <= t.nodes[h].gates && t.nodes[h].anchor == d.nodes[h].anchor)
  }

  /** Moreover nothing sent or issued is taken back and no agent undoes what it did. */
  ghost predicate Grows(s: Sys, t: Sys) {
    && DeployGrows(s.d, t.d)
    && t.logs.Keys == s.logs.Keys && t.agents.Keys == s.agents.Keys
    && (forall h :: h in s.agents ==> AgentGrows(s.agents[h], t.agents[h]))
    && s.net <= t.net && s.jobs <= t.jobs && s.released <= t.released
  }

  lemma UpdateGrows(n: Node, op: NodeOp)
    ensures n.gates <= Update(n, op).gates && Update(n, op).anchor == n.anchor
  {
  }

  lemma TouchGrows(d: Deploy, h: Host, op: NodeOp)
    ensures DeployGrows(d, Touch(d, h, op))
  {
    if h in d.nodes { UpdateGrows(d.nodes[h], op); }
  }

  lemma AuthorizeGrows(d: Deploy, targets: set<Host>, stage: Stage)
    ensures DeployGrows(d, Authorize(d, targets, stage))
  {
    forall h | h in d.nodes ensures d.nodes[h].gates <= Authorize(d, targets, stage).nodes[h].gates {
      UpdateGrows(d.nodes[h], Grant(stage));
    }
  }

  lemma AdvanceGrows(d: Deploy)
    ensures DeployGrows(d, AdvanceStep(d).0)
  {
    if d.manual && d.step < STEP_SET_READY && CanAdvance(d) {
      var next := d.(step := d.step + 1);
      var (targets, stage) := StepGrant(next, next.step);
      AuthorizeGrows(next, targets, stage);
    }
  }

  lemma CancelGrows(d: Deploy)
    ensures DeployGrows(d, CancelAll(d))
  {
    forall h | h in d.nodes ensures d.nodes[h].gates <= CancelAll(d).nodes[h].gates {
      UpdateGrows(d.nodes[h], NodeOp.Cancel);
    }
  }

  lemma DriverGrows(s: Sys, e: DriverEvent)
    ensures Grows(s, DriverEffect(s, e))
  {
    DriverDeployGrows(s, e);
    hide DeployGrows;
  }

  lemma FlagsGrow(d: Deploy, setReady: SetReady, done: bool)
    ensures DeployGrows(d, d) && DeployGrows(d, d.(setReady := setReady, setReadyDone := done))
  {
  }

  lemma DriverDeployGrows(s: Sys, e: DriverEvent)
    ensures DeployGrows(s.d, DriverEffect(s, e).d)
  {
    hide DeployGrows;
    hide Update;
    var d := s.d;
    FlagsGrow(d, DriverEffect(s, e).d.setReady, DriverEffect(s, e).d.setReadyDone);
    match e
    case Touches(h, op) => TouchGrows(d, h, op);
    case GivesGreenLight(h) =>
      if h in d.nodes { TouchGrows(d, h, GreenLight(!d.hasGate || RESTORE in d.nodes[h].ack)); }
    case AnswersCheckIn(h) => TouchGrows(d, h, CheckIn(Hold(d, h)));
    case HearsStarted(h) => TouchGrows(d, h, if h == d.master then ApplyStarted(ApplyProceed(d, h)) else WaitForMaster);
    case HearsApplied(h) => TouchGrows(d, h, MarkApplied);
    case HearsReport(h, st) => TouchGrows(d, h, NodeOp.Report(st));
    case FollowsUp(h) => AuthorizeGrows(d, Peers(d), APPLY);
    case ConsidersSetReady => AuthorizeGrows(d, MasterOnly(d), SET_READY);
    case Merges(h, st) => if SelState(st).Some? { TouchGrows(d, h, NodeOp.Merge(SelState(st).value)); }
    case Acknowledges(j) => TouchGrows(d, j.host, Ack(j.stages));
    case OperatorNext => AdvanceGrows(d);
    case OperatorReleases(h) => AuthorizeGrows(d, {h}, APPLY);
    case OperatorCancels => CancelGrows(d);
    case _ =>
  }

  lemma ChannelGrows(s: Sys, e: ChannelEvent)
    requires ChannelEnabled(s, e)
    ensures Grows(s, ChannelEffect(s, e))
  {
  }

  lemma InstallerGrows(a: Agent, e: AgentEvent)
    requires e.Round? || e.BeginsRestore? || e.EndsRestore? || e.LeavesInstaller? || e.RestartsInstaller?
        || e.BootsFromDisk?
    ensures AgentGrows(a, NextAgent(a, e))
  {
  }

  lemma ApplyGrows(a: Agent, e: AgentEvent)
    requires e.Boots? || e.ChecksIn? || e.BeginsApply? || e.EndsApply? || e.RunsSetReady?
    ensures AgentGrows(a, NextAgent(a, e))
  {
  }

  lemma SetbackGrows(a: Agent, e: AgentEvent)
    requires e.NeedsReboot? || e.FailsApply? || e.LosesPower?
    ensures AgentGrows(a, NextAgent(a, e))
  {
  }

  lemma NextAgentGrows(a: Agent, e: AgentEvent)
    ensures AgentGrows(a, NextAgent(a, e))
  {
    hide NextAgent;
    hide AgentGrows;
    if e.Boots? || e.ChecksIn? || e.BeginsApply? || e.EndsApply? || e.RunsSetReady? {
      ApplyGrows(a, e);
    } else if e.NeedsReboot? || e.FailsApply? || e.LosesPower? {
      SetbackGrows(a, e);
    } else {
      InstallerGrows(a, e);
    }
  }

  lemma AgentGrowth(s: Sys, h: Host, e: AgentEvent)
    requires AgentEnabled(s, h, e)
    ensures Grows(s, AgentEffect(s, h, e))
  {
    NextAgentGrows(s.agents[h], e);
    hide NextAgent;
    hide Sends;
    hide Writes;
    assert Grows(s, MoveAgent(s, h, e));
  }

  lemma StepGrows(s: Sys, e: Event)
    ensures Grows(s, Step(s, e))
  {
    if Enabled(s, e) {
      match e
      case Driver(de) => DriverGrows(s, de);
      case Channel(ce) => ChannelGrows(s, ce);
      case Acts(h, ae) => AgentGrowth(s, h, ae);
    }
  }

  lemma PassedGrows(s: Sys, t: Sys)
    requires Shape(s) && Shape(t) && Grows(s, t)
    ensures AllPassed(s) ==> AllPassed(t)
  {
    if AllPassed(s) {
      forall h | h in t.agents ensures HasPassed(t, h) {
        assert HasPassed(s, h);
        var f :| FabricMsg(h, f) in s.net && FabricOk(Some(f), s.d.skewLimit);
        assert FabricMsg(h, f) in t.net;
      }
    }
  }

  lemma JobGrows(s: Sys, t: Sys, j: Job)
    requires Shape(s) && Shape(t) && Grows(s, t) && JobOk(s, j)
    ensures JobOk(t, j)
  {
    assert s.d.nodes[j.host].gates <= t.d.nodes[j.host].gates;
  }

  lemma MsgGrows(s: Sys, t: Sys, m: Msg)
    requires Shape(s) && Shape(t) && Grows(s, t) && MsgOk(s, m)
    ensures MsgOk(t, m)
  {
    if m.Confirmed? {
      JobGrows(s, t, m.job);
    }
  }

  /** Jobs and messages already there stay justified; only what an event adds needs an argument. */
  lemma TrafficGrows(s: Sys, t: Sys)
    requires Inv(s) && Shape(t) && Grows(s, t)
    requires forall j :: j in t.jobs ==> j in s.jobs || JobOk(t, j)
    requires forall m :: m in t.net ==> m in s.net || MsgOk(t, m)
    ensures forall j :: j in t.jobs ==> JobOk(t, j)
    ensures forall m :: m in t.net ==> MsgOk(t, m)
  {
    forall j | j in t.jobs ensures JobOk(t, j) {
      if j in s.jobs { JobGrows(s, t, j); }
    }
    forall m | m in t.net ensures MsgOk(t, m) {
      if m in s.net { MsgGrows(s, t, m); }
    }
  }

  /** Fleet-wide facts, once true, stay true. */
  lemma FleetGrows(s: Sys, t: Sys)
    requires Shape(s) && Shape(t) && Grows(s, t)
    ensures AllPassed(s) ==> AllPassed(t)
    ensures AllImaged(s) ==> AllImaged(t)
    ensures AllBooted(s) ==> AllBooted(t)
    ensures AllApplyDone(s) ==> AllApplyDone(t)
    ensures s.agents[s.d.master].applyDone ==> t.agents[t.d.master].applyDone
  {
    PassedGrows(s, t);
  }

  lemma BarriersGrow(s: Sys, t: Sys)
    requires Shape(s) && Shape(t) && Grows(s, t) && t.d.step == s.d.step && Barriers(s)
    ensures Barriers(t)
  {
    FleetGrows(s, t);
  }

  predicate FactsGrow(f: Facts, g: Facts) {
    && g.isMaster == f.isMaster && g.manual == f.manual && f.step <= g.step && (f.released ==> g.released)
    && (f.allDone ==> g.allDone) && (f.masterDone ==> g.masterDone)
  }

  lemma FactsOfGrow(s: Sys, t: Sys, h: Host)
    requires Shape(s) && Shape(t) && Grows(s, t)
    ensures FactsGrow(FactsOf(s, h), FactsOf(t, h))
  {
    FleetGrows(s, t);
  }

  /** Entering a stage keeps a ledger in order when the fleet meets that stage's condition. */
  lemma GrantFits(n: Node, stage: Stage, f: Facts, g: Facts)
    requires LedgerFits(n, f) && FactsGrow(f, g) && stage in {RESTORE, REBOOT, APPLY, SET_READY}
    requires stage == SET_READY ==> g.isMaster && g.allDone
    requires stage == APPLY && !g.isMaster ==> g.released || g.masterDone
    requires g.manual && stage == RESTORE ==> g.step >= STEP_RESTORE
    requires g.manual && stage == REBOOT ==> g.step >= STEP_REBOOT
    requires g.manual ==> g.released || Update(n, Grant(stage)).gates == ManualLedger(g.step, g.isMaster)
    ensures LedgerFits(Update(n, Grant(stage)), g)
  {
    hide ManualLedger;
    ElemsAppend(n.gates, stage);
    var n' := Update(n, Grant(stage));
    assert Elems(n'.gates) == Elems(n.gates) + {stage};
    assert forall x :: x in n'.gates <==> x in Elems(n'.gates);
    assert forall x :: x in n.gates <==> x in Elems(n.gates);
  }

  /** A ledger left alone stays in order if it still is what a manual deploy's step fixes. */
  lemma LeftFits(n: Node, f: Facts, g: Facts)
    requires LedgerFits(n, f) && FactsGrow(f, g) && (g.manual ==> f.manual)
    requires g.manual ==> g.released || n.gates == ManualLedger(g.step, g.isMaster)
    ensures LedgerFits(n, g)
  {
    hide ManualLedger;
  }

  /** Parts of a node that an event leaves alone stay in order. */
  lemma SameLedger(s: Sys, t: Sys, h: Host)
    requires Shape(s) && Shape(t) && Grows(s, t) && t.d.step == s.d.step && h in s.d.nodes && LedgerOk(s, h)
    requires t.d.nodes[h].gates == s.d.nodes[h].gates && Elems(t.d.nodes[h].ack) <= Elems(t.d.nodes[h].gates)
    ensures LedgerOk(t, h)
  {
    FactsOfGrow(s, t, h);
  }

  lemma SameAgent(s: Sys, t: Sys, h: Host)
    requires Shape(s) && Shape(t) && Grows(s, t) && h in s.d.nodes && AgentOk(s, h)
    requires t.agents[h] == s.agents[h]
    ensures AgentOk(t, h)
  {
    FleetGrows(s, t);
  }

  lemma SameLog(s: Sys, t: Sys, h: Host)
    requires Shape(s) && Shape(t) && Grows(s, t) && h in s.d.nodes && LogOk(s, h)
    requires t.logs[h] == s.logs[h]
    ensures LogOk(t, h)
  {
    assert s.d.nodes[h].gates <= t.d.nodes[h].gates;
    forall i | t.logs[h].stale <= i < |t.logs[h].log| ensures RecordBacked(t.agents[h], t.logs[h].log[i]) {
      assert RecordBacked(s.agents[h], s.logs[h].log[i]);
    }
  }

  lemma SameState(s: Sys, t: Sys, h: Host)
    requires Shape(s) && Shape(t) && Grows(s, t) && h in s.d.nodes && StateOk(s, h)
    requires t.d.nodes[h].state == s.d.nodes[h].state && t.d.nodes[h].fabric == s.d.nodes[h].fabric
    ensures StateOk(t, h)
  {
  }

  // -------------------------------------------------- driver: touching one node

  function WithNode(s: Sys, h: Host, n: Node, said: set<Msg>): Sys {
    s.(d := s.d.(nodes := s.d.nodes[h := n]), net := s.net + said)
  }

  /** A record of this node that the system's history justifies, with the ledger it already has. */
  ghost predicate Justified(s: Sys, h: Host, n: Node)
    requires Shape(s) && h in s.d.nodes
  {
    && n.gates == s.d.nodes[h].gates && n.anchor == s.d.nodes[h].anchor
    && Elems(n.ack) <= Elems(n.gates)
    && Backed(s.agents[h], n.state)
    && (n.fabric.Some? && n.fabric.value.passed ==> FabricMsg(h, n.fabric.value) in s.net)
  }

  lemma RewriteNode(s: Sys, h: Host, n: Node, said: set<Msg>, k: Host)
    requires Shape(s) && h in s.d.nodes && k in s.d.nodes && NodeOk(s, k) && Justified(s, h, n)
    ensures Shape(WithNode(s, h, n, said)) && NodeOk(WithNode(s, h, n, said), k)
  {
    hide FactsOf;
    var t := WithNode(s, h, n, said);
    assert Grows(s, t) && Shape(t);
    SameLedger(s, t, k);
    SameLog(s, t, k);
    SameAgent(s, t, k);
    if k != h { SameState(s, t, k); }
  }

  lemma RewriteKeeps(s: Sys, h: Host, n: Node, said: set<Msg>)
    requires Inv(s) && h in s.d.nodes && Justified(s, h, n)
    requires Shape(WithNode(s, h, n, said)) ==> forall m :: m in said ==> MsgOk(WithNode(s, h, n, said), m)
    ensures Inv(WithNode(s, h, n, said))
  {
    hide NodeOk;
    hide MsgOk;
    hide JobOk;
    var t := WithNode(s, h, n, said);
    forall k | k in t.d.nodes ensures Shape(t) && NodeOk(t, k) {
      assert NodeOk(s, k);
      RewriteNode(s, h, n, said, k);
    }
    assert Grows(s, t) && Shape(t);
    TrafficGrows(s, t);
    BarriersGrow(s, t);
  }

  lemma SayKeeps(s: Sys, said: set<Msg>)
    requires Inv(s)
    requires Shape(s.(net := s.net + said)) ==> forall m :: m in said ==> MsgOk(s.(net := s.net + said), m)
    ensures Inv(s.(net := s.net + said))
  {
    hide FactsOf;
    hide MsgOk;
    hide JobOk;
    var h := s.d.master;
    var n := s.d.nodes[h];
    assert NodeOk(s, h);
    assert s.d.nodes[h := n] == s.d.nodes;
    assert WithNode(s, h, n, said) == s.(net := s.net + said);
    RewriteKeeps(s, h, n, said);
  }

  /** The evidence each kind of request rests on. */
  ghost predicate OpBacked(s: Sys, h: Host, op: NodeOp)
    requires Shape(s) && h in s.d.nodes
  {
    var a := s.agents[h];
    match op
    case Advance(to) => PipelineRank(to) == 0
    case PreflightReport(f) => FabricMsg(h, f) in s.net
    case RestoreDone => a.imaged
    case ApplyStarted(_) => a.imaged && a.booted
    case WaitForMaster => a.imaged && a.booted
    case CheckIn(_) => a.imaged && a.booted
    case Report(to) => Backed(a, to)
    case MarkApplied => Backed(a, Done)
    case Merge(to) => Backed(a, to)
    case Ack(stages) => Elems(stages) <= Elems(s.d.nodes[h].gates)
    case Grant(_) => false
    case _ => true
  }

  lemma UpdateJustified(s: Sys, h: Host, op: NodeOp)
    requires Shape(s) && h in s.d.nodes && StateOk(s, h) && LedgerOk(s, h) && OpBacked(s, h, op)
    ensures Justified(s, h, Update(s.d.nodes[h], op))
  {
    hide FactsOf;
    var n, a := s.d.nodes[h], s.agents[h];
    match op
    case Rekick =>
    case Merge(to) =>
    case _ =>
  }

  lemma TouchKeeps(s: Sys, h: Host, op: NodeOp, said: set<Msg>)
    requires Inv(s) && (h in s.d.nodes ==> OpBacked(s, h, op))
    requires var t := s.(d := Touch(s.d, h, op), net := s.net + said);
             Shape(t) ==> forall m :: m in said ==> MsgOk(t, m)
    ensures Inv(s.(d := Touch(s.d, h, op), net := s.net + said))
  {
    hide FactsOf;
    hide MsgOk;
    hide JobOk;
    hide OpBacked;
    if h in s.d.nodes {
      assert NodeOk(s, h);
      UpdateJustified(s, h, op);
      var n := Update(s.d.nodes[h], op);
      assert WithNode(s, h, n, said) == s.(d := Touch(s.d, h, op), net := s.net + said);
      RewriteKeeps(s, h, n, said);
    } else {
      SayKeeps(s, said);
    }
  }

  lemma Told(s: Sys, m: Msg)
    requires Inv(s) && m in s.net
    ensures Shape(s) && MsgOk(s, m)
  {
    hide MsgOk;
  }

  lemma At(s: Sys, h: Host)
    requires Inv(s) && h in s.d.nodes
    ensures Shape(s) && NodeOk(s, h)
  {
    hide NodeOk;
  }

  lemma TouchEventKeeps(s: Sys, h: Host, op: NodeOp)
    requires Inv(s) && DriverEnabled(s, Touches(h, op))
    ensures Inv(DriverEffect(s, Touches(h, op)))
  {
    hide NodeOk;
    hide FactsOf;
    if op.RestoreDone? {
      Told(s, RestoreDoneMsg(h));
    }
    hide Inv;
    TouchKeeps(s, h, op, {});
    assert s.(d := Touch(s.d, h, op), net := s.net + {}) == DriverEffect(s, Touches(h, op));
  }

  /** The driver says a node is done only if it is. */
  lemma DoneIsReal(s: Sys)
    requires Inv(s)
    ensures Shape(s)
    ensures AllApplied(s.d) ==> AllApplyDone(s)
    ensures MasterDone(s.d) ==> s.agents[s.d.master].applyDone
    ensures FabricReady(s.d) ==> AllPassed(s)
    ensures AllReached(s.d, 4) ==> AllImaged(s)
    ensures AllReached(s.d, 5) ==> AllBooted(s)
    ensures AllReached(s.d, 7) ==> AllApplyDone(s)
  {
    hide LedgerOk;
    hide LogOk;
    hide AgentOk;
    hide FactsOf;
    forall h | h in s.agents
      ensures Backed(s.agents[h], s.d.nodes[h].state)
      ensures FabricReady(s.d) ==> HasPassed(s, h)
    {
      At(s, h);
      if FabricReady(s.d) {
        assert FabricMsg(h, s.d.nodes[h].fabric.value) in s.net;
      }
    }
  }

  /** A step keeps the invariant if every node comes out in order and all new traffic is justified. */
  lemma Assemble(s: Sys, t: Sys)
    requires Inv(s) && Shape(t) && Grows(s, t) && (t.d.step == s.d.step || Barriers(t))
    requires forall k :: k in t.d.nodes ==> NodeOk(t, k)
    requires forall j :: j in t.jobs ==> j in s.jobs || JobOk(t, j)
    requires forall m :: m in t.net ==> m in s.net || MsgOk(t, m)
    ensures Inv(t)
  {
    hide NodeOk;
    hide MsgOk;
    hide JobOk;
    TrafficGrows(s, t);
    if t.d.step == s.d.step { BarriersGrow(s, t); }
  }

  lemma FlagsKeep(s: Sys, setReady: SetReady, done: bool)
    requires Inv(s)
    ensures Inv(s.(d := s.d.(setReady := setReady, setReadyDone := done)))
  {
    hide FactsOf;
    var t := s.(d := s.d.(setReady := setReady, setReadyDone := done));
    assert Shape(t) && Grows(s, t);
    forall k | k in t.d.nodes ensures NodeOk(t, k) {
      At(s, k);
      SameNode(s, t, k);
    }
    hide NodeOk;
    Assemble(s, t);
  }

  lemma SameNode(s: Sys, t: Sys, k: Host)
    requires Shape(s) && Shape(t) && Grows(s, t) && t.d.step == s.d.step && k in s.d.nodes && NodeOk(s, k)
    requires t.d.nodes[k] == s.d.nodes[k] && t.agents[k] == s.agents[k] && t.logs[k] == s.logs[k]
    ensures NodeOk(t, k)
  {
    hide FactsOf;
    SameLedger(s, t, k);
    SameLog(s, t, k);
    SameAgent(s, t, k);
    SameState(s, t, k);
  }

  /** A driver step leaves logs and agents alone, so only the node's record is to be judged. */
  lemma RecordOnly(s: Sys, t: Sys, k: Host)
    requires Shape(s) && Shape(t) && Grows(s, t) && k in s.d.nodes && NodeOk(s, k)
    requires t.agents == s.agents && t.logs == s.logs && LedgerOk(t, k) && StateOk(t, k)
    ensures NodeOk(t, k)
  {
    hide LedgerOk;
    hide StateOk;
    SameLog(s, t, k);
    SameAgent(s, t, k);
  }

  lemma CancelShape(s: Sys, t: Sys, k: Host)
    requires Shape(s) && k in s.d.nodes && t == s.(d := CancelAll(s.d))
    ensures Shape(t) && Grows(s, t) && t.d.step == s.d.step && t.agents == s.agents && t.logs == s.logs
    ensures var n := s.d.nodes[k];
            t.d.nodes[k] == if n.state == Done || n.state == Failed then n else n.(state := Failed)
  {
    CancelGrows(s.d);
  }

  lemma CancelNode(s: Sys, t: Sys, k: Host)
    requires Shape(s) && k in s.d.nodes && NodeOk(s, k) && t == s.(d := CancelAll(s.d))
    ensures Shape(t) && NodeOk(t, k)
  {
    CancelShape(s, t, k);
    hide CancelAll;
    hide LogOk;
    hide AgentOk;
    hide FactsOf;
    hide Grows;
    assert StateOk(t, k);
    SameLedger(s, t, k);
    hide StateOk;
    hide LedgerOk;
    RecordOnly(s, t, k);
  }

  lemma CancelKeeps(s: Sys)
    requires Inv(s)
    ensures Inv(s.(d := CancelAll(s.d)))
  {
    hide NodeOk;
    hide MsgOk;
    hide JobOk;
    var t := s.(d := CancelAll(s.d));
    forall k | k in t.d.nodes ensures Shape(t) && NodeOk(t, k) {
      At(s, k);
      CancelNode(s, t, k);
    }
    CancelGrows(s.d);
    Assemble(s, t);
  }

  /** Background writes may only be started with what the ledger holds. */
  lemma IssueKeeps(s: Sys, jobs: set<Job>)
    requires Inv(s) && forall j :: j in jobs ==> JobOk(s, j)
    ensures Inv(s.(jobs := s.jobs + jobs))
  {
    hide FactsOf;
    var t := s.(jobs := s.jobs + jobs);
    assert Shape(t) && Grows(s, t);
    forall k | k in t.d.nodes ensures NodeOk(t, k) {
      At(s, k);
      SameNode(s, t, k);
    }
    hide NodeOk;
    hide MsgOk;
    Assemble(s, t);
  }

  // --------------------------------------------------------- driver: granting

  /** When a stage may be entered into a ledger outside the manual steps. */
  ghost predicate MayGrant(s: Sys, targets: set<Host>, stage: Stage, released: set<Host>)
    requires Shape(s)
  {
    && s.released <= released
    && (s.d.manual ==> stage == APPLY && targets <= released)
    && (stage == APPLY || stage == SET_READY)
    && (stage == SET_READY ==> targets <= {s.d.master} && AllApplyDone(s))
    && (stage == APPLY ==> targets <= released + {s.d.master} || s.agents[s.d.master].applyDone)
  }

  function Granted(s: Sys, targets: set<Host>, stage: Stage, jobs: set<Job>, released: set<Host>): Sys {
    s.(d := Authorize(s.d, targets, stage), jobs := s.jobs + jobs, released := released)
  }

  lemma GrantedGrows(s: Sys, targets: set<Host>, stage: Stage, jobs: set<Job>, released: set<Host>, k: Host)
    requires Shape(s) && k in s.d.nodes && s.released <= released
    ensures var t := Granted(s, targets, stage, jobs, released);
            && Shape(t) && Grows(s, t) && t.agents == s.agents && t.logs == s.logs && t.net == s.net
            && t.d.nodes[k].state == s.d.nodes[k].state && t.d.nodes[k].fabric == s.d.nodes[k].fabric
  {
    AuthorizeGrows(s.d, targets, stage);
  }

  lemma GrantNode(s: Sys, targets: set<Host>, stage: Stage, jobs: set<Job>, released: set<Host>, k: Host)
    requires Shape(s) && k in s.d.nodes && NodeOk(s, k)
    requires MayGrant(s, targets, stage, released)
    ensures Shape(Granted(s, targets, stage, jobs, released)) && NodeOk(Granted(s, targets, stage, jobs, released), k)
  {
    hide FactsOf;
    var t := Granted(s, targets, stage, jobs, released);
    GrantedGrows(s, targets, stage, jobs, released, k);
    GrantLedger(s, targets, stage, jobs, released, k);
    hide LedgerOk;
    hide MayGrant;
    hide Granted;
    SameAgent(s, t, k);
    SameLog(s, t, k);
    SameState(s, t, k);
  }

  lemma GrantLedger(s: Sys, targets: set<Host>, stage: Stage, jobs: set<Job>, released: set<Host>, k: Host)
    requires Shape(s) && k in s.d.nodes && LedgerOk(s, k)
    requires MayGrant(s, targets, stage, released)
    ensures Shape(Granted(s, targets, stage, jobs, released)) && LedgerOk(Granted(s, targets, stage, jobs, released), k)
  {
    hide AllPassed;
    hide AllImaged;
    hide AllBooted;
    hide AllApplyDone;
    var t := Granted(s, targets, stage, jobs, released);
    AuthorizeGrows(s.d, targets, stage);
    assert Shape(t) && Grows(s, t);
    if k in targets {
      FactsOfGrow(s, t, k);
      GrantFits(s.d.nodes[k], stage, FactsOf(s, k), FactsOf(t, k));
    } else {
      SameLedger(s, t, k);
    }
  }

  lemma GrantKeeps(s: Sys, targets: set<Host>, stage: Stage, jobs: set<Job>, released: set<Host>)
    requires Inv(s)
    requires MayGrant(s, targets, stage, released)
    requires forall j :: j in jobs ==> JobOk(Granted(s, targets, stage, jobs, released), j)
    ensures Inv(Granted(s, targets, stage, jobs, released))
  {
    hide NodeOk;
    hide MsgOk;
    assert s.released <= released;
    hide MayGrant;
    var t := Granted(s, targets, stage, jobs, released);
    forall k | k in t.d.nodes ensures Shape(t) && NodeOk(t, k) {
      At(s, k);
      GrantNode(s, targets, stage, jobs, released, k);
    }
    AuthorizeGrows(s.d, targets, stage);
    assert Shape(t) && Grows(s, t);
    Assemble(s, t);
  }

  lemma FlushOk(s: Sys, targets: set<Host>, j: Job)
    requires j in Flush(s.d, targets) || j in Reconcile(s.d)
    ensures JobOk(s, j)
  {
  }

  lemma GosKeep(s: Sys, targets: set<Host>, stage: Stage)
    requires Inv(s) && MayGrant(s, targets, stage, s.released)
    ensures Inv(Issue(s, WriteGos(s.d, targets, stage)))
  {
    hide NodeOk;
    hide MsgOk;
    hide MayGrant;
    var jobs := WriteGos(s.d, targets, stage).1;
    var t := Granted(s, targets, stage, jobs, s.released);
    forall j | j in jobs ensures JobOk(t, j) {
      FlushOk(t, targets, j);
    }
    GrantKeeps(s, targets, stage, jobs, s.released);
  }

  lemma ReleaseKeeps(s: Sys, h: Host)
    requires Inv(s)
    ensures Inv(DriverEffect(s, OperatorReleases(h)))
  {
    hide NodeOk;
    hide MsgOk;
    var (d, jobs) := ReleaseNode(s.d, h);
    if d == s.d && jobs == {} {
      var t := s.(released := s.released + {h});
      assert Authorize(s.d, {}, APPLY).nodes == s.d.nodes;
      assert Granted(s, {}, APPLY, {}, s.released + {h}) == t;
      GrantKeeps(s, {}, APPLY, {}, s.released + {h});
    } else {
      GrantKeeps(s, {h}, APPLY, jobs, s.released + {h});
    }
  }

  // ------------------------------------------------------ driver: manual steps

  /** Entering a step turns the ledger of the previous one into its own. */
  lemma StepLedger(d: Deploy, h: Host, n: Node)
    requires d.manual && STEP_PREFLIGHT <= d.step < STEP_SET_READY && h in d.nodes && d.master in d.nodes
    requires n.gates == ManualLedger(d.step, h == d.master)
    ensures var (targets, stage) := StepGrant(d, d.step + 1);
            (if h in targets then Update(n, Grant(stage)).gates else n.gates) == ManualLedger(d.step + 1, h == d.master)
  {
  }

  ghost predicate EntersNextStep(s: Sys, t: Sys) {
    Shape(s) && s.d.manual && s.d.step < STEP_SET_READY && CanAdvance(s.d) && t == Issue(s, AdvanceStep(s.d))
  }

  lemma NextShape(s: Sys, t: Sys, k: Host)
    requires EntersNextStep(s, t) && k in s.d.nodes
    ensures Shape(s) && Shape(t) && Grows(s, t) && t.agents == s.agents && t.logs == s.logs
    ensures s.d.manual && s.d.step < STEP_SET_READY && t.d.step == s.d.step + 1 && t.released == s.released
    ensures var (targets, stage) := StepGrant(s.d, s.d.step + 1);
            t.d.nodes[k] == if k in targets then Update(s.d.nodes[k], Grant(stage)) else s.d.nodes[k]
  {
    AdvanceGrows(s.d);
  }

  lemma GrantKeepsState(n: Node, stage: Stage)
    ensures Update(n, Grant(stage)).state == n.state && Update(n, Grant(stage)).fabric == n.fabric
  {
  }

  lemma NextState(s: Sys, t: Sys, k: Host)
    requires EntersNextStep(s, t) && k in s.d.nodes && Shape(s) && StateOk(s, k)
    ensures Shape(t) && StateOk(t, k)
  {
    hide EntersNextStep;
    hide StateOk;
    hide StepGrant;
    hide Grows;
    NextShape(s, t, k);
    GrantKeepsState(s.d.nodes[k], StepGrant(s.d, s.d.step + 1).1);
    hide Update;
    SameState(s, t, k);
  }

  /** The barrier of the step being left becomes a fact about the step being entered. */
  lemma NextBarriers(s: Sys, t: Sys)
    requires Inv(s) && EntersNextStep(s, t)
    ensures Shape(t) && Barriers(t)
  {
    hide Inv;
    DoneIsReal(s);
    Shaped(s);
    assert CanAdvance(s.d);
    hide EntersNextStep;
    NextShape(s, t, s.d.master);
    FleetGrows(s, t);
    hide StepGrant;
    hide Update;
    hide Grows;
    hide FabricReady;
    hide AllReached;
    hide MasterDone;
    hide AllPassed;
    hide AllImaged;
    hide AllBooted;
    hide AllApplyDone;
  }

  lemma NextLedger(s: Sys, t: Sys, k: Host)
    requires Shape(s) && k in s.d.nodes && LedgerOk(s, k) && Shape(t) && Grows(s, t) && Barriers(t)
    requires s.d.manual && s.d.step < STEP_SET_READY && t.d.step == s.d.step + 1 && t.released == s.released
    requires var (targets, stage) := StepGrant(s.d, s.d.step + 1);
             t.d.nodes[k] == if k in targets then Update(s.d.nodes[k], Grant(stage)) else s.d.nodes[k]
    ensures LedgerOk(t, k)
  {
    hide AllPassed;
    hide AllImaged;
    hide AllBooted;
    hide AllApplyDone;
    FactsOfGrow(s, t, k);
    hide Grows;
    var (targets, stage) := StepGrant(s.d, s.d.step + 1);
    var n := s.d.nodes[k];
    if k !in s.released {
      StepLedger(s.d, k, n);
    }
    hide ManualLedger;
    if k in targets {
      GrantFits(n, stage, FactsOf(s, k), FactsOf(t, k));
    } else {
      LeftFits(n, FactsOf(s, k), FactsOf(t, k));
    }
    hide LedgerFits;
  }

  lemma NextLedgerOf(s: Sys, t: Sys, k: Host)
    requires Inv(s) && k in s.d.nodes && EntersNextStep(s, t)
    ensures Shape(t) && LedgerOk(t, k)
  {
    hide Inv;
    hide LogOk;
    hide AgentOk;
    hide StateOk;
    hide LedgerFits;
    hide Barriers;
    hide EntersNextStep;
    hide Grows;
    At(s, k);
    NextShape(s, t, k);
    NextBarriers(s, t);
    hide NodeOk;
    NextLedger(s, t, k);
  }

  lemma NextNode(s: Sys, t: Sys, k: Host)
    requires Inv(s) && k in s.d.nodes && EntersNextStep(s, t)
    ensures Shape(t) && NodeOk(t, k)
  {
    hide Inv;
    hide LogOk;
    hide AgentOk;
    hide LedgerOk;
    hide StateOk;
    hide EntersNextStep;
    hide Grows;
    At(s, k);
    NextShape(s, t, k);
    NextLedgerOf(s, t, k);
    NextState(s, t, k);
    RecordOnly(s, t, k);
  }

  lemma NextKeeps(s: Sys)
    requires Inv(s)
    ensures Inv(DriverEffect(s, OperatorNext))
  {
    hide NodeOk;
    hide MsgOk;
    hide CanAdvance;
    hide Barriers;
    if s.d.manual && s.d.step < STEP_SET_READY && CanAdvance(s.d) {
      var t := Issue(s, AdvanceStep(s.d));
      assert EntersNextStep(s, t);
      forall k | k in t.d.nodes ensures Shape(t) && NodeOk(t, k) {
        NextNode(s, t, k);
      }
      NextShape(s, t, s.d.master);
      NextBarriers(s, t);
      var (targets, stage) := StepGrant(s.d, s.d.step + 1);
      assert t.jobs == s.jobs + Flush(t.d, targets);
      hide EntersNextStep;
      hide AdvanceStep;
      forall j | j in t.jobs ensures j in s.jobs || JobOk(t, j) {
        if j !in s.jobs { FlushOk(t, targets, j); }
      }
      hide Flush;
      hide JobOk;
      Assemble(s, t);
    } else {
      assert DriverEffect(s, OperatorNext) == s;
    }
  }

  // -------------------------------------------------------- driver: every event

  lemma HoldBacked(s: Sys, h: Host)
    requires Inv(s)
    ensures var t := s.(d := Touch(s.d, h, CheckIn(Hold(s.d, h))), net := s.net + {HoldReply(h, Hold(s.d, h))});
            Shape(t) ==> MsgOk(t, HoldReply(h, Hold(s.d, h)))
  {
    hide Inv;
    DoneIsReal(s);
  }

  lemma MergeKeeps(s: Sys, h: Host, st: Status)
    requires Inv(s) && ReadResult(h, st) in s.net
    ensures Inv(DriverEffect(s, Merges(h, st)))
  {
    hide Inv;
    Told(s, ReadResult(h, st));
    var (d, done) := MergeSel(s.d, h, st);
    if st.phase == ReadyPh {
      if h == s.d.master {
        FlagsKeep(s, s.d.setReady.(ready := st.outcome != ErrorOut), st.outcome != ErrorOut);
      }
    } else if SelState(st).Some? {
      var op := NodeOp.Merge(SelState(st).value);
      var said := if done then {DoneFollowUp(h)} else {};
      assert done ==> SelState(st).value == Done;
      TouchKeeps(s, h, op, said);
      assert s.(d := Touch(s.d, h, op), net := s.net + said) == DriverEffect(s, Merges(h, st));
    }
  }

  lemma AppliedKeeps(s: Sys, h: Host)
    requires Inv(s) && AppliedMsg(h) in s.net
    ensures Inv(DriverEffect(s, HearsApplied(h)))
  {
    hide Inv;
    Told(s, AppliedMsg(h));
    TouchKeeps(s, h, MarkApplied, {DoneFollowUp(h)});
  }

  lemma FollowUpKeeps(s: Sys, h: Host)
    requires Inv(s) && DoneFollowUp(h) in s.net
    ensures Inv(DriverEffect(s, FollowsUp(h)))
  {
    hide Inv;
    Told(s, DoneFollowUp(h));
    if h == s.d.master && !s.d.manualGate && !s.d.manual {
      GosKeep(s, Peers(s.d), APPLY);
    } else {
      assert DriverEffect(s, FollowsUp(h)) == s;
    }
  }

  lemma SetReadyKeeps(s: Sys)
    requires Inv(s)
    ensures Inv(DriverEffect(s, ConsidersSetReady))
  {
    hide Inv;
    DoneIsReal(s);
    if !s.d.manual && AllApplied(s.d) {
      GosKeep(s, MasterOnly(s.d), SET_READY);
    } else {
      assert DriverEffect(s, ConsidersSetReady) == s;
    }
  }

  lemma TriggerKeeps(s: Sys)
    requires Inv(s)
    ensures Inv(DriverEffect(s, AnswersTrigger))
  {
    hide Inv;
    DoneIsReal(s);
    SayKeeps(s, {TriggerReply(Trigger(s.d))});
  }

  lemma ReadKeeps(s: Sys, h: Host, st: Status)
    requires Inv(s) && DriverEnabled(s, Reads(h, st))
    ensures Inv(DriverEffect(s, Reads(h, st)))
  {
    hide Inv;
    At(s, h);
    ReadBacked(s, h, st);
    SayKeeps(s, {ReadResult(h, st)});
  }

  /** A status read past the anchor was written in this deploy, so the node has earned it. */
  lemma ReadBacked(s: Sys, h: Host, st: Status)
    requires Shape(s) && h in s.d.nodes && LogOk(s, h)
    requires Observed(s.logs[h].log, s.d.nodes[h].anchor, Some(st))
    ensures StatusBacked(s.agents[h], st)
  {
    var l, anchor := s.logs[h], s.d.nodes[h].anchor;
    var from := FreshFrom(l.log, anchor);
    var j :| IsLatest(l.log, from, j) && DecodeCube(l.log[j]) == Some(st);
    if anchor != 0 {
      var k := FirstWithId(l.log, anchor);
      assert k < |l.log| && l.log[k].id == anchor;
      assert !(0 <= k < l.stale - 1);
    }
    assert l.stale <= j;
    assert RecordBacked(s.agents[h], l.log[j]);
  }

  lemma TouchEvents(s: Sys, e: DriverEvent)
    requires Inv(s) && DriverEnabled(s, e)
    requires e.GivesGreenLight? || e.AnswersCheckIn? || e.HearsStarted? || e.HearsReport? || e.Acknowledges?
    ensures Inv(DriverEffect(s, e))
  {
    hide Inv;
    match e
    case GivesGreenLight(h) =>
        var (clear, d) := GreenLight1(s.d, h);
      if clear && h in s.d.nodes {
        var op := GreenLight(!s.d.hasGate || RESTORE in s.d.nodes[h].ack);
        TouchKeeps(s, h, op, {});
        assert s.(d := Touch(s.d, h, op), net := s.net + {}) == DriverEffect(s, e);
      } else {
        assert DriverEffect(s, e) == s;
      }
    case AnswersCheckIn(h) =>
      Told(s, CheckInMsg(h));
      HoldBacked(s, h);
        TouchKeeps(s, h, CheckIn(Hold(s.d, h)), {HoldReply(h, Hold(s.d, h))});
    case HearsStarted(h) =>
      Told(s, StartedMsg(h));
        var op := if h == s.d.master then ApplyStarted(ApplyProceed(s.d, h)) else WaitForMaster;
      TouchKeeps(s, h, op, {});
      assert s.(d := Touch(s.d, h, op), net := s.net + {}) == DriverEffect(s, e);
    case HearsReport(h, st) =>
      Told(s, ReportMsg(h, st));
        TouchKeeps(s, h, NodeOp.Report(st), {});
      assert s.(d := Touch(s.d, h, NodeOp.Report(st)), net := s.net + {}) == DriverEffect(s, e);
    case Acknowledges(j) =>
      Told(s, Confirmed(j));
        TouchKeeps(s, j.host, Ack(j.stages), {});
      assert s.(d := Touch(s.d, j.host, Ack(j.stages)), net := s.net + {}) == DriverEffect(s, e);
  }

  lemma DriverKeeps(s: Sys, e: DriverEvent)
    requires Inv(s) && DriverEnabled(s, e)
    ensures Inv(DriverEffect(s, e))
  {
    hide Inv;
    match e
    case Touches(h, op) => TouchEventKeeps(s, h, op);
    case HearsApplied(h) => AppliedKeeps(s, h);
    case FollowsUp(h) => FollowUpKeeps(s, h);
    case ConsidersSetReady => SetReadyKeeps(s);
    case Reads(h, st) => ReadKeeps(s, h, st);
    case Merges(h, st) => MergeKeeps(s, h, st);
    case HearsReady(ok) => FlagsKeep(s, s.d.setReady.(ready := ok), ok);
    case Reconciles =>
      forall j | j in Reconcile(s.d) ensures JobOk(s, j) { FlushOk(s, {}, j); }
      IssueKeeps(s, Reconcile(s.d));
    case AnswersTrigger => TriggerKeeps(s);
    case OperatorNext => NextKeeps(s);
    case OperatorReleases(h) => ReleaseKeeps(s, h);
    case OperatorCancels => CancelKeeps(s);
    case OperatorSubmits => FlagsKeep(s, SetReady(true, false), s.d.setReadyDone);
    case _ => TouchEvents(s, e);
  }

  // -------------------------------------------------------------- the channel

  /** A node whose log alone changed. */
  lemma LogOnly(s: Sys, t: Sys, k: Host)
    requires Shape(s) && Shape(t) && Grows(s, t) && k in s.d.nodes && NodeOk(s, k)
    requires t.d == s.d && t.agents == s.agents && LogOk(t, k)
    ensures NodeOk(t, k)
  {
    hide LogOk;
    hide FactsOf;
    SameLedger(s, t, k);
    SameAgent(s, t, k);
    SameState(s, t, k);
  }

  ghost predicate LogStep(s: Sys, t: Sys, h: Host) {
    && Shape(s) && h in s.d.nodes
    && t == s.(logs := t.logs) && t.logs.Keys == s.logs.Keys
    && (forall k :: k in s.logs && k != h ==> t.logs[k] == s.logs[k])
  }

  lemma LogStepNode(s: Sys, t: Sys, h: Host, k: Host)
    requires LogStep(s, t, h) && k in s.d.nodes && Shape(s) && NodeOk(s, k) && Shape(t) && LogOk(t, h)
    ensures NodeOk(t, k)
  {
    hide NodeOk;
    assert Grows(s, t);
    if k != h {
      SameNode(s, t, k);
    } else {
      LogOnly(s, t, k);
    }
  }

  lemma LogStepKeeps(s: Sys, t: Sys, h: Host)
    requires Inv(s) && LogStep(s, t, h) && Shape(t) && LogOk(t, h)
    ensures Inv(t)
  {
    hide NodeOk;
    hide MsgOk;
    hide JobOk;
    hide LogOk;
    forall k | k in t.d.nodes ensures NodeOk(t, k) {
      LogStepNode(s, t, h, k);
    }
    assert Grows(s, t);
    Assemble(s, t);
  }

  /** Appending a record that is no unauthorised gate and no unearned status. */
  lemma AppendOk(s: Sys, t: Sys, h: Host, r: Record)
    requires Shape(s) && h in s.d.nodes && LogOk(s, h) && t == PutRecord(s, h, r)
    requires IsGate(r) ==> StageOf(r) in s.d.nodes[h].gates
    requires RecordBacked(s.agents[h], r)
    ensures LogStep(s, t, h) && Shape(t) && LogOk(t, h)
  {
    GatesInAppend(s.logs[h].log, r);
    var l, l' := s.logs[h], t.logs[h];
    forall i | l'.stale <= i < |l'.log| ensures RecordBacked(t.agents[h], l'.log[i]) {
      if i < |l.log| { assert RecordBacked(s.agents[h], l.log[i]); }
    }
  }

  /** Losing a record neither adds a gate nor makes an old status look new. */
  lemma LossOk(s: Sys, t: Sys, h: Host, at: nat)
    requires Shape(s) && h in s.d.nodes && LogOk(s, h) && at < |s.logs[h].log|
    requires t == s.(logs := s.logs[h := DropRecord(s.logs[h], at)])
    ensures LogStep(s, t, h) && Shape(t) && LogOk(t, h)
  {
    var l, l' := s.logs[h], t.logs[h];
    forall i | 0 <= i < |l'.log| ensures l'.log[i] == l.log[if i < at then i else i + 1] {
    }
    assert forall r :: r in l'.log ==> r in l.log;
    GatesInSubset(l.log, l'.log);
    forall i | l'.stale <= i < |l'.log| ensures RecordBacked(t.agents[h], l'.log[i]) {
      assert RecordBacked(s.agents[h], l.log[if i < at then i else i + 1]);
    }
  }

  lemma GateLandsKeeps(s: Sys, j: Job, stage: Stage, id: nat)
    requires Inv(s) && ChannelEnabled(s, GateLands(j, stage, id))
    ensures Inv(ChannelEffect(s, GateLands(j, stage, id)))
  {
    hide Inv;
    Issued(s, j);
    At(s, j.host);
    var r := Record(id, Some(GateOem(stage)));
    assert stage in Elems(j.stages);
    GateIsNoStatus(r);
    var t := ChannelEffect(s, GateLands(j, stage, id));
    AppendOk(s, t, j.host, r);
    LogStepKeeps(s, t, j.host);
  }

  lemma Issued(s: Sys, j: Job)
    requires Inv(s) && j in s.jobs
    ensures JobOk(s, j)
  {
    hide JobOk;
  }

  lemma ChannelKeeps(s: Sys, e: ChannelEvent)
    requires Inv(s) && ChannelEnabled(s, e)
    ensures Inv(ChannelEffect(s, e))
  {
    hide Inv;
    var t := ChannelEffect(s, e);
    Shaped(s);
    match e
    case GateLands(j, stage, id) => GateLandsKeeps(s, j, stage, id);
    case WriterConfirms(j) =>
      Issued(s, j);
      SayKeeps(s, {Confirmed(j)});
    case OtherLands(h, r) =>
      At(s, h);
      AppendOk(s, t, h, r);
      LogStepKeeps(s, t, h);
    case RecordLost(h, at) =>
      At(s, h);
      LossOk(s, t, h, at);
      LogStepKeeps(s, t, h);
    case LogWiped(h) =>
      At(s, h);
      assert GatesIn([]) == {};
      assert LogStep(s, t, h) && Shape(t) && LogOk(t, h);
      LogStepKeeps(s, t, h);
  }

  lemma Shaped(s: Sys)
    requires Inv(s)
    ensures Shape(s) && Barriers(s)
  {
    hide Barriers;
    hide NodeOk;
    hide MsgOk;
    hide JobOk;
  }

  // --------------------------------------------------------------- the agents

  lemma AgentMovesInShape(s: Sys, h: Host, e: AgentEvent)
    requires AgentEnabled(s, h, e) && AgentShape(s.agents[h])
    ensures AgentShape(NextAgent(s.agents[h], e))
  {
  }

  /** An agent acts on a gate in its log or an answer from the driver, and each rests on the fleet's real progress. */
  lemma AgentActsEarned(s: Sys, h: Host, e: AgentEvent)
    requires Inv(s) && AgentEnabled(s, h, e)
    ensures Shape(s) && h in s.d.nodes && AgentEarned(s, h, NextAgent(s.agents[h], e))
  {
    hide Inv;
    hide LogOk;
    hide AllPassed;
    hide AllImaged;
    hide AllApplyDone;
    hide AllBooted;
    Shaped(s);
    At(s, h);
    GatesAuthorised(s, h);
    hide Gates;
    match e
    case BeginsApply(_) =>
      if s.agents[h].inBand { Told(s, HoldReply(h, false)); }
    case RunsSetReady(polled, _, _) =>
      if polled { Told(s, TriggerReply(true)); }
    case _ =>
  }

  lemma GatesAuthorised(s: Sys, h: Host)
    requires Shape(s) && h in s.d.nodes && LogOk(s, h)
    ensures forall g :: g in Gates(s, h) ==> g in s.d.nodes[h].gates
  {
  }

  lemma WordDecoded(p: AgentPhase, r: AgentResult, id: nat)
    requires p != AGate
    ensures var w := Record(id, Some(AgentOem(p, r, [])));
            !IsGate(w) && DecodeCube(w) == Some(Status(PhaseName(PhaseCode(p)), OutcomeName(ResultCode(r)), [], id))
  {
    StatusRoundTrip(p, r, [], id);
    AgentNeverWritesGate(p, r, [], id);
  }

  lemma WritesBacked(a: Agent, e: AgentEvent)
    requires AgentShape(NextAgent(a, e)) && Writes(a, e).Some?
    ensures !IsGate(Writes(a, e).value) && RecordBacked(NextAgent(a, e), Writes(a, e).value)
  {
    hide AgentOem;
    hide IsGate;
    hide DecodeCube;
    match e
    case BeginsRestore(Some(id)) => WordDecoded(ARestoring, AOk, id);
    case EndsRestore(Some(id)) => WordDecoded(ARestoreDone, AOk, id);
    case Boots(_, _, Some(id)) => WordDecoded(ARebooted, AOk, id);
    case BeginsApply(Some(id)) => WordDecoded(AApplying, AOk, id);
    case EndsApply(Some(id)) => WordDecoded(AApplied, AOk, id);
    case NeedsReboot(Some(id)) => WordDecoded(AOther, AOtherResult, id);
    case FailsApply(Some(id)) => WordDecoded(AError, AErr, id);
    case RunsSetReady(_, ok, Some(id)) => WordDecoded(AReady, if ok then AOk else AErr, id);
  }

  lemma SendsBacked(s: Sys, t: Sys, h: Host, e: AgentEvent)
    requires AgentEnabled(s, h, e) && AgentShape(s.agents[h])
    requires Shape(t) && h in t.agents && t.agents[h] == NextAgent(s.agents[h], e) && AgentShape(t.agents[h])
    ensures forall m :: m in Sends(h, s.agents[h], e) ==> MsgOk(t, m)
  {
  }

  ghost predicate AgentStep(s: Sys, t: Sys, h: Host) {
    && Shape(s) && h in s.d.nodes
    && t.d == s.d && t.jobs == s.jobs && t.released == s.released && s.net <= t.net
    && t.agents.Keys == s.agents.Keys && t.logs.Keys == s.logs.Keys
    && AgentGrows(s.agents[h], t.agents[h])
    && (forall k :: k in s.d.nodes && k != h ==> t.logs[k] == s.logs[k] && t.agents[k] == s.agents[k])
  }

  lemma AgentStepNode(s: Sys, t: Sys, h: Host, k: Host)
    requires AgentStep(s, t, h) && k in s.d.nodes && Shape(s) && NodeOk(s, k) && Shape(t)
    requires LogOk(t, h) && AgentOk(t, h)
    ensures NodeOk(t, k)
  {
    hide LogOk;
    hide AgentOk;
    hide FactsOf;
    assert Grows(s, t);
    if k != h {
      SameNode(s, t, k);
    } else {
      SameLedger(s, t, k);
      SameState(s, t, k);
    }
  }

  lemma AgentStepKeeps(s: Sys, t: Sys, h: Host)
    requires Inv(s) && AgentStep(s, t, h) && Shape(t) && LogOk(t, h) && AgentOk(t, h)
    requires forall m :: m in t.net ==> m in s.net || MsgOk(t, m)
    ensures Inv(t)
  {
    hide NodeOk;
    hide MsgOk;
    hide JobOk;
    hide LogOk;
    hide AgentOk;
    forall k | k in t.d.nodes ensures NodeOk(t, k) {
      AgentStepNode(s, t, h, k);
    }
    assert Grows(s, t);
    Assemble(s, t);
  }

  lemma MoveOk(s: Sys, u: Sys, h: Host, e: AgentEvent)
    requires Shape(s) && h in s.d.nodes && LogOk(s, h) && u == MoveAgent(s, h, e)
    ensures Shape(u) && AgentStep(s, u, h) && LogOk(u, h) && u.d == s.d
    ensures u.agents[h] == NextAgent(s.agents[h], e) && u.net == s.net + Sends(h, s.agents[h], e)
  {
    NextAgentGrows(s.agents[h], e);
    hide NextAgent;
    hide Sends;
    GrownLog(s, u, h);
  }

  lemma AgentLogOk(s: Sys, t: Sys, h: Host, e: AgentEvent)
    requires Shape(s) && h in s.d.nodes && LogOk(s, h) && AgentShape(s.agents[h])
    requires AgentEnabled(s, h, e) && t == AgentEffect(s, h, e)
    ensures Shape(t) && AgentStep(s, t, h) && LogOk(t, h) && t.agents[h] == NextAgent(s.agents[h], e)
    ensures t.net == s.net + Sends(h, s.agents[h], e)
  {
    hide LogOk;
    var u := MoveAgent(s, h, e);
    MoveOk(s, u, h, e);
    AgentMovesInShape(s, h, e);
    hide AgentShape;
    hide AgentEnabled;
    hide Sends;
    hide MoveAgent;
    if Writes(s.agents[h], e).Some? {
      WritesBacked(s.agents[h], e);
      hide Writes;
      hide NextAgent;
      AppendOk(u, t, h, Writes(s.agents[h], e).value);
    }
  }

  /** Records stay backed as their agent progresses. */
  lemma GrownLog(s: Sys, u: Sys, h: Host)
    requires Shape(s) && h in s.d.nodes && LogOk(s, h)
    requires Shape(u) && u.d == s.d && u.logs == s.logs && h in u.agents && AgentGrows(s.agents[h], u.agents[h])
    ensures LogOk(u, h)
  {
    forall i | u.logs[h].stale <= i < |u.logs[h].log| ensures RecordBacked(u.agents[h], u.logs[h].log[i]) {
      assert RecordBacked(s.agents[h], s.logs[h].log[i]);
    }
  }

  lemma AgentKeeps(s: Sys, h: Host, e: AgentEvent)
    requires Inv(s) && AgentEnabled(s, h, e)
    ensures Inv(AgentEffect(s, h, e))
  {
    hide Inv;
    hide LogOk;
    hide MsgOk;
    Shaped(s);
    At(s, h);
    AgentActsEarned(s, h, e);
    AgentMovesInShape(s, h, e);
    var t := AgentEffect(s, h, e);
    AgentLogOk(s, t, h, e);
    SendsBacked(s, t, h, e);
    hide AgentEffect;
    hide Sends;
    hide NextAgent;
    hide AgentEnabled;
    EarnedGrows(s, t, h);
    AgentStepKeeps(s, t, h);
  }

  lemma EarnedGrows(s: Sys, t: Sys, h: Host)
    requires Shape(s) && Shape(t) && AgentStep(s, t, h) && AgentEarned(s, h, t.agents[h])
    ensures AgentEarned(t, h, t.agents[h])
  {
    assert Grows(s, t);
    FleetGrows(s, t);
  }

  // ------------------------------------------------------------- whole runs

  lemma StepKeeps(s: Sys, e: Event)
    requires Inv(s)
    ensures Inv(Step(s, e))
  {
    hide Inv;
    if Enabled(s, e) {
      match e
      case Driver(de) => DriverKeeps(s, de);
      case Channel(ce) => ChannelKeeps(s, ce);
      case Acts(h, ae) => AgentKeeps(s, h, ae);
    }
  }

  /** The record a node starts with: nothing acknowledged or reported, and in automatic mode the opening grants. */
  ghost predicate StartsWell(n: Node, l: Launch, h: Host, anchor: nat) {
    && n.state == Pending && n.ack == [] && n.fabric == None && n.anchor == anchor
    && n.gates == if l.manual || !l.hasGate then [] else if h == l.master then [RESTORE, REBOOT,
        APPLY] else [RESTORE, REBOOT]
  }

  lemma AuthorizeAt(d: Deploy, targets: set<Host>, stage: Stage, h: Host)
    requires h in d.nodes
    ensures var t := Authorize(d, targets, stage);
            && t == d.(nodes := t.nodes) && t.nodes.Keys == d.nodes.Keys
            && t.nodes[h] == if h in targets then Update(d.nodes[h], Grant(stage)) else d.nodes[h]
  {
    hide Update;
  }

  lemma OpeningGrants(n: Node)
    requires n.gates == []
    ensures var two := Update(Update(n, Grant(RESTORE)), Grant(REBOOT));
            two == n.(gates := [RESTORE, REBOOT]) && Update(two, Grant(APPLY)) == n.(gates := [RESTORE, REBOOT, APPLY])
  {
  }

  lemma StartNode(anchors: map<Host, nat>, l: Launch, h: Host)
    requires h in anchors && l.master in anchors
    ensures var d := Start(anchors, l.master, l.manual, l.manualGate, l.hasGate, l.skewLimit, l.trigger).0;
            && d.nodes.Keys == anchors.Keys && d.master == l.master && d.manual == l.manual
            && d.step == (if l.manual then STEP_PREFLIGHT else 0)
            && StartsWell(d.nodes[h], l, h, anchors[h])
  {
    if l.hasGate && !l.manual {
      var d := Start(anchors, l.master, l.manual, l.manualGate, false, l.skewLimit, l.trigger).0.(hasGate := true);
      var one := Authorize(d, Everyone(d), RESTORE);
      var two := Authorize(one, Everyone(d), REBOOT);
      var three := Authorize(two, MasterOnly(d), APPLY);
      assert Start(anchors, l.master, l.manual, l.manualGate, l.hasGate, l.skewLimit, l.trigger).0 == three;
      OpeningGrants(d.nodes[h]);
      AuthorizeAt(d, Everyone(d), RESTORE, h);
      AuthorizeAt(one, Everyone(d), REBOOT, h);
      AuthorizeAt(two, MasterOnly(d), APPLY, h);
      hide Authorize;
      hide Update;
      hide Start;
    }
  }

  lemma FreshLedger(n: Node, f: Facts)
    requires n.ack == [] && (f.manual ==> n.gates == [] && f.step == STEP_PREFLIGHT)
    requires n.gates == [] || n.gates == [RESTORE, REBOOT] || (f.isMaster && n.gates == [RESTORE, REBOOT, APPLY])
    ensures LedgerFits(n, f)
  {
    assert forall x :: x in Elems(n.gates) <==> x in n.gates;
  }

  lemma FreshNodeOk(s: Sys, l: Launch, h: Host)
    requires Shape(s) && h in s.d.nodes && s.d.master == l.master && s.d.manual == l.manual
    requires s.d.step == if l.manual then STEP_PREFLIGHT else 0
    requires l.logs.Keys == s.d.nodes.Keys && s.agents[h] == FreshAgent()
        && s.logs[h] == HostLog(l.logs[h], |l.logs[h]|)
    requires StartsWell(s.d.nodes[h], l, h, Anchor(l.logs[h])) && Launchable(l)
    ensures NodeOk(s, h)
  {
    var log := l.logs[h];
    if log != [] {
      assert log[|log| - 1] in log;
    }
    assert LogOk(s, h);
    hide LogOk;
    KnownMaster(s, h);
    hide FactsOf;
    FreshLedger(s.d.nodes[h], FactsOf(s, h));
    hide LedgerFits;
  }

  lemma KnownMaster(s: Sys, h: Host)
    requires Shape(s)
    ensures FactsOf(s, h).isMaster == (h == s.d.master) && FactsOf(s, h).manual == s.d.manual
        && FactsOf(s, h).step == s.d.step
  {
  }

  lemma InitNode(l: Launch, h: Host)
    requires Launchable(l) && h in l.logs
    ensures Shape(Init(l)) && NodeOk(Init(l), h)
  {
    hide NodeOk;
    hide StartsWell;
    var anchors := map k | k in l.logs :: Anchor(l.logs[k]);
    StartNode(anchors, l, h);
    hide Start;
    FreshNodeOk(Init(l), l, h);
  }

  lemma InitKeeps(l: Launch)
    requires Launchable(l)
    ensures Inv(Init(l))
  {
    hide NodeOk;
    hide JobOk;
    var s := Init(l);
    assert s.d.nodes.Keys == l.logs.Keys by {
      StartNode(map k | k in l.logs :: Anchor(l.logs[k]), l, l.master);
      hide Start;
    }
    InitNode(l, l.master);
    forall h | h in s.d.nodes ensures NodeOk(s, h) {
      InitNode(l, h);
    }
    assert Barriers(s) by {
      StartNode(map k | k in l.logs :: Anchor(l.logs[k]), l, l.master);
      hide Start;
    }
    forall j | j in s.jobs ensures JobOk(s, j) {
      FlushOk(s, Everyone(s.d), j);
    }
    hide Barriers;
    hide Start;
  }

  /** The invariant holds at every point of every run. */
  lemma {:induction false} RunKeeps(l: Launch, events: seq<Event>)
    requires Launchable(l)
    ensures Inv(Run(Init(l), events))
    decreases |events|
  {
    hide Inv;
    if events == [] {
      InitKeeps(l);
    } else {
      RunKeeps(l, events[..|events| - 1]);
      StepKeeps(Run(Init(l), events[..|events| - 1]), events[|events| - 1]);
    }
  }
}
