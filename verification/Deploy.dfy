/**
 The driver's record of one deploy and what each of its critical sections does to it. These
 functions are the specification of the Orchestrator's methods and the driver half of the
 protocol's transition system.
 */
module Deploy {
  import opened Basics
  import opened Sel

  datatype Host = Host(name: string)

  /** An installer-phase report: carrier on every bond member, residual clock skew, verdict. */
  datatype Fabric = Fabric(carrierOk: bool, skew: real, passed: bool)

  /** One node's record. `gates` is the ledger of authorised stages, `ack` the ones last read back from its log. */
  datatype Node = Node(
    state: State, gates: seq<Stage>, ack: seq<Stage>, fabric: Option<Fabric>, rekicks: nat, anchor: nat)

  datatype SetReady = SetReady(trigger: bool, ready: bool)

  datatype Deploy = Deploy(
    nodes: map<Host, Node>, master: Host, manual: bool, step: nat,
    manualGate: bool, hasGate: bool, skewLimit: real, setReady: SetReady, setReadyDone: bool)

  /** A gate write handed to the background: the node's whole ledger as it was when the write was issued. */
  datatype Job = Job(host: Host, stages: seq<Stage>)

  // --------------------------------------------------- manual steps and ranks

  const STEP_PREFLIGHT: nat := 1
  const STEP_RESTORE: nat := 2
  const STEP_REBOOT: nat := 3
  const STEP_APPLY_MASTER: nat := 4
  const STEP_APPLY_REST: nat := 5
  const STEP_SET_READY: nat := 6

  /** Position on the install pipeline; states before the agent takes over, and errors, are 0. */
  function PipelineRank(s: State): nat {
    match s
    case Preflighting => 1
    case PreflightOk => 2
    case Restoring => 3
    case Rebooting => 4
    case CheckedIn => 5
    case Waiting => 5
    case NetPreflight => 5
    case Applying => 6
    case Applied => 6
    case Done => 7
    case _ => 0
  }

  /** States the agent reports; the imaging poll must not overwrite them. */
  predicate AgentDriven(s: State) {
    match s
    case Preflighting => true
    case PreflightOk => true
    case Restoring => true
    case Rebooting => true
    case CheckedIn => true
    case Waiting => true
    case NetPreflight => true
    case Applying => true
    case Applied => true
    case Done => true
    case Failed => true
    case _ => false
  }

  // -------------------------------------------------------- one node's record

  datatype NodeOp =
    | Advance(to: State)
    | Fail
    | PreflightReport(fabric: Fabric)
    | PreflightProgress
    | GreenLight(confirmed: bool)
    | Rekick
    | RestoreDone
    | ApplyStarted(proceed: bool)
    | WaitForMaster
    | CheckIn(hold: bool)
    | Report(to: State)
    | MarkApplied
    | ApplyFailed
    | Merge(to: State)
    | Cancel
    | Ack(stages: seq<Stage>)
    | Grant(stage: Stage)

  predicate CanRekick(n: Node) {
    n.state == Netbooting || n.state == Preflighting || n.state == PreflightOk
  }

  function Update(n: Node, op: NodeOp): Node {
    match op
    case Advance(to) => if AgentDriven(n.state) then n else n.(state := to)
    case Fail => if AgentDriven(n.state) then n else n.(state := Failed)
    case PreflightReport(f) => n.(fabric := Some(f), state := if f.passed then PreflightOk else Preflighting)
    case PreflightProgress => if n.state == Netbooting || n.state == Imaged then n.(state := Preflighting) else n
    case GreenLight(confirmed) =>
      if n.state == PreflightOk || n.state == Preflighting then
        n.(state := if confirmed then Restoring else PreflightOk)
      else n
    case Rekick =>
      if CanRekick(n) then
        n.(rekicks := n.rekicks + 1, state := Preflighting,
        fabric := if n.fabric.Some? then Some(n.fabric.value.(passed := false)) else None)
      else n
    case RestoreDone =>
      if StateRank(PreflightOk) <= StateRank(n.state) < StateRank(Rebooting) then n.(state := Rebooting) else n
    case ApplyStarted(proceed) =>
      if n.state == Rebooting || n.state == Waiting || n.state == CheckedIn then
        n.(state := if proceed then Applying else Waiting)
      else n
    case WaitForMaster => if n.state == Rebooting || n.state == CheckedIn then n.(state := Waiting) else n
    case CheckIn(hold) =>
      if n.state in {Restoring, Rebooting, Netbooting, Imaging, Imaged, Waiting, CheckedIn} then
        n.(state := if hold then Waiting else CheckedIn)
      else n
    case Report(to) => n.(state := to)
    case MarkApplied => n.(state := Done)
    case ApplyFailed => n.(state := Failed)
    case Merge(to) =>
      if n.state == Done then n
      else if to == Failed then n.(state := Failed)
      else if StateRank(to) > StateRank(n.state) then n.(state := to)
      else n
    case Cancel => if n.state == Done || n.state == Failed then n else n.(state := Failed)
    case Ack(stages) => n.(ack := stages)
    case Grant(stage) => if stage in n.gates then n else n.(gates := n.gates + [stage])
  }

  /** The merge never takes a node backwards: it keeps the state, fails the node, or moves it strictly forward. */
  lemma MergeNeverRegresses(n: Node, to: State)
    ensures var s := Update(n, Merge(to)).state;
            && (s == n.state || s == Failed || StateRank(s) > StateRank(n.state))
            && (n.state == Done ==> s == Done)
            && (n.state != Done && to != Failed ==>
                  s == if StateRank(to) > StateRank(n.state) then to else n.state)
  {
  }

  /**
   Merges may come in either order, from the log and from the network: which comes first matters
   exactly when one reports an error and the other progress short of completion.
   */
  lemma MergesCommute(n: Node, a: State, b: State)
    ensures Update(Update(n, Merge(a)), Merge(b)) == Update(Update(n, Merge(b)), Merge(a))
            <==> n.state == Done || a == Done || b == Done || (a == Failed <==> b == Failed)
  {
    DistinctRanks(a, b);
    DistinctRanks(n.state, a);
    DistinctRanks(n.state, b);
    DistinctRanks(a, Done);
    DistinctRanks(b, Done);
    DistinctRanks(a, Failed);
    DistinctRanks(b, Failed);
    FailedIsLast(n.state);
    FailedIsLast(a);
    FailedIsLast(b);
    hide StateRank;
    var x, y := Update(n, Merge(a)), Update(n, Merge(b));
    assert a == Failed && b != Failed && b != Done && n.state != Done ==>
        Update(x, Merge(b)).state == b && Update(y, Merge(a)).state == Failed;
    assert b == Failed && a != Failed && a != Done && n.state != Done ==>
        Update(y, Merge(a)).state == a && Update(x, Merge(b)).state == Failed;
  }

  lemma FailedIsLast(st: State)
    ensures StateRank(Failed) <= StateRank(st) <= StateRank(Done)
  {
  }

  lemma DistinctRanks(a: State, b: State)
    ensures a == b || StateRank(a) != StateRank(b)
  {
  }

  /** The messages in which an agent itself says where its node is. */
  predicate AgentSays(op: NodeOp) { op.PreflightReport? || op.Report? || op.ApplyFailed? }

  /** A finished node stays finished unless its own agent says otherwise, by one of three messages. */
  lemma DoneStaysDone(n: Node, op: NodeOp)
    requires n.state == Done
    ensures Update(n, op).state == Done <==> !AgentSays(op) || op == NodeOp.Report(Done)
  {
  }

  /** What is merged out of a log: the states a status record can confirm. */
  predicate Confirmable(st: State) { st in {Restoring, Rebooting, Waiting, Applying, Done, Failed} }

  /**
   Nothing takes a node back along the pipeline but a failure, a rekick of its preflight, or its
   own agent's word; imaging progress and boot errors never overwrite what the agent reported.
   */
  lemma OnlyForward(n: Node, op: NodeOp)
    requires op.Merge? ==> Confirmable(op.to)
    ensures !AgentSays(op) && !op.Rekick? && Update(n, op).state != Failed ==>
              PipelineRank(Update(n, op).state) >= PipelineRank(n.state)
    ensures (op.Advance? || op.Fail?) && AgentDriven(n.state) ==> Update(n, op) == n
  {
  }

  lemma ConfirmedStates(s: Status)
    ensures SelState(s).Some? ==> Confirmable(SelState(s).value)
  {
  }

  /** Handlers never touch the ledger, the acknowledgements or the anchor; each of the first two has its own section. */
  lemma LedgerHasItsOwnSections(n: Node, op: NodeOp)
    ensures Update(n, op).anchor == n.anchor
    ensures Update(n, op).ack != n.ack ==> op == Ack(Update(n, op).ack)
    ensures Update(n, op).gates != n.gates ==>
              op.Grant? && op.stage !in n.gates && Update(n, op).gates == n.gates + [op.stage]
    ensures (op.Ack? || op.Grant?) ==> Update(n, op).state == n.state && Update(n, op).fabric == n.fabric
  {
  }

  function Touch(d: Deploy, h: Host, op: NodeOp): Deploy {
    if h in d.nodes then d.(nodes := d.nodes[h := Update(d.nodes[h], op)]) else d
  }

  // -------------------------------------------------------- fleet predicates

  predicate AllApplied(d: Deploy) {
    forall h :: h in d.nodes ==> d.nodes[h].state == Done
  }

  predicate AllReached(d: Deploy, want: nat) {
    forall h :: h in d.nodes ==> PipelineRank(d.nodes[h].state) >= want
  }

  predicate FabricOk(f: Option<Fabric>, limit: real) {
    f.Some? && f.value.passed && f.value.carrierOk && f.value.skew <= limit && f.value.skew >= -limit
  }

  predicate FabricReady(d: Deploy) {
    forall h :: h in d.nodes ==> FabricOk(d.nodes[h].fabric, d.skewLimit)
  }

  predicate MasterDone(d: Deploy) {
    d.master in d.nodes && d.nodes[d.master].state == Done
  }

  predicate CanAdvance(d: Deploy) {
    d.manual && d.step < STEP_SET_READY &&
    if d.step == STEP_PREFLIGHT then FabricReady(d)
    else if d.step == STEP_RESTORE then AllReached(d, 4)
    else if d.step == STEP_REBOOT then AllReached(d, 5)
    else if d.step == STEP_APPLY_MASTER then MasterDone(d)
    else d.step == STEP_APPLY_REST && AllReached(d, 7)
  }

  // ------------------------------------------------------------- the ledger

  function Authorize(d: Deploy, targets: set<Host>, stage: Stage): Deploy {
    d.(nodes := map h | h in d.nodes :: if h in targets then Update(d.nodes[h], Grant(stage)) else d.nodes[h])
  }

  /** The background writes a flush starts: one per target with anything authorised, carrying its whole ledger. */
  function Flush(d: Deploy, targets: set<Host>): set<Job> {
    if !d.hasGate then {}
    else set h | h in targets && h in d.nodes && d.nodes[h].gates != [] :: Job(h, d.nodes[h].gates)
  }

  function WriteGos(d: Deploy, targets: set<Host>, stage: Stage): (Deploy, set<Job>) {
    var a := Authorize(d, targets, stage);
    (a, Flush(a, targets))
  }

  function Everyone(d: Deploy): set<Host> { d.nodes.Keys }

  function MasterOnly(d: Deploy): set<Host> { if d.master in d.nodes then {d.master} else {} }

  function Peers(d: Deploy): set<Host> { d.nodes.Keys - {d.master} }

  /** The stage a manual step authorises when it is entered, and for whom. */
  function StepGrant(d: Deploy, step: nat): (set<Host>, Stage)
    requires STEP_RESTORE <= step <= STEP_SET_READY
  {
    if step == STEP_RESTORE then (Everyone(d), RESTORE)
    else if step == STEP_REBOOT then (Everyone(d), REBOOT)
    else if step == STEP_APPLY_MASTER then (MasterOnly(d), APPLY)
    else if step == STEP_APPLY_REST then (Peers(d), APPLY)
    else (MasterOnly(d), SET_READY)
  }

  function AdvanceStep(d: Deploy): (Deploy, set<Job>) {
    if !d.manual || d.step >= STEP_SET_READY || !CanAdvance(d) then (d, {})
    else
      var next := d.(step := d.step + 1);
      var (targets, stage) := StepGrant(next, next.step);
      WriteGos(next, targets, stage)
  }

  function ReleasePeers(d: Deploy, h: Host): (Deploy, set<Job>) {
    if h != d.master || d.manualGate || d.manual then (d, {}) else WriteGos(d, Peers(d), APPLY)
  }

  function AutoSetReady(d: Deploy): (Deploy, set<Job>) {
    if d.manual || !AllApplied(d) then (d, {}) else WriteGos(d, MasterOnly(d), SET_READY)
  }

  /** The operator releases one node to apply, whatever the master is doing. */
  function ReleaseNode(d: Deploy, h: Host): (Deploy, set<Job>) {
    if h !in d.nodes || !d.hasGate then (d, {})
    else
      var a := Authorize(d, {h}, APPLY);
      (a, {Job(h, a.nodes[h].gates)})
  }

  predicate GatesAtRisk(n: Node, setReadyDone: bool) {
    && n.gates != [] && n.state != Failed
    && (n.state == Done ==>
          || (exists g :: g in n.gates && g !in n.ack)
          || (SET_READY in n.gates && !setReadyDone))
  }

  function Reconcile(d: Deploy): set<Job> {
    if !d.hasGate then {}
    else set h | h in d.nodes && GatesAtRisk(d.nodes[h], d.setReady.ready) :: Job(h, d.nodes[h].gates)
  }

  // ------------------------------------------------------ answers to the agents

  function Hold(d: Deploy, h: Host): bool {
    h != d.master && !MasterDone(d)
  }

  function GreenLight1(d: Deploy, h: Host): (bool, Deploy) {
    if d.manual && d.step < STEP_RESTORE then (false, d)
    else if !FabricReady(d) then (false, d)
    else (true, if h in d.nodes then Touch(d, h, GreenLight(!d.hasGate || RESTORE in d.nodes[h].ack)) else d)
  }

  function ApplyProceed(d: Deploy, h: Host): bool {
    !d.manual || (if h == d.master then d.step >= STEP_APPLY_MASTER else d.step >= STEP_APPLY_REST)
  }

  /** The trigger an agent without staged parameters polls for. */
  function Trigger(d: Deploy): bool {
    d.setReady.trigger && AllApplied(d) && !(d.manual && d.step < STEP_SET_READY)
  }

  function MarkReady(d: Deploy, ok: bool): Deploy {
    d.(setReady := d.setReady.(ready := ok), setReadyDone := ok)
  }

  /** Folding in one observed status; the flag says this very merge completed the node. */
  function MergeSel(d: Deploy, h: Host, s: Status): (Deploy, bool) {
    if s.phase == ReadyPh then (if h == d.master then MarkReady(d, s.outcome != ErrorOut) else d, false)
    else if SelState(s).None? then (d, false)
    else
      var d' := Touch(d, h, Merge(SelState(s).value));
      (d', h in d.nodes && d.nodes[h].state != Done && d'.nodes[h].state == Done)
  }

  function CancelAll(d: Deploy): Deploy {
    d.(nodes := map h | h in d.nodes :: Update(d.nodes[h], Cancel))
  }

  // ------------------------------------------------------------------ start

  function NewNode(anchor: nat): Node { Node(Pending, [], [], None, 0, anchor) }

  function Opening(anchors: map<Host, nat>, master: Host, manual: bool, manualGate: bool, hasGate: bool,
                   skewLimit: real, trigger: bool): Deploy {
    Deploy(map h | h in anchors :: NewNode(anchors[h]), master, manual, if manual then STEP_PREFLIGHT else 0,
           manualGate, hasGate, skewLimit, SetReady(trigger, false), false)
  }

  /** Automatic mode authorises restore and reboot for everybody and apply for the master, one write per node. */
  function OpenGates(d: Deploy): (Deploy, set<Job>) {
    if !d.hasGate || d.manual then (d, {})
    else
      var a := Authorize(Authorize(Authorize(d, Everyone(d), RESTORE), Everyone(d), REBOOT), MasterOnly(d), APPLY);
      (a, Flush(a, Everyone(a)))
  }

  function Start(anchors: map<Host, nat>, master: Host, manual: bool, manualGate: bool, hasGate: bool,
                 skewLimit: real, trigger: bool): (Deploy, set<Job>) {
    OpenGates(Opening(anchors, master, manual, manualGate, hasGate, skewLimit, trigger))
  }

  /** What a manual step has granted so far: the ledger is a function of the step and the role. */
  function ManualLedger(step: nat, isMaster: bool): seq<Stage> {
    if step < STEP_RESTORE then []
    else if step == STEP_RESTORE then [RESTORE]
    else if step == STEP_REBOOT then [RESTORE, REBOOT]
    else if step == STEP_APPLY_MASTER then if isMaster then [RESTORE, REBOOT, APPLY] else [RESTORE, REBOOT]
    else if step == STEP_APPLY_REST then [RESTORE, REBOOT, APPLY]
    else if isMaster then [RESTORE, REBOOT, APPLY, SET_READY] else [RESTORE, REBOOT, APPLY]
  }
}
