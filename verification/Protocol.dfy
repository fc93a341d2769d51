/**
 The zero-touch deploy protocol as a transition system: the driver's critical sections, one
 event log per node, one agent per node, and a network that may lose, repeat, delay and reorder
 every message. One deploy generation, starting from logs without go records.
 */
module Protocol {
  import opened Basics
  import opened Sel
  import opened Deploy

  /** Where a node's agent is. */
  datatype Activity =
    | InPreflight | RestoringDisk | AwaitReboot | BootingOs | AwaitApply | ApplyingSnapshot | AppliedOk | GaveUp

  /**
   One node's agent. The flags from `restoreBegun` on only ever rise and record what the node
   has physically done: begun its restore, finished it, left the installer because its power was
   cut, come up in the installed OS, begun an apply, finished one, run cluster set_ready.
   */
  datatype Agent = Agent(
    activity: Activity, passed: bool, inBand: bool, believesMaster: bool,
    restoreBegun: bool, imaged: bool, cut: bool, booted: bool, applyBegun: bool, applyDone: bool, setReadyRun: bool)

  /** The log, and how many of its leading records were there when the deploy began. */
  datatype HostLog = HostLog(log: Log, stale: nat)

  datatype Msg =
    | FabricMsg(host: Host, fabric: Fabric)
    | RestoreDoneMsg(host: Host)
    | StartedMsg(host: Host)
    | CheckInMsg(host: Host)
    | HoldReply(host: Host, hold: bool)
    | ReportMsg(host: Host, state: State)
    | AppliedMsg(host: Host)
    | TriggerReply(trigger: bool)
    | DoneFollowUp(host: Host)               // what a report of completion still does after releasing the lock
    | ReadResult(host: Host, status: Status) // observed in a log, not yet merged
    | Confirmed(job: Job)                    // a gate write that returned success, not yet acknowledged

  /**
   The messages and gate writes ever issued stay available, so nothing is assumed about delivery.
   `released` are the nodes the operator has released by hand.
   */
  datatype Sys = Sys(
    d: Deploy, logs: map<Host, HostLog>, agents: map<Host, Agent>, net: set<Msg>, jobs: set<Job>, released: set<Host>)

  /** The driver, one critical section each. */
  datatype DriverEvent =
    | Touches(host: Host, op: NodeOp)
    | GivesGreenLight(host: Host)
    | AnswersCheckIn(host: Host)
    | HearsStarted(host: Host)
    | HearsApplied(host: Host)
    | HearsReport(host: Host, state: State)
    | FollowsUp(host: Host)
    | ConsidersSetReady
    | Reads(host: Host, status: Status)
    | Merges(host: Host, status: Status)
    | HearsReady(ok: bool)
    | Reconciles
    | Acknowledges(job: Job)
    | AnswersTrigger
    | OperatorNext
    | OperatorReleases(host: Host)
    | OperatorCancels
    | OperatorSubmits

  datatype ChannelEvent =
    | GateLands(job: Job, stage: Stage, id: nat)
    | WriterConfirms(job: Job)
    | OtherLands(host: Host, record: Record)
    | RecordLost(host: Host, at: nat)
    | LogWiped(host: Host)

  /** `Some(id)` in an agent event: the status record it writes reaches the log under that handle. */
  datatype AgentEvent =
    | Round(fabric: Fabric)
    | BeginsRestore(lands: Option<nat>)
    | EndsRestore(lands: Option<nat>)
    | LeavesInstaller
    | Boots(inBand: bool, believesMaster: bool, lands: Option<nat>)
    | ChecksIn
    | BeginsApply(lands: Option<nat>)
    | EndsApply(lands: Option<nat>)
    | NeedsReboot(lands: Option<nat>)
    | FailsApply(lands: Option<nat>)
    | LosesPower
    | RestartsInstaller  // its power is cut in the installer, and it comes back there
    | BootsFromDisk      // its power is cut in the installer, and it comes back from the disk it has imaged
    | RunsSetReady(polled: bool, ok: bool, lands: Option<nat>)

  datatype Event = Driver(de: DriverEvent) | Channel(ce: ChannelEvent) | Acts(host: Host, ae: AgentEvent)

  function Gates(s: Sys, h: Host): set<Stage>
    requires h in s.logs
  {
    GatesIn(s.logs[h].log)
  }

  /** Requests that need no evidence from an agent: they never take a node past the installer. */
  predicate Harmless(op: NodeOp) {
    match op
    case Advance(to) => to in {BmcPreflight, SetBootPxe, PowerCycle, Netbooting, Imaging, Imaged}
    case Fail => true
    case PreflightProgress => true
    case Rekick => true
    case ApplyFailed => true
    case _ => false
  }

  // ------------------------------------------------------------------- driver

  function Say(s: Sys, m: Msg): Sys { s.(net := s.net + {m}) }

  function Issue(s: Sys, r: (Deploy, set<Job>)): Sys { s.(d := r.0, jobs := s.jobs + r.1) }

  ghost predicate DriverEnabled(s: Sys, e: DriverEvent) {
    match e
    case Touches(h, op) =>
      || Harmless(op)
      || (op.PreflightReport? && FabricMsg(h, op.fabric) in s.net)
      || (op.RestoreDone? && RestoreDoneMsg(h) in s.net)
    case AnswersCheckIn(h) => CheckInMsg(h) in s.net
    case HearsStarted(h) => StartedMsg(h) in s.net
    case HearsApplied(h) => AppliedMsg(h) in s.net
    case HearsReport(h, st) => ReportMsg(h, st) in s.net
    case FollowsUp(h) => DoneFollowUp(h) in s.net
    case Reads(h, st) => h in s.logs && h in s.d.nodes && Observed(s.logs[h].log, s.d.nodes[h].anchor, Some(st))
    case Merges(h, st) => ReadResult(h, st) in s.net
    case Acknowledges(j) => Confirmed(j) in s.net
    case _ => true
  }

  function DriverEffect(s: Sys, e: DriverEvent): Sys {
    match e
    case Touches(h, op) => s.(d := Touch(s.d, h, op))
    case GivesGreenLight(h) => s.(d := GreenLight1(s.d, h).1)
    case AnswersCheckIn(h) => Say(s.(d := Touch(s.d, h, CheckIn(Hold(s.d, h)))), HoldReply(h, Hold(s.d, h)))
    case HearsStarted(h) =>
      s.(d := Touch(s.d, h, if h == s.d.master then ApplyStarted(ApplyProceed(s.d, h)) else WaitForMaster))
    case HearsApplied(h) => Say(s.(d := Touch(s.d, h, MarkApplied)), DoneFollowUp(h))
    case HearsReport(h, st) => s.(d := Touch(s.d, h, Report(st)))
    case FollowsUp(h) => Issue(s, ReleasePeers(s.d, h))
    case ConsidersSetReady => Issue(s, AutoSetReady(s.d))
    case Reads(h, st) => Say(s, ReadResult(h, st))
    case Merges(h, st) =>
      var (d, done) := MergeSel(s.d, h, st);
      if done then Say(s.(d := d), DoneFollowUp(h)) else s.(d := d)
    case HearsReady(ok) => s.(d := MarkReady(s.d, ok))
    case Reconciles => s.(jobs := s.jobs + Reconcile(s.d))
    case Acknowledges(j) => s.(d := Touch(s.d, j.host, Ack(j.stages)))
    case AnswersTrigger => Say(s, TriggerReply(Trigger(s.d)))
    case OperatorNext => Issue(s, AdvanceStep(s.d))
    case OperatorReleases(h) => Issue(s, ReleaseNode(s.d, h)).(released := s.released + {h})
    case OperatorCancels => s.(d := CancelAll(s.d))
    case OperatorSubmits => s.(d := s.d.(setReady := SetReady(true, false)))
  }

  // ------------------------------------------------------------------ channel

  function PutRecord(s: Sys, h: Host, r: Record): Sys
    requires h in s.logs
  {
    s.(logs := s.logs[h := s.logs[h].(log := s.logs[h].log + [r])])
  }

  function DropRecord(l: HostLog, at: nat): HostLog
    requires at < |l.log|
  {
    HostLog(l.log[..at] + l.log[at + 1..], if at < l.stale then l.stale - 1 else l.stale)
  }

  ghost predicate ChannelEnabled(s: Sys, e: ChannelEvent) {
    match e
    case GateLands(j, stage, _) => j in s.jobs && stage in j.stages && j.host in s.logs
    case WriterConfirms(j) => j in s.jobs && j.host in s.logs && Elems(j.stages) <= Gates(s, j.host)
    case OtherLands(h, r) => h in s.logs && !IsGate(r) && !Actionable(r)
    case RecordLost(h, at) => h in s.logs && at < |s.logs[h].log|
    case LogWiped(h) => h in s.logs
  }

  ghost function ChannelEffect(s: Sys, e: ChannelEvent): Sys
    requires ChannelEnabled(s, e)
  {
    match e
    case GateLands(j, stage, id) => PutRecord(s, j.host, Record(id, Some(GateOem(stage))))
    case WriterConfirms(j) => Say(s, Confirmed(j))
    case OtherLands(h, r) => PutRecord(s, h, r)
    case RecordLost(h, at) => s.(logs := s.logs[h := DropRecord(s.logs[h], at)])
    case LogWiped(h) => s.(logs := s.logs[h := HostLog([], 0)])
  }

  // ------------------------------------------------------------------- agents

  ghost predicate AgentEnabled(s: Sys, h: Host, e: AgentEvent) {
    h in s.agents && h in s.logs &&
    var a := s.agents[h];
    match e
    case Round(_) => a.activity == InPreflight
    case BeginsRestore(_) => a.activity == InPreflight && a.passed && RESTORE in Gates(s, h)
    case EndsRestore(_) => a.activity == RestoringDisk
    case LeavesInstaller => a.activity == AwaitReboot && REBOOT in Gates(s, h)
    case Boots(_, _, _) => a.activity == BootingOs
    case ChecksIn => a.activity == AwaitApply && a.inBand
    case BeginsApply(_) =>
      a.activity == AwaitApply && if a.inBand then HoldReply(h, false) in s.net else APPLY in Gates(s, h)
    case EndsApply(_) => a.activity == ApplyingSnapshot
    case NeedsReboot(_) => a.activity == ApplyingSnapshot
    case FailsApply(_) => a.activity == ApplyingSnapshot
    case LosesPower => a.activity == AwaitApply || a.activity == ApplyingSnapshot
    case RestartsInstaller => a.activity in {InPreflight, RestoringDisk, AwaitReboot}
    case BootsFromDisk => a.imaged && (a.activity == InPreflight || a.activity == AwaitReboot)
    case RunsSetReady(polled, _, _) =>
      a.activity == AppliedOk && a.believesMaster && !a.inBand &&
      if polled then TriggerReply(true) in s.net else SET_READY in Gates(s, h)
  }

  function NextAgent(a: Agent, e: AgentEvent): Agent {
    match e
    case Round(f) => a.(passed := f.passed)
    case BeginsRestore(_) => a.(activity := RestoringDisk, restoreBegun := true)
    case EndsRestore(_) => a.(activity := AwaitReboot, imaged := true)
    case LeavesInstaller => a.(activity := BootingOs)
    case Boots(inBand, believes, _) =>
      a.(activity := AwaitApply, inBand := inBand, believesMaster := believes, booted := true)
    case ChecksIn => a
    case BeginsApply(_) => a.(activity := ApplyingSnapshot, applyBegun := true)
    case EndsApply(_) => a.(activity := AppliedOk, applyDone := true)
    case NeedsReboot(_) => a.(activity := BootingOs)
    case FailsApply(_) => a.(activity := GaveUp)
    case LosesPower => a.(activity := BootingOs)
    case RestartsInstaller => a.(activity := InPreflight, passed := false)
    case BootsFromDisk => a.(activity := BootingOs, cut := true)
    case RunsSetReady(_, _, _) => a.(setReadyRun := true)
  }

  /** What the agent sends in band with an event, given which route it is on. */
  function Sends(h: Host, a: Agent, e: AgentEvent): set<Msg> {
    match e
    case Round(f) => {FabricMsg(h, f)}
    case EndsRestore(_) => {RestoreDoneMsg(h)}
    case Boots(inBand, _, _) => if inBand then {} else {StartedMsg(h)}
    case ChecksIn => {CheckInMsg(h), ReportMsg(h, NetPreflight)}
    case BeginsApply(_) => if a.inBand then {ReportMsg(h, Applying)} else {}
    case EndsApply(_) => if a.inBand then {ReportMsg(h, Done)} else {AppliedMsg(h)}
    case FailsApply(_) => if a.inBand then {ReportMsg(h, Failed)} else {}
    case _ => {}
  }

  /** The status record that goes with an event, if it reaches the log. */
  function Writes(a: Agent, e: AgentEvent): Option<Record> {
    match e
    case BeginsRestore(Some(id)) => Some(Record(id, Some(AgentOem(ARestoring, AOk, []))))
    case EndsRestore(Some(id)) => Some(Record(id, Some(AgentOem(ARestoreDone, AOk, []))))
    case Boots(false, _, Some(id)) => Some(Record(id, Some(AgentOem(ARebooted, AOk, []))))
    case BeginsApply(Some(id)) => if a.inBand then None else Some(Record(id, Some(AgentOem(AApplying, AOk, []))))
    case EndsApply(Some(id)) => if a.inBand then None else Some(Record(id, Some(AgentOem(AApplied, AOk, []))))
    case NeedsReboot(Some(id)) => if a.inBand then None else Some(Record(id, Some(AgentOem(AOther, AOtherResult, []))))
    case FailsApply(Some(id)) => if a.inBand then None else Some(Record(id, Some(AgentOem(AError, AErr, []))))
    case RunsSetReady(_, ok, Some(id)) => Some(Record(id, Some(AgentOem(AReady, if ok then AOk else AErr, []))))
    case _ => None
  }

  function MoveAgent(s: Sys, h: Host, e: AgentEvent): Sys
    requires h in s.agents
  {
    s.(agents := s.agents[h := NextAgent(s.agents[h], e)], net := s.net + Sends(h, s.agents[h], e))
  }

  ghost function AgentEffect(s: Sys, h: Host, e: AgentEvent): Sys
    requires AgentEnabled(s, h, e)
  {
    var t := MoveAgent(s, h, e);
    var written := Writes(s.agents[h], e);
    if written.Some? then PutRecord(t, h, written.value) else t
  }

  // --------------------------------------------------------------------- runs

  ghost predicate Enabled(s: Sys, e: Event) {
    match e
    case Driver(de) => DriverEnabled(s, de)
    case Channel(ce) => ChannelEnabled(s, ce)
    case Acts(h, ae) => AgentEnabled(s, h, ae)
  }

  ghost function Effect(s: Sys, e: Event): Sys
    requires Enabled(s, e)
  {
    match e
    case Driver(de) => DriverEffect(s, de)
    case Channel(ce) => ChannelEffect(s, ce)
    case Acts(h, ae) => AgentEffect(s, h, ae)
  }

  /** An event that cannot happen changes nothing, so every list of events is a run. */
  ghost function Step(s: Sys, e: Event): Sys {
    if Enabled(s, e) then Effect(s, e) else s
  }

  ghost function Run(s: Sys, events: seq<Event>): Sys
    decreases |events|
  {
    if events == [] then s else Step(Run(s, events[..|events| - 1]), events[|events| - 1])
  }

  /** What the driver is configured with and finds when the operator starts a deploy. */
  datatype Launch = Launch(
    logs: map<Host, Log>, master: Host, manual: bool, manualGate: bool, hasGate: bool, skewLimit: real, trigger: bool)

  /** The start-time wipe left no go record, and handles are proper: non-zero and distinct. */
  ghost predicate Launchable(l: Launch) {
    && l.master in l.logs
    && forall h :: h in l.logs ==>
         && GatesIn(l.logs[h]) == {} && DistinctIds(l.logs[h])
         && forall r :: r in l.logs[h] ==> r.id != 0
  }

  function FreshAgent(): Agent {
    Agent(InPreflight, false, false, false, false, false, false, false, false, false, false)
  }

  function Init(l: Launch): Sys {
    var (d, jobs) := Start(map h | h in l.logs :: Anchor(l.logs[h]), l.master, l.manual, l.manualGate, l.hasGate,
                           l.skewLimit, l.trigger);
    Sys(d, map h | h in l.logs :: HostLog(l.logs[h], |l.logs[h]|), map h | h in l.logs :: FreshAgent(), {}, jobs, {})
  }
}
