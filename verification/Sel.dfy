/**
 The BMC's system event log (IPMI v2.0, sections 31 and 32.2) as both ends of the
 deploy protocol read and write it: the driver's gate records, the agent's status
 records, and the freshness rule that separates this deploy's records from leftovers.
 */
module Sel {
  import opened Basics

  /** The six OEM-defined bytes of a timestamped OEM record. */
  type OemBytes = s: seq<Byte> | |s| == 6 witness [0, 0, 0, 0, 0, 0]

  datatype Oem = Oem(manufacturer: nat, data: OemBytes)

  /** One log entry: a record handle and, for a timestamped OEM record, its payload. */
  datatype Record = Record(id: nat, oem: Option<Oem>)

  type Log = seq<Record>

  const CUBE_MANUFACTURER: nat := 0x0BC0DE
  const ENDPOINT_MANUFACTURER: nat := 0x0BC0DF

  // ---------------------------------------------------------------- gate records

  type Stage = Byte

  const RESTORE: Stage := 1
  const REBOOT: Stage := 2
  const APPLY: Stage := 3
  const SET_READY: Stage := 4

  function GateOem(stage: Stage): Oem {
    Oem(CUBE_MANUFACTURER, [0x30, 0x05, stage, 0, 0, 0])
  }

  predicate IsGate(r: Record) {
    && r.oem.Some?
    && r.oem.value.manufacturer == CUBE_MANUFACTURER
    && r.oem.value.data[0] == 0x30
    && r.oem.value.data[1] == 0x05
  }

  function StageOf(r: Record): Stage
    requires IsGate(r)
  {
    r.oem.value.data[2]
  }

  /** The stages whose go record a log holds. */
  function GatesIn(log: Log): (stages: set<Stage>) {
    set r | r in log && IsGate(r) :: StageOf(r)
  }

  lemma GatesInAppend(log: Log, r: Record)
    ensures GatesIn(log + [r]) == GatesIn(log) + (if IsGate(r) then {StageOf(r)} else {})
  {
    assert forall x :: x in log + [r] <==> x in log || x == r;
    forall s ensures s in GatesIn(log + [r]) <==> s in GatesIn(log) + (if IsGate(r) then {StageOf(r)} else {}) {
      if s in GatesIn(log) {
        var x :| x in log && IsGate(x) && StageOf(x) == s;
        assert x in log + [r];
      }
      if IsGate(r) && s == StageOf(r) {
        assert r in log + [r];
      }
    }
  }

  lemma GatesInSubset(log: Log, log': Log)
    requires forall r :: r in log' ==> r in log
    ensures GatesIn(log') <= GatesIn(log)
  {
  }

  /** The driver's reader (a flag per stage, set while walking the entries). */
  method GatesPresent(entries: Log) returns (present: set<Stage>)
    ensures present == GatesIn(entries)
  {
    present := {};
    for i := 0 to |entries|
      invariant present == GatesIn(entries[..i])
    {
      var e := entries[i];
      assert entries[..i + 1] == entries[..i] + [e];
      GatesInAppend(entries[..i], e);
      if IsGate(e) {
        present := present + {StageOf(e)};
      }
    }
    assert entries[..|entries|] == entries;
  }

  /** The agent's reader, which stops at the first matching record. It agrees with the driver's. */
  method SelGatePresent(entries: Log, stage: Stage) returns (present: bool)
    ensures present <==> stage in GatesIn(entries)
  {
    for i := 0 to |entries|
      invariant forall j :: 0 <= j < i ==> !(IsGate(entries[j]) && StageOf(entries[j]) == stage)
    {
      var e := entries[i];
      if IsGate(e) && StageOf(e) == stage {
        return true;
      }
    }
    return false;
  }

  // -------------------------------------------------------------- status records

  datatype Phase =
    | NoPhase | Preflight | RestoringPh | RestoreDonePh | RebootedPh
    | ApplyingPh | AppliedPh | DonePh | ReadyPh | ErrorPh

  datatype Outcome = NoOutcome | OkOut | Degraded | Unreachable | TopologyError | ErrorOut

  function PhaseName(b: Byte): Phase {
    match b
    case 0x10 => Preflight
    case 0x15 => RestoringPh
    case 0x16 => RestoreDonePh
    case 0x18 => RebootedPh
    case 0x20 => ApplyingPh
    case 0x21 => AppliedPh
    case 0x2f => DonePh
    case 0x40 => ReadyPh
    case 0xff => ErrorPh
    case _ => NoPhase
  }

  function OutcomeName(b: Byte): Outcome {
    match b
    case 0x01 => OkOut
    case 0x02 => Degraded
    case 0x03 => Unreachable
    case 0x04 => TopologyError
    case 0xff => ErrorOut
    case _ => NoOutcome
  }

  datatype Status = Status(phase: Phase, outcome: Outcome, detail: seq<Byte>, id: nat)

  function TrimZeros(s: seq<Byte>): (t: seq<Byte>)
    ensures |t| <= |s| && t == s[..|t|]
    ensures t == [] || t[|t| - 1] != 0
    ensures forall i :: |t| <= i < |s| ==> s[i] == 0
  {
    if s != [] && s[|s| - 1] == 0 then TrimZeros(s[..|s| - 1]) else s
  }

  function DecodeCube(r: Record): Option<Status> {
    if r.oem.None? || r.oem.value.manufacturer != CUBE_MANUFACTURER then None
    else
      var d := r.oem.value.data;
      Some(Status(PhaseName(d[0]), OutcomeName(d[1]), TrimZeros(d[2..]), r.id))
  }

  /** A node's deploy state, in the order a node passes through them. */
  datatype State =
    | Pending | BmcPreflight | SetBootPxe | PowerCycle | Netbooting
    | Preflighting | PreflightOk | Restoring | Rebooting
    | Imaging | Imaged | CheckedIn | Waiting | NetPreflight
    | Applying | Applied | Done | Failed

  /** The state an out-of-band status confirms, if any. An error outcome wins over any phase. */
  function SelState(s: Status): Option<State> {
    if s.outcome.ErrorOut? then Some(Failed) else
    match s.phase
    case RestoringPh => Some(Restoring)
    case RestoreDonePh => Some(Rebooting)
    case RebootedPh => Some(Waiting)
    case ApplyingPh => Some(Applying)
    case AppliedPh => Some(Done)
    case DonePh => Some(Done)
    case ReadyPh => Some(Done)
    case ErrorPh => Some(Failed)
    case _ => None
  }

  /** Position in the deploy progression; the error state has none. */
  function StateRank(s: State): int {
    match s
    case Pending => 0
    case BmcPreflight => 1
    case SetBootPxe => 2
    case PowerCycle => 3
    case Netbooting => 4
    case Preflighting => 5
    case PreflightOk => 6
    case Restoring => 7
    case Rebooting => 8
    case Imaging => 9
    case Imaged => 10
    case CheckedIn => 11
    case Waiting => 12
    case NetPreflight => 13
    case Applying => 14
    case Applied => 15
    case Done => 16
    case Failed => -1
  }

  // ------------------------------------------------- what the agent puts in the log

  /** The phase and result words the agent's writer is called with; any other word encodes to 0. */
  datatype AgentPhase =
    | APreflight | ARestoring | ARestoreDone | ARebooted | AApplying
    | AApplied | ADone | AReady | AGate | AError | AOther

  datatype AgentResult = AOk | ADegraded | AUnreachable | ATopologyError | AGo | AErr | AOtherResult

  function PhaseCode(p: AgentPhase): Byte {
    match p
    case APreflight => 0x10
    case ARestoring => 0x15
    case ARestoreDone => 0x16
    case ARebooted => 0x18
    case AApplying => 0x20
    case AApplied => 0x21
    case ADone => 0x2f
    case AReady => 0x40
    case AGate => 0x30
    case AError => 0xff
    case AOther => 0
  }

  function ResultCode(r: AgentResult): Byte {
    match r
    case AOk => 0x01
    case ADegraded => 0x02
    case AUnreachable => 0x03
    case ATopologyError => 0x04
    case AGo => 0x05
    case AErr => 0xff
    case AOtherResult => 0
  }

  /** The first four bytes of the detail, zero padded: what fits behind the phase and result. */
  function Fit4(detail: seq<Byte>): (d: seq<Byte>)
    ensures |d| == 4
    ensures forall i :: 0 <= i < 4 ==> d[i] == if i < |detail| then detail[i] else 0
  {
    seq(4, i requires 0 <= i => if i < |detail| then detail[i] else 0)
  }

  function AgentOem(p: AgentPhase, r: AgentResult, detail: seq<Byte>): Oem {
    Oem(CUBE_MANUFACTURER, [PhaseCode(p), ResultCode(r)] + Fit4(detail))
  }

  /** The agent's writer fills the record byte by byte, copying as much detail as fits. */
  method AddSel(p: AgentPhase, r: AgentResult, detail: seq<Byte>) returns (oem: Oem)
    ensures oem == AgentOem(p, r, detail)
  {
    var bytes := new Byte[6](_ => 0);
    bytes[0] := PhaseCode(p);
    bytes[1] := ResultCode(r);
    var i := 0;
    while i < 4 && i < |detail|
      invariant 0 <= i <= 4 && i <= |detail|
      invariant bytes[0] == PhaseCode(p) && bytes[1] == ResultCode(r)
      invariant forall k :: 0 <= k < i ==> bytes[2 + k] == detail[k]
      invariant forall k :: 2 + i <= k < 6 ==> bytes[k] == 0
    {
      bytes[2 + i] := detail[i];
      i := i + 1;
    }
    assert bytes[..] == [PhaseCode(p), ResultCode(r)] + Fit4(detail);
    oem := Oem(CUBE_MANUFACTURER, bytes[..]);
  }

  /** The driver's names for the words an agent reports; what has no name there is read as none. */
  function Heard(p: AgentPhase): Phase {
    match p
    case APreflight => Preflight
    case ARestoring => RestoringPh
    case ARestoreDone => RestoreDonePh
    case ARebooted => RebootedPh
    case AApplying => ApplyingPh
    case AApplied => AppliedPh
    case ADone => DonePh
    case AReady => ReadyPh
    case AError => ErrorPh
    case _ => NoPhase
  }

  function HeardResult(r: AgentResult): Outcome {
    match r
    case AOk => OkOut
    case ADegraded => Degraded
    case AUnreachable => Unreachable
    case ATopologyError => TopologyError
    case AErr => ErrorOut
    case _ => NoOutcome
  }

  /** The driver's table has those names for the agent's codes. */
  lemma CodesAreHeard(p: AgentPhase, r: AgentResult)
    ensures PhaseName(PhaseCode(p)) == Heard(p) && OutcomeName(ResultCode(r)) == HeardResult(r)
  {
  }

  /** What reaches the driver of an agent's report: the phase and outcome it named and its detail cut to four bytes. */
  lemma StatusRoundTrip(p: AgentPhase, r: AgentResult, detail: seq<Byte>, id: nat)
    requires 0 !in detail
    ensures DecodeCube(Record(id, Some(AgentOem(p, r, detail)))) ==
            Some(Status(Heard(p), HeardResult(r), detail[..if |detail| < 4 then |detail| else 4], id))
  {
    CodesAreHeard(p, r);
    hide PhaseCode;
    hide PhaseName;
    hide ResultCode;
    hide OutcomeName;
    hide Heard;
    hide HeardResult;
    var d := AgentOem(p, r, detail).data;
    assert d[2..] == Fit4(detail);
    var t := TrimZeros(Fit4(detail));
    var want := detail[..if |detail| < 4 then |detail| else 4];
    if want != [] {
      var i := |want| - 1;
      assert detail[i] in detail;
      assert Fit4(detail)[i] == detail[i];
      assert i < |t|;
    }
    if t != [] {
      assert Fit4(detail)[|t| - 1] != 0;
    }
    assert t == want;
  }

  /** What the driver makes of a report it decodes: the phase and outcome by name, and the state they confirm. */
  datatype Reading = Reading(phase: Phase, outcome: Outcome, state: Option<State>)

  function ReadingOf(r: Record): Option<Reading> {
    match DecodeCube(r)
    case None => None
    case Some(s) => Some(Reading(s.phase, s.outcome, SelState(s)))
  }

  /** The states progress reports are there to bring about. */
  lemma ProgressIsRead(p: AgentPhase, detail: seq<Byte>, id: nat)
    requires 0 !in detail && p in {ARestoring, ARestoreDone, ARebooted, AApplying, AApplied, ADone}
    ensures ReadingOf(Record(id, Some(AgentOem(p, AOk, detail)))) == Some(
              match p
              case ARestoring => Reading(RestoringPh, OkOut, Some(Restoring))
              case ARestoreDone => Reading(RestoreDonePh, OkOut, Some(Rebooting))
              case ARebooted => Reading(RebootedPh, OkOut, Some(Waiting))
              case AApplying => Reading(ApplyingPh, OkOut, Some(Applying))
              case AApplied => Reading(AppliedPh, OkOut, Some(Done))
              case _ => Reading(DonePh, OkOut, Some(Done)))
  {
    StatusRoundTrip(p, AOk, detail, id);
    hide AgentOem;
    hide DecodeCube;
  }

  /** An error result fails the node whatever phase it comes with, one the driver has no name for included. */
  lemma ErrorIsRead(p: AgentPhase, detail: seq<Byte>, id: nat)
    requires 0 !in detail
    ensures var r := ReadingOf(Record(id, Some(AgentOem(p, AErr, detail))));
            r.Some? && r.value.outcome == ErrorOut && r.value.state == Some(Failed)
  {
    StatusRoundTrip(p, AErr, detail, id);
    hide AgentOem;
    hide DecodeCube;
  }

  /** What has no part in a node's progress: preflight reports, gate records and words that have no code. */
  lemma TheRestIsRead(p: AgentPhase, r: AgentResult, detail: seq<Byte>, id: nat)
    requires 0 !in detail && r != AErr
    ensures var x := ReadingOf(Record(id, Some(AgentOem(p, r, detail))));
            && x.Some?
            && (x.value.state == None <==> p == APreflight || p == AGate || p == AOther)
            && (p == APreflight ==> x.value.phase == Preflight)
            && (p == AGate || p == AOther ==> x.value.phase == NoPhase)
            && (p == AReady <==> x.value.phase == ReadyPh)
            && (p == AError <==> x.value.phase == ErrorPh) && (p == AError ==> x.value.state == Some(Failed))
            && x.value.phase == Heard(p) && x.value.outcome == HeardResult(r)
  {
    StatusRoundTrip(p, r, detail, id);
    hide AgentOem;
    hide DecodeCube;
  }

  /** Only the word pair gate/go makes a record an agent's reader takes for an authorisation. */
  lemma AgentNeverWritesGate(p: AgentPhase, r: AgentResult, detail: seq<Byte>, id: nat)
    ensures IsGate(Record(id, Some(AgentOem(p, r, detail)))) <==> p == AGate && r == AGo
  {
  }

  /** A go record carries no status, whatever its stage byte, so it can never advance or fail a node. */
  lemma GateIsNoStatus(r: Record)
    requires IsGate(r)
    ensures DecodeCube(r).Some? && SelState(DecodeCube(r).value).None?
  {
  }

  // ----------------------------------------------------------------- freshness

  predicate Actionable(r: Record) {
    DecodeCube(r).Some? && SelState(DecodeCube(r).value).Some?
  }

  /** Index of the first record with the given handle, or the length of the log. */
  function FirstWithId(log: Log, id: nat): (k: nat)
    ensures k <= |log|
    ensures forall i :: 0 <= i < k ==> log[i].id != id
    ensures k < |log| ==> log[k].id == id
  {
    if log == [] || log[0].id == id then 0 else 1 + FirstWithId(log[1..], id)
  }

  /** Where the records newer than the anchor begin; nothing is newer than an anchor the log no longer holds. */
  function FreshFrom(log: Log, anchor: nat): (k: nat)
    ensures k <= |log|
  {
    if anchor == 0 then 0
    else
      var k := FirstWithId(log, anchor);
      if k < |log| then k + 1 else k
  }

  ghost predicate IsLatest(log: Log, from: nat, j: int) {
    && from <= j < |log|
    && Actionable(log[j])
    && forall k :: j < k < |log| ==> !Actionable(log[k])
  }

  /** The last actionable status after the anchor. */
  ghost predicate Observed(log: Log, anchor: nat, s: Option<Status>) {
    match s
    case None => forall k :: FreshFrom(log, anchor) <= k < |log| ==> !Actionable(log[k])
    case Some(_) => exists j :: IsLatest(log, FreshFrom(log, anchor), j) && DecodeCube(log[j]) == s
  }

  /** The driver's out-of-band observer: one walk over the log, a flag raised past the anchor. */
  method Observe(entries: Log, anchor: nat) returns (latest: Option<Status>)
    ensures Observed(entries, anchor, latest)
  {
    var past := anchor == 0;
    latest := None;
    ghost var at := 0;
    for i := 0 to |entries|
      invariant past <==> anchor == 0 || FirstWithId(entries, anchor) < i
      invariant latest.None? ==> forall k :: FreshFrom(entries, anchor) <= k < i ==> !Actionable(entries[k])
      invariant latest.Some? ==>
                  && FreshFrom(entries, anchor) <= at < i
                  && Actionable(entries[at]) && DecodeCube(entries[at]) == latest
                  && forall k :: at < k < i ==> !Actionable(entries[k])
    {
      var e := entries[i];
      if !past {
        if e.id == anchor {
          past := true;
        }
      } else {
        var s := DecodeCube(e);
        if s.Some? && SelState(s.value).Some? {
          latest, at := s, i;
        }
      }
    }
    if latest.Some? {
      assert IsLatest(entries, FreshFrom(entries, anchor), at);
    }
  }

  /** Two observers of the same log agree. */
  lemma ObservedUnique(log: Log, anchor: nat, s: Option<Status>, t: Option<Status>)
    requires Observed(log, anchor, s) && Observed(log, anchor, t)
    ensures s == t
  {
    if s.Some? && t.Some? {
      var i :| IsLatest(log, FreshFrom(log, anchor), i) && DecodeCube(log[i]) == s;
      var j :| IsLatest(log, FreshFrom(log, anchor), j) && DecodeCube(log[j]) == t;
      assert i == j;
    }
  }

  /** The handle captured right after the deploy-start wipe: the last entry's, 0 for an empty log. */
  function Anchor(entries: Log): nat {
    if entries == [] then 0 else entries[|entries| - 1].id
  }

  ghost predicate DistinctIds(log: Log) {
    forall i, j :: 0 <= i < j < |log| ==> log[i].id != log[j].id
  }

  /**
   Freshness. Whatever the log held when the anchor was taken, and whatever the BMC clock
   says, what the driver observes later is exactly what it would observe of the new records
   alone, as long as record handles stay distinct and are not 0.
   */
  lemma Freshness(before: Log, after: Log, s: Option<Status>)
    requires DistinctIds(before + after)
    requires forall r :: r in before ==> r.id != 0
    ensures Observed(before + after, Anchor(before), s) <==> Observed(after, 0, s)
  {
    var log := before + after;
    if before != [] {
      var n := |before| - 1;
      assert log[n] == before[n] && before[n] in before;
      assert FirstWithId(log, Anchor(before)) == n;
    }
    assert FreshFrom(log, Anchor(before)) == |before|;
    assert forall k :: 0 <= k < |after| ==> log[|before| + k] == after[k];
    assert forall k :: |before| <= k < |log| ==> log[k] == after[k - |before|];
    forall j | 0 <= j < |after| ensures IsLatest(log, |before|, |before| + j) <==> IsLatest(after, 0, j) {
      if IsLatest(log, |before|, |before| + j) {
        forall k | j < k < |after| ensures !Actionable(after[k]) {
          assert !Actionable(log[|before| + k]);
        }
      }
    }
    if Observed(log, Anchor(before), s) {
      if s.Some? {
        var j :| IsLatest(log, |before|, j) && DecodeCube(log[j]) == s;
        assert IsLatest(after, 0, j - |before|);
      } else {
        forall k | 0 <= k < |after| ensures !Actionable(after[k]) {
          assert !Actionable(log[|before| + k]);
        }
      }
    }
    if Observed(after, 0, s) && s.Some? {
      var j :| IsLatest(after, 0, j) && DecodeCube(after[j]) == s;
      assert IsLatest(log, |before|, |before| + j);
    }
  }

  lemma FreshFromTheSame(log: Log, noise: Log, anchor: nat)
    requires anchor == 0 || FirstWithId(log, anchor) < |log|
    ensures FreshFrom(log + noise, anchor) == FreshFrom(log, anchor) <= |log|
  {
    var all := log + noise;
    if anchor != 0 {
      var k := FirstWithId(log, anchor);
      assert all[k] == log[k];
      assert forall i :: 0 <= i < k ==> all[i] == log[i];
      assert FirstWithId(all, anchor) == k;
    }
  }

  lemma NoiseIsNeverLatest(log: Log, noise: Log, from: nat, j: int)
    requires forall r :: r in noise ==> !Actionable(r)
    ensures IsLatest(log + noise, from, j) <==> IsLatest(log, from, j)
  {
    hide Actionable;
    var all := log + noise;
    assert forall k :: |log| <= k < |all| ==> all[k] in noise;
    assert forall k :: 0 <= k < |log| ==> all[k] == log[k];
    if IsLatest(all, from, j) {
      forall k | j < k < |log| ensures !Actionable(log[k]) {
        assert !Actionable(all[k]);
      }
    }
  }

  /** Trailing gate and endpoint records never hide the node's last status. */
  lemma TrailingNoiseMasksNothing(log: Log, noise: Log, anchor: nat, s: Option<Status>)
    requires forall r :: r in noise ==> !Actionable(r)
    requires anchor == 0 || FirstWithId(log, anchor) < |log|
    ensures Observed(log + noise, anchor, s) <==> Observed(log, anchor, s)
  {
    var all := log + noise;
    var from := FreshFrom(log, anchor);
    FreshFromTheSame(log, noise, anchor);
    hide Actionable;
    hide FreshFrom;
    hide DecodeCube;
    assert forall k :: 0 <= k < |log| ==> all[k] == log[k];
    if s.Some? {
      forall j
        ensures IsLatest(all, from, j) && DecodeCube(all[j]) == s <==> IsLatest(log, from, j) && DecodeCube(log[j]) == s
      {
        NoiseIsNeverLatest(log, noise, from, j);
      }
    } else {
      assert forall k :: |log| <= k < |all| ==> all[k] in noise;
      if Observed(all, anchor, s) {
        forall k | from <= k < |log| ensures !Actionable(log[k]) {
          assert !Actionable(all[k]);
        }
      }
    }
  }

  /**
   The limit of the rule. Once the anchor's own record is gone the observer reports nothing,
   even with a status of this deploy in the log: it does not fall back to the whole log.
   */
  lemma LostAnchorHidesEverything(log: Log, anchor: nat, s: Option<Status>)
    requires anchor != 0 && forall r :: r in log ==> r.id != anchor
    ensures Observed(log, anchor, s) <==> s == None
  {
    assert FirstWithId(log, anchor) == |log| by {
      assert forall k :: 0 <= k < |log| ==> log[k] in log;
    }
    assert forall j :: !IsLatest(log, |log|, j);
  }

  /** Such a log: the node has reported its restore since, but the anchor's record was dropped. */
  lemma LostAnchorHidesAStatus()
    ensures var log := [Record(7, Some(AgentOem(ARestoring, AOk, [])))];
            && Observed(log, 0, DecodeCube(log[0])) && DecodeCube(log[0]).Some? && Observed(log, 3, None)
  {
    var log := [Record(7, Some(AgentOem(ARestoring, AOk, [])))];
    StatusRoundTrip(ARestoring, AOk, [], 7);
    assert IsLatest(log, 0, 0);
    LostAnchorHidesEverything(log, 3, None);
  }

  /** Hiding it differs from falling back to the whole log exactly when the log holds a status at all. */
  lemma LostAnchorMatters(log: Log, anchor: nat)
    requires anchor != 0 && forall r :: r in log ==> r.id != anchor
    ensures (forall s :: Observed(log, anchor, s) <==> Observed(log, 0, s)) <==> forall r :: r in log ==> !Actionable(r)
  {
    forall s ensures Observed(log, anchor, s) <==> s == None {
      LostAnchorHidesEverything(log, anchor, s);
    }
    if forall r :: r in log ==> !Actionable(r) {
      forall s ensures Observed(log, 0, s) <==> s == None {
        assert forall j :: !IsLatest(log, 0, j);
      }
    } else {
      var r :| r in log && Actionable(r);
      var i :| 0 <= i < |log| && log[i] == r;
      assert !Observed(log, 0, None) by { assert Actionable(log[i]); }
      assert Observed(log, anchor, None);
    }
  }

  // ------------------------------------------------------------ driver endpoint

  function EncodeEndpoint(ip: seq<Byte>, port: nat): OemBytes
    requires |ip| == 4 && port < 0x10000
  {
    [ip[0], ip[1], ip[2], ip[3], port / 256, port % 256]
  }

  /** None for an unset address, so a stray record never redirects a node. */
  function DecodeEndpoint(b: OemBytes): Option<(seq<Byte>, nat)> {
    if b[..4] == [0, 0, 0, 0] then None else Some((b[..4], b[4] as int * 256 + b[5] as int))
  }

  lemma EndpointRoundTrip(ip: seq<Byte>, port: nat)
    requires |ip| == 4 && port < 0x10000
    ensures DecodeEndpoint(EncodeEndpoint(ip, port)) == if ip == [0, 0, 0, 0] then None else Some((ip, port))
  {
    assert EncodeEndpoint(ip, port)[..4] == ip;
  }

  lemma EndpointIsNeitherGateNorStatus(id: nat, data: OemBytes)
    ensures var r := Record(id, Some(Oem(ENDPOINT_MANUFACTURER, data))); !IsGate(r) && !Actionable(r)
  {
  }
}
