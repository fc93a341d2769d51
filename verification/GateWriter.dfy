/**
 The driver's write path to one BMC. Every IPMI call may fail before or after taking effect,
 claim the log is full, or find that somebody else rewrote the log first; the fault script of
 the device decides, and an exhausted script means faithful calls with no other writer.
 */
module GateWriter {
  import opened Basics
  import opened Sel

  datatype Glitch = Clean | FailBefore | FailAfter | ClaimsFull

  /** What happens around one IPMI call: an optional rewrite of the log by others, then the call's own fate. */
  datatype Fault = Fault(interference: Option<Log>, glitch: Glitch)

  datatype Bmc = Bmc(log: Log, capacity: nat, faults: seq<Fault>, scans: nat)

  datatype AddResult = Added | OutOfSpace | OtherError

  // ------------------------------------------------------ single IPMI calls

  /** The glitch of the next call, and the device as that call finds it. */
  function NextCall(b: Bmc): (Glitch, Bmc) {
    if b.faults == [] then (Clean, b)
    else
      var f := b.faults[0];
      (f.glitch, b.(faults := b.faults[1..], log := if f.interference.Some? then f.interference.value else b.log))
  }

  function Call(b: Bmc): (bool, Bmc) {
    var (g, c) := NextCall(b);
    (g == Clean, c)
  }

  function ReadLog(b: Bmc): (Option<Log>, Bmc) {
    var (g, c) := NextCall(b);
    (if g == Clean then Some(c.log) else None, c.(scans := c.scans + 1))
  }

  function MaxId(log: Log): (m: nat)
    ensures forall r :: r in log ==> r.id <= m
  {
    if log == [] then 0
    else
      var m := MaxId(log[..|log| - 1]);
      assert log == log[..|log| - 1] + [log[|log| - 1]];
      if log[|log| - 1].id > m then log[|log| - 1].id else m
  }

  function Append(log: Log, oem: Oem): Log {
    log + [Record(MaxId(log) + 1, Some(oem))]
  }

  function AddEntry(b: Bmc, oem: Oem): (AddResult, Bmc) {
    var (g, c) := NextCall(b);
    var room := |c.log| < c.capacity;
    match g
    case Clean => if room then (Added, c.(log := Append(c.log, oem))) else (OutOfSpace, c)
    case FailBefore => (OtherError, c)
    case FailAfter => (OtherError, if room then c.(log := Append(c.log, oem)) else c)
    case ClaimsFull => (OutOfSpace, c)
  }

  function ClearLog(b: Bmc): (bool, Bmc) {
    var (g, c) := NextCall(b);
    (g == Clean, if g == Clean || g == FailAfter then c.(log := []) else c)
  }

  /** Reserve, then clear if the reservation was granted. */
  function Wipe(b: Bmc): (bool, Bmc) {
    var (reserved, c) := Call(b);
    if reserved then ClearLog(c) else (false, c)
  }

  // --------------------------------------------------- the writer's algorithms

  function Missing(stages: seq<Stage>, present: set<Stage>): (m: seq<Stage>)
    ensures Elems(m) == Elems(stages) - present
    ensures NoDup(stages) ==> NoDup(m)
    ensures |m| <= |stages|
  {
    if stages == [] then []
    else
      var t := Missing(stages[..|stages| - 1], present);
      var last := stages[|stages| - 1];
      ElemsAppend(stages[..|stages| - 1], last);
      ElemsAppend(t, last);
      assert stages == stages[..|stages| - 1] + [last];
      assert NoDup(stages) ==> last !in stages[..|stages| - 1];
      assert forall i :: 0 <= i < |t| ==> t[i] in Elems(t);
      if last in present then t else t + [last]
  }

  lemma NothingMissing(stages: seq<Stage>, present: set<Stage>)
    ensures Missing(stages, present) == [] <==> Elems(stages) <= present
  {
    var m := Missing(stages, present);
    if m == [] {
      assert Elems(m) == {};
      forall s | s in Elems(stages) ensures s in present {
        assert s !in Elems(stages) - present;
      }
    } else {
      assert m[0] in Elems(m);
    }
  }

  /** One attempt's writes: add each missing stage, wiping when the device says it is full. */
  function WritePass(b: Bmc, missing: seq<Stage>): Bmc
    decreases |missing|
  {
    if missing == [] then b
    else
      var (e, c) := AddEntry(b, GateOem(missing[0]));
      WritePass(if e == OutOfSpace then Wipe(c).1 else c, missing[1..])
  }

  const ATTEMPTS: nat := 4

  /** The attempts from number i on; the caller's deadline lets it start `patience` retries. */
  function WriteFrom(b: Bmc, stages: seq<Stage>, patience: nat, i: nat): (bool, Bmc)
    requires i <= ATTEMPTS
    decreases ATTEMPTS - i
  {
    if i > patience then (false, b) else
    var (entries, c) := ReadLog(b);
    if entries.None? then
      if i == ATTEMPTS then (false, c) else WriteFrom(c, stages, patience, i + 1)
    else
      var missing := Missing(stages, GatesIn(entries.value));
      if missing == [] then (true, c)
      else if i == ATTEMPTS then (false, c)
      else WriteFrom(WritePass(c, missing), stages, patience, i + 1)
  }

  function WriteGate(b: Bmc, stages: seq<Stage>, patience: nat): (bool, Bmc) {
    if stages == [] then (true, b)
    else
      var (dialled, c) := Call(b);
      if dialled then WriteFrom(c, stages, patience, 0) else (false, c)
  }

  function ClearSel(b: Bmc): (bool, Bmc) {
    var (dialled, c) := Call(b);
    if dialled then Wipe(c) else (false, c)
  }

  function WriteEndpoint(b: Bmc, ip: seq<Byte>, port: nat): (bool, Bmc)
    requires |ip| == 4 && port < 0x10000
  {
    var oem := Oem(ENDPOINT_MANUFACTURER, EncodeEndpoint(ip, port));
    var (dialled, c) := Call(b);
    if !dialled then (false, c) else
    var (e, d) := AddEntry(c, oem);
    if e != OutOfSpace then (e == Added, d) else
    var (wiped, w) := Wipe(d);
    if !wiped then (false, w) else
    var (e2, z) := AddEntry(w, oem);
    (e2 == Added, z)
  }

  // ---------------------------------------------------------------- soundness

  /** Success is only ever reported on a read that showed every requested stage. */
  lemma {:induction false} WriteFromSound(b: Bmc, stages: seq<Stage>, patience: nat, i: nat)
    requires i <= ATTEMPTS
    ensures var (ok, c) := WriteFrom(b, stages, patience, i); ok ==> Elems(stages) <= GatesIn(c.log)
    decreases ATTEMPTS - i
  {
    hide GatesIn;
    hide WritePass;
    hide Elems;
    if i <= patience {
      var (entries, c) := ReadLog(b);
      if entries.None? {
        if i < ATTEMPTS { WriteFromSound(c, stages, patience, i + 1); }
      } else {
        var missing := Missing(stages, GatesIn(entries.value));
        NothingMissing(stages, GatesIn(entries.value));
        if missing != [] && i < ATTEMPTS {
          WriteFromSound(WritePass(c, missing), stages, patience, i + 1);
        }
      }
    }
  }

  lemma WriteGateSound(b: Bmc, stages: seq<Stage>, patience: nat)
    ensures WriteGate(b, stages, patience).0 ==> Elems(stages) <= GatesIn(WriteGate(b, stages, patience).1.log)
  {
    if stages != [] && Call(b).0 {
      WriteFromSound(Call(b).1, stages, patience, 0);
    }
  }

  // ------------------------------------------------------ nothing unauthorised

  /** The log, and every log others leave behind during the calls, hold only the given stages. */
  ghost predicate Within(b: Bmc, allowed: set<Stage>) {
    && GatesIn(b.log) <= allowed
    && forall f :: f in b.faults && f.interference.Some? ==> GatesIn(f.interference.value) <= allowed
  }

  lemma NextCallWithin(b: Bmc, allowed: set<Stage>)
    requires Within(b, allowed)
    ensures Within(NextCall(b).1, allowed)
  {
    if b.faults != [] {
      assert b.faults[0] in b.faults;
    }
  }

  lemma AddEntryWithin(b: Bmc, oem: Oem, allowed: set<Stage>)
    requires Within(b, allowed)
    requires var r := Record(0, Some(oem)); IsGate(r) ==> StageOf(r) in allowed
    ensures Within(AddEntry(b, oem).1, allowed)
  {
    NextCallWithin(b, allowed);
    var c := NextCall(b).1;
    GatesInAppend(c.log, Record(MaxId(c.log) + 1, Some(oem)));
  }

  lemma WipeWithin(b: Bmc, allowed: set<Stage>)
    requires Within(b, allowed)
    ensures Within(Wipe(b).1, allowed)
  {
    NextCallWithin(b, allowed);
    if Call(b).0 {
      NextCallWithin(Call(b).1, allowed);
    }
  }

  lemma {:induction false} WritePassWithin(b: Bmc, missing: seq<Stage>, allowed: set<Stage>)
    requires Within(b, allowed) && Elems(missing) <= allowed
    ensures Within(WritePass(b, missing), allowed)
    decreases |missing|
  {
    if missing != [] {
      assert missing[0] in Elems(missing);
      AddEntryWithin(b, GateOem(missing[0]), allowed);
      var (e, c) := AddEntry(b, GateOem(missing[0]));
      if e == OutOfSpace { WipeWithin(c, allowed); }
      assert Elems(missing[1..]) <= Elems(missing);
      WritePassWithin(if e == OutOfSpace then Wipe(c).1 else c, missing[1..], allowed);
    }
  }

  lemma {:induction false} WriteFromWithin(b: Bmc, stages: seq<Stage>, patience: nat, i: nat, allowed: set<Stage>)
    requires i <= ATTEMPTS && Within(b, allowed) && Elems(stages) <= allowed
    ensures Within(WriteFrom(b, stages, patience, i).1, allowed)
    decreases ATTEMPTS - i
  {
    NextCallWithin(b, allowed);
    if i <= patience && i < ATTEMPTS {
      var (entries, c) := ReadLog(b);
      if entries.None? {
        WriteFromWithin(c, stages, patience, i + 1, allowed);
      } else {
        var missing := Missing(stages, GatesIn(entries.value));
        if missing != [] {
          WritePassWithin(c, missing, allowed);
          WriteFromWithin(WritePass(c, missing), stages, patience, i + 1, allowed);
        }
      }
    }
  }

  /**
   Whatever faults strike and whatever other authorised writers do meanwhile, a gate write, an
   endpoint stamp and a wipe leave no go record outside the authorised set.
   */
  lemma WritersStayWithin(b: Bmc, stages: seq<Stage>, patience: nat, ip: seq<Byte>, port: nat, allowed: set<Stage>)
    requires Within(b, allowed) && Elems(stages) <= allowed
    requires |ip| == 4 && port < 0x10000
    ensures Within(WriteGate(b, stages, patience).1, allowed)
    ensures Within(WriteEndpoint(b, ip, port).1, allowed)
    ensures Within(ClearSel(b).1, allowed)
  {
    NextCallWithin(b, allowed);
    var (dialled, c) := Call(b);
    if dialled {
      WriteFromWithin(c, stages, patience, 0, allowed);
      WipeWithin(c, allowed);
      var oem := Oem(ENDPOINT_MANUFACTURER, EncodeEndpoint(ip, port));
      AddEntryWithin(c, oem, allowed);
      var d := AddEntry(c, oem).1;
      WipeWithin(d, allowed);
      AddEntryWithin(Wipe(d).1, oem, allowed);
    }
  }

  // -------------------------------------------------------------- convergence

  /** Faithful calls from here on, and no other writer. */
  predicate Quiet(b: Bmc) { b.faults == [] }

  lemma AppendGate(log: Log, s: Stage)
    ensures var log' := Append(log, GateOem(s));
            log <= log' && |log'| == |log| + 1 && GatesIn(log') == GatesIn(log) + {s}
  {
    GatesInAppend(log, Record(MaxId(log) + 1, Some(GateOem(s))));
  }

  /** With room for every missing stage the pass only appends. */
  lemma {:induction false} PassWithRoom(b: Bmc, missing: seq<Stage>)
    requires Quiet(b) && |b.log| + |missing| <= b.capacity
    ensures var c := WritePass(b, missing);
            && Quiet(c) && c.capacity == b.capacity && c.scans == b.scans
            && b.log <= c.log && |c.log| == |b.log| + |missing|
            && GatesIn(c.log) == GatesIn(b.log) + Elems(missing)
    decreases |missing|
  {
    if missing != [] {
      var c := b.(log := Append(b.log, GateOem(missing[0])));
      AppendGate(b.log, missing[0]);
      assert AddEntry(b, GateOem(missing[0])) == (Added, c);
      hide AddEntry;
      hide Append;
      hide GatesIn;
      hide GateOem;
      PassWithRoom(c, missing[1..]);
      ElemsHead(missing);
      hide Elems;
    }
  }

  lemma ElemsHead(s: seq<Stage>)
    requires s != []
    ensures Elems(s) == {s[0]} + Elems(s[1..])
  {
    assert s == [s[0]] + s[1..];
  }

  /**
   Without room the pass wipes once; what is left is exactly one record for each stage of a tail of the
   missing ones.
   */
  lemma {:induction false} PassThroughWipe(b: Bmc, missing: seq<Stage>) returns (tail: seq<Stage>)
    requires Quiet(b) && 0 < |missing| <= b.capacity < |b.log| + |missing| && NoDup(missing)
    ensures var c := WritePass(b, missing);
            && Quiet(c) && c.capacity == b.capacity && c.scans == b.scans
            && |c.log| == |tail| && GatesIn(c.log) == Elems(tail)
    ensures NoDup(tail) && Elems(tail) <= Elems(missing)
    decreases |missing|
  {
    assert Elems(missing[1..]) <= Elems(missing);
    if |b.log| >= b.capacity {
      tail := missing[1..];
      var c := b.(log := []);
      assert AddEntry(b, GateOem(missing[0])) == (OutOfSpace, b) && Wipe(b) == (true, c);
      PassWithRoom(c, tail);
      assert GatesIn([]) == {};
      assert WritePass(b, missing) == WritePass(c, tail);
    } else {
      var c := b.(log := Append(b.log, GateOem(missing[0])));
      assert AddEntry(b, GateOem(missing[0])) == (Added, c);
      tail := PassThroughWipe(c, missing[1..]);
      assert WritePass(b, missing) == WritePass(c, missing[1..]);
    }
  }

  lemma WipedLogLeavesRoom(stages: seq<Stage>, tail: seq<Stage>)
    requires NoDup(stages) && NoDup(tail) && Elems(tail) <= Elems(stages)
    ensures |tail| + |Missing(stages, Elems(tail))| <= |stages|
  {
    var m := Missing(stages, Elems(tail));
    var all := tail + m;
    forall i, j | 0 <= i < j < |all| ensures all[i] != all[j] {
      if i < |tail| <= j {
        assert all[i] in Elems(tail) && all[j] == m[j - |tail|] && m[j - |tail|] in Elems(m);
      }
    }
    forall x | x in Elems(all) ensures x in Elems(stages) {
      assert x in tail || x in m;
      assert x in Elems(tail) || x in Elems(m);
    }
    NoDupLength(all, Elems(stages));
    ElemsSize(stages);
  }

  lemma {:induction false} ElemsSize(s: seq<Stage>)
    ensures |Elems(s)| <= |s|
    decreases |s|
  {
    if s != [] {
      ElemsSize(s[..|s| - 1]);
      ElemsAppend(s[..|s| - 1], s[|s| - 1]);
      assert s == s[..|s| - 1] + [s[|s| - 1]];
    }
  }

  /** One attempt on a quiet device. */
  lemma QuietAttempt(b: Bmc, stages: seq<Stage>, patience: nat, i: nat)
    requires Quiet(b) && i < ATTEMPTS && i <= patience
    ensures var c := b.(scans := b.scans + 1);
            var missing := Missing(stages, GatesIn(b.log));
            WriteFrom(b, stages, patience, i) ==
            if missing == [] then (true, c) else WriteFrom(WritePass(c, missing), stages, patience, i + 1)
  {
  }

  /** A read that finds everything in place ends the call at once and changes nothing. */
  lemma PresentIsNoOp(b: Bmc, stages: seq<Stage>, patience: nat, i: nat)
    requires Quiet(b) && i <= ATTEMPTS && i <= patience && Elems(stages) <= GatesIn(b.log)
    ensures WriteFrom(b, stages, patience, i) == (true, b.(scans := b.scans + 1))
  {
    NothingMissing(stages, GatesIn(b.log));
  }

  /** Quiet, at most n more reads, and every requested stage in place. */
  ghost predicate Held(b: Bmc, stages: seq<Stage>, c: Bmc, n: nat) {
    Quiet(c) && c.capacity == b.capacity && c.scans <= b.scans + n && Elems(stages) <= GatesIn(c.log)
  }

  /** Moreover nothing that was in the log is gone and nothing but the requested stages was added. */
  ghost predicate Kept(b: Bmc, stages: seq<Stage>, c: Bmc, n: nat) {
    Held(b, stages, c, n) && b.log <= c.log && GatesIn(c.log) == GatesIn(b.log) + Elems(stages)
  }

  /** One pass from a log with room suffices, and keeps every record already there. */
  lemma ConvergesWithRoom(b: Bmc, stages: seq<Stage>, patience: nat, i: nat)
    requires Quiet(b) && i < ATTEMPTS && i < patience
    requires |b.log| + |Missing(stages, GatesIn(b.log))| <= b.capacity
    ensures WriteFrom(b, stages, patience, i).0
    ensures Kept(b, stages, WriteFrom(b, stages, patience, i).1, 2)
  {
    var missing := Missing(stages, GatesIn(b.log));
    var c := b.(scans := b.scans + 1);
    QuietAttempt(b, stages, patience, i);
    NothingMissing(stages, GatesIn(b.log));
    hide GatesIn;
    hide WriteFrom;
    hide WritePass;
    hide Missing;
    if missing == [] {
      assert GatesIn(b.log) == GatesIn(b.log) + Elems(stages);
      PresentIsNoOp(b, stages, patience, i);
    } else {
      PassWithRoom(c, missing);
      var d := WritePass(c, missing);
      assert GatesIn(d.log) == GatesIn(b.log) + Elems(stages);
      PresentIsNoOp(d, stages, patience, i + 1);
    }
  }

  /** A log too full for what is missing is wiped in the first pass and rebuilt in the second. */
  lemma ConvergesThroughWipe(b: Bmc, stages: seq<Stage>, patience: nat, i: nat)
    requires Quiet(b) && NoDup(stages) && |stages| <= b.capacity && i + 1 < ATTEMPTS && i + 1 < patience
    requires |b.log| + |Missing(stages, GatesIn(b.log))| > b.capacity && Missing(stages, GatesIn(b.log)) != []
    ensures WriteFrom(b, stages, patience, i).0
    ensures Held(b, stages, WriteFrom(b, stages, patience, i).1, 3)
  {
    var missing := Missing(stages, GatesIn(b.log));
    var c := b.(scans := b.scans + 1);
    var tail := PassThroughWipe(c, missing);
    var d := WritePass(c, missing);
    WipedLogLeavesRoom(stages, tail);
    QuietAttempt(b, stages, patience, i);
    assert |d.log| + |Missing(stages, GatesIn(d.log))| <= d.capacity;
    ConvergesWithRoom(d, stages, patience, i + 1);
  }

  lemma WriteFromConverges(b: Bmc, stages: seq<Stage>, patience: nat, i: nat)
    requires Quiet(b) && NoDup(stages) && |stages| <= b.capacity && i + 1 < ATTEMPTS && i + 1 < patience
    ensures WriteFrom(b, stages, patience, i).0
    ensures Held(b, stages, WriteFrom(b, stages, patience, i).1, 3)
    ensures |b.log| + |stages| <= b.capacity ==> Kept(b, stages, WriteFrom(b, stages, patience, i).1, 3)
  {
    var missing := Missing(stages, GatesIn(b.log));
    if |b.log| + |missing| <= b.capacity {
      ConvergesWithRoom(b, stages, patience, i);
    } else if missing == [] {
      NothingMissing(stages, GatesIn(b.log));
      PresentIsNoOp(b, stages, patience, i);
    } else {
      ConvergesThroughWipe(b, stages, patience, i);
    }
  }

  /**
   Convergence. From any starting log, even one so full that the write must wipe it, a quiet
   device that can hold the stages at all holds every one of them after at most three reads.
   */
  lemma WriteGateConverges(b: Bmc, stages: seq<Stage>, patience: nat)
    requires Quiet(b) && NoDup(stages) && |stages| <= b.capacity && patience >= 2
    ensures WriteGate(b, stages, patience).0
    ensures Held(b, stages, WriteGate(b, stages, patience).1, 3)
    ensures |b.log| + |stages| <= b.capacity ==> Kept(b, stages, WriteGate(b, stages, patience).1, 3)
  {
    if stages != [] {
      WriteFromConverges(b, stages, patience, 0);
      assert WriteGate(b, stages, patience) == WriteFrom(b, stages, patience, 0);
    } else {
      assert Elems(stages) == {};
    }
  }

  // ------------------------------------------------- the wipe and the endpoint

  /** The next n calls go through. */
  predicate GoThrough(b: Bmc, n: nat) { forall i :: 0 <= i < n && i < |b.faults| ==> b.faults[i].glitch == Clean }

  /**
   The deploy-start wipe succeeds exactly if its three calls go through, and then leaves nothing in
   the log, whatever others wrote meanwhile.
   */
  lemma ClearSelEmpties(b: Bmc)
    ensures var (ok, c) := ClearSel(b);
            && (ok <==> GoThrough(b, 3))
            && (ok ==> c.log == [])
            && (Quiet(b) ==> ok && Quiet(c) && c.capacity == b.capacity)
  {
    var (g1, b1) := NextCall(b);
    var (g2, b2) := NextCall(b1);
    if |b.faults| > 1 { assert b1.faults[0] == b.faults[1]; }
    if |b.faults| > 2 { assert b2.faults[0] == b.faults[2]; }
    if GoThrough(b, 3) { assert g1 == Clean && g2 == Clean && NextCall(b2).0 == Clean; }
  }

  /** The log ends with a record of the driver's address, under a handle no other record has. */
  ghost predicate Stamped(log: Log, ip: seq<Byte>, port: nat)
    requires |ip| == 4 && port < 0x10000
  {
    && log != []
    && log[|log| - 1].oem == Some(Oem(ENDPOINT_MANUFACTURER, EncodeEndpoint(ip, port)))
    && forall r :: r in log[..|log| - 1] ==> r.id < log[|log| - 1].id
  }

  /**
   A stamp that reports success is the newest record of the log, and an address other than the unset
   one is read back from it. On a quiet device that can hold a record it succeeds, keeping the
   log if there is room and rewriting a full one.
   */
  lemma EndpointStamps(b: Bmc, ip: seq<Byte>, port: nat)
    requires |ip| == 4 && port < 0x10000
    ensures var (ok, c) := WriteEndpoint(b, ip, port);
            && (ok ==> Stamped(c.log, ip, port))
            && (Quiet(b) && b.capacity > 0 ==>
                  && ok && Quiet(c)
                  && c.log[..|c.log| - 1] == if |b.log| < b.capacity then b.log else [])
    ensures ip != [0, 0, 0, 0] ==> DecodeEndpoint(EncodeEndpoint(ip, port)) == Some((ip, port))
  {
    var oem := Oem(ENDPOINT_MANUFACTURER, EncodeEndpoint(ip, port));
    EndpointRoundTrip(ip, port);
    var (dialled, c) := Call(b);
    AppendStamps(NextCall(c).1.log, ip, port);
    AppendStamps(NextCall(Wipe(AddEntry(c, oem).1).1).1.log, ip, port);
    hide Append;
    hide EncodeEndpoint;
    hide Stamped;
  }

  lemma AppendStamps(log: Log, ip: seq<Byte>, port: nat)
    requires |ip| == 4 && port < 0x10000
    ensures var l := Append(log, Oem(ENDPOINT_MANUFACTURER, EncodeEndpoint(ip, port)));
            Stamped(l, ip, port) && l != [] && l[..|l| - 1] == log
  {
    hide EncodeEndpoint;
    hide MaxId;
  }

  // ------------------------------------------------------------ the device

  /** One BMC as the driver's IPMI session sees it. */
  class Device {
    var log: Log
    const capacity: nat
    var faults: seq<Fault>
    var scans: nat

    constructor (log: Log, capacity: nat, faults: seq<Fault>)
      ensures View() == Bmc(log, capacity, faults, 0)
    {
      this.log, this.capacity, this.faults, this.scans := log, capacity, faults, 0;
    }

    ghost function View(): Bmc
      reads this
    {
      Bmc(log, capacity, faults, scans)
    }

    method Begin() returns (g: Glitch)
      modifies this
      ensures (g, View()) == NextCall(old(View()))
    {
      if faults == [] {
        return Clean;
      }
      g := faults[0].glitch;
      if faults[0].interference.Some? {
        log := faults[0].interference.value;
      }
      faults := faults[1..];
    }

    method GetSelEntries() returns (entries: Option<Log>)
      modifies this
      ensures (entries, View()) == ReadLog(old(View()))
    {
      var g := Begin();
      scans := scans + 1;
      entries := if g == Clean then Some(log) else None;
    }

    method AddSelEntry(oem: Oem) returns (e: AddResult)
      modifies this
      ensures (e, View()) == AddEntry(old(View()), oem)
    {
      var g := Begin();
      var room := |log| < capacity;
      if room && (g == Clean || g == FailAfter) {
        log := Append(log, oem);
      }
      e := if g == ClaimsFull || (g == Clean && !room) then OutOfSpace else if g == Clean then Added else OtherError;
    }

    method ReserveAndClear() returns (ok: bool)
      modifies this
      ensures (ok, View()) == Wipe(old(View()))
    {
      var g := Begin();
      if g != Clean {
        return false;
      }
      g := Begin();
      if g == Clean || g == FailAfter {
        log := [];
      }
      ok := g == Clean;
    }
  }

  /** One attempt's read: what of the stages the log does not show yet, if it could be read. */
  method ReadMissing(bmc: Device, stages: seq<Stage>) returns (missing: Option<seq<Stage>>)
    modifies bmc
    ensures var (entries, c) := ReadLog(old(bmc.View()));
            && bmc.View() == c
            && missing == if entries.None? then None else Some(Missing(stages, GatesIn(entries.value)))
  {
    var entries := bmc.GetSelEntries();
    if entries.None? {
      return None;
    }
    var present := GatesPresent(entries.value);
    return Some(Missing(stages, present));
  }

  /** One attempt's writes. */
  method WriteMissing(bmc: Device, missing: seq<Stage>)
    modifies bmc
    ensures bmc.View() == WritePass(old(bmc.View()), missing)
  {
    for k := 0 to |missing|
      invariant WritePass(bmc.View(), missing[k..]) == WritePass(old(bmc.View()), missing)
    {
      assert missing[k..][0] == missing[k] && missing[k..][1..] == missing[k + 1..];
      var e := bmc.AddSelEntry(GateOem(missing[k]));
      if e == OutOfSpace {
        var _ := bmc.ReserveAndClear();
      }
    }
  }

  /** Makes the log hold every authorised stage: read, add what is missing, read again. */
  method IpmiWriteGate(bmc: Device, stages: seq<Stage>, patience: nat) returns (ok: bool)
    modifies bmc
    ensures (ok, bmc.View()) == WriteGate(old(bmc.View()), stages, patience)
  {
    if |stages| == 0 {
      return true;
    }
    var g := bmc.Begin();
    if g != Clean {
      return false;
    }
    ghost var want := WriteFrom(bmc.View(), stages, patience, 0);
    for i := 0 to ATTEMPTS + 1
      invariant i <= ATTEMPTS ==> want == WriteFrom(bmc.View(), stages, patience, i)
      invariant i > ATTEMPTS ==> want == (false, bmc.View())
    {
      if i > patience {
        return false;
      }
      var missing := ReadMissing(bmc, stages);
      if missing.None? {
        continue;
      }
      if |missing.value| == 0 {
        return true;
      }
      if i == ATTEMPTS {
        return false;
      }
      WriteMissing(bmc, missing.value);
    }
    return false;
  }

  method IpmiClearSel(bmc: Device) returns (ok: bool)
    modifies bmc
    ensures (ok, bmc.View()) == ClearSel(old(bmc.View()))
  {
    var g := bmc.Begin();
    if g != Clean {
      return false;
    }
    ok := bmc.ReserveAndClear();
  }

  method IpmiWriteEndpoint(bmc: Device, ip: seq<Byte>, port: nat) returns (ok: bool)
    requires |ip| == 4 && port < 0x10000
    modifies bmc
    ensures (ok, bmc.View()) == WriteEndpoint(old(bmc.View()), ip, port)
  {
    var g := bmc.Begin();
    if g != Clean {
      return false;
    }
    var oem := Oem(ENDPOINT_MANUFACTURER, EncodeEndpoint(ip, port));
    var e := bmc.AddSelEntry(oem);
    if e != OutOfSpace {
      return e == Added;
    }
    var wiped := bmc.ReserveAndClear();
    if !wiped {
      return false;
    }
    e := bmc.AddSelEntry(oem);
    return e == Added;
  }
}
