/**
 The OS-phase agent on its own: one apply attempt per boot, a reboot counter and a terminal
 marker that outlive the boot. What a boot meets from outside is an input: the gate, the exit of
 hex_config, a power cut, a disk write that does not land.
 */
module LocalApply {
  import opened Basics
  import opened Decimal
  import opened Sel

  /** The apply refused before it ran, or hex_config's exit status (negative if it was killed) and what it left. */
  datatype Attempt = Refused | Exited(code: int, configures: bool, stamps: bool)

  datatype Cut = NoCut | CutBeforeApply | CutDuringApply

  datatype Boot = Boot(gate: bool, attempt: Attempt, cut: Cut, writeLands: bool)

  /** What survives a boot: the counter file's text, the terminal marker, the configured marker. */
  datatype Disk = Disk(counter: Option<string>, terminal: bool, configured: bool)

  datatype Ending =
    | AlreadyConfigured | AlreadyTerminal | NotAuthorised | PowerLost(applied: bool) | RebootsAgain | FailedForGood
    | Succeeded

  const MAX_REBOOTS: int := 3

  // --------------------------------------------------------------- one apply

  datatype Verdict = Fine | NeedsReboot | Bad

  predicate FailureBit(code: int) { code % 2 == 1 }

  predicate RebootBit(code: int) { (code / 2) % 2 == 1 }

  /**
   A clean exit that asks for a reboot is no failure; another failure is forgiven if the node is
   configured all the same.
   */
  function Judge(a: Attempt): Verdict {
    match a
    case Refused => Bad
    case Exited(code, configures, stamps) =>
      if code == 0 then if stamps then Fine else Bad
      else if code >= 0 && RebootBit(code) && !FailureBit(code) then NeedsReboot
      else if configures then Fine else Bad
  }

  function ReadCounter(file: Option<string>): int {
    match Atoi(TrimSpace(if file.Some? then file.value else ""))
    case Number(n) => n
    case NotANumber => 0
    case OutOfRange(bound) => bound
  }

  // ---------------------------------------------------------------- one boot

  function BootOnce(d: Disk, b: Boot): (Disk, Ending) {
    if d.configured then (d, AlreadyConfigured)
    else if d.terminal then (d, AlreadyTerminal)
    else if b.cut == CutBeforeApply then (d, PowerLost(false))
    else if !b.gate then (d, NotAuthorised)
    else
      var after := d.(configured := b.attempt.Exited? && b.attempt.configures);
      if b.cut == CutDuringApply then (after, PowerLost(true))
      else
        var n := ReadCounter(d.counter);
        match Judge(b.attempt)
        case Fine => (after, Succeeded)
        case NeedsReboot =>
          if n < MAX_REBOOTS then (if b.writeLands then after.(counter := Some(Itoa(n + 1))) else after, RebootsAgain)
          else (if b.writeLands then after.(terminal := true) else after, FailedForGood)
        case Bad => (if b.writeLands then after.(terminal := true) else after, FailedForGood)
  }

  /** The status records a boot tries to put in the event log, in order. */
  function Records(o: Ending): seq<(AgentPhase, AgentResult)> {
    match o
    case AlreadyConfigured => []
    case AlreadyTerminal => []
    case NotAuthorised => [(ARebooted, AOk)]
    case PowerLost(applied) => if applied then [(ARebooted, AOk), (AApplying, AOk)] else []
    case RebootsAgain => [(ARebooted, AOk), (AApplying, AOk), (AOther, AOtherResult)]
    case FailedForGood => [(ARebooted, AOk), (AApplying, AOk), (AError, AErr)]
    case Succeeded => [(ARebooted, AOk), (AApplying, AOk), (AApplied, AOk)]
  }

  class Node {
    var counter: Option<string>
    var terminal: bool
    var configured: bool
    var sel: seq<(AgentPhase, AgentResult)>

    constructor ()
      ensures View() == Disk(None, false, false) && sel == []
    {
      counter, terminal, configured, sel := None, false, false, [];
    }

    ghost function View(): Disk
      reads this
    {
      Disk(counter, terminal, configured)
    }

    method Apply(a: Attempt) returns (v: Verdict)
      modifies this`configured
      ensures v == Judge(a) && configured == (a.Exited? && a.configures)
    {
      configured := false;
      if a.Refused? { return Bad; }
      configured := a.configures;
      if a.code == 0 {
        if a.stamps { return Fine; }
        return Bad;
      }
      if a.code >= 0 && RebootBit(a.code) && !FailureBit(a.code) { return NeedsReboot; }
      if configured { return Fine; }
      return Bad;
    }

    method RunLocalApply(b: Boot) returns (o: Ending)
      modifies this
      ensures (View(), o) == BootOnce(old(View()), b)
      ensures sel == old(sel) + Records(o)
    {
      if configured { return AlreadyConfigured; }
      if terminal { return AlreadyTerminal; }
      if b.cut == CutBeforeApply { return PowerLost(false); }
      sel := sel + [(ARebooted, AOk)];
      if !b.gate { return NotAuthorised; }
      sel := sel + [(AApplying, AOk)];
      var v := Apply(b.attempt);
      if b.cut == CutDuringApply { return PowerLost(true); }
      if v == NeedsReboot {
        var n := ReadCounter(counter);
        if n < MAX_REBOOTS {
          if b.writeLands { counter := Some(Itoa(n + 1)); }
          sel := sel + [(AOther, AOtherResult)];
          return RebootsAgain;
        }
        v := Bad;
      }
      if v == Bad {
        if b.writeLands { terminal := true; }
        sel := sel + [(AError, AErr)];
        return FailedForGood;
      }
      sel := sel + [(AApplied, AOk)];
      return Succeeded;
    }
  }

  /** hex_config's exit has its reboot bit set and its failure bit clear. */
  predicate AsksForReboot(a: Attempt) { a.Exited? && a.code > 0 && a.code % 4 == 2 }

  /**
   The apply came to something: a clean exit whose state markers could be stamped, or any other exit
   but a request to reboot that leaves the node configured.
   */
  predicate TookEffect(a: Attempt) {
    a.Exited? && if a.code == 0 then a.stamps else a.configures && !AsksForReboot(a)
  }

  lemma Bits(code: int)
    ensures code >= 0 && RebootBit(code) && !FailureBit(code) <==> code > 0 && code % 4 == 2
  {
    assert code == 4 * (code / 4) + code % 4;
    assert code / 2 == 2 * (code / 4) + (code % 4) / 2;
  }

  // ---------------------------------------------------------- a life of boots

  /** The disk after the first boots of a life, and each boot's outcome. */
  function Life(d: Disk, boots: seq<Boot>): (r: (Disk, seq<Ending>))
    ensures |r.1| == |boots|
    decreases |boots|
  {
    if boots == [] then (d, [])
    else
      var (before, outcomes) := Life(d, boots[..|boots| - 1]);
      var (after, o) := BootOnce(before, boots[|boots| - 1]);
      (after, outcomes + [o])
  }

  predicate Applies(o: Ending) { o == PowerLost(true) || o == RebootsAgain || o == FailedForGood || o == Succeeded }

  predicate Final(o: Ending) { o == FailedForGood || o == Succeeded }

  function Reboots(os: seq<Ending>): nat
    decreases |os|
  {
    if os == [] then 0 else Reboots(os[..|os| - 1]) + if os[|os| - 1] == RebootsAgain then 1 else 0
  }

  function Applications(os: seq<Ending>): nat
    decreases |os|
  {
    if os == [] then 0 else Applications(os[..|os| - 1]) + if Applies(os[|os| - 1]) then 1 else 0
  }

  /** Boots cut short in the middle of an apply. */
  function Cuts(os: seq<Ending>): nat
    decreases |os|
  {
    if os == [] then 0 else Cuts(os[..|os| - 1]) + if os[|os| - 1] == PowerLost(true) then 1 else 0
  }

  function Lost(boots: seq<Boot>): nat
    decreases |boots|
  {
    if boots == [] then 0 else Lost(boots[..|boots| - 1]) + if boots[|boots| - 1].writeLands then 0 else 1
  }

  lemma CounterReadsBack(n: int)
    requires INT64_MIN <= n < MAX_REBOOTS
    ensures ReadCounter(Some(Itoa(n + 1))) == n + 1
  {
    var s := Itoa(n + 1);
    ItoaPlain(n + 1);
    ItoaRoundTrip(n + 1);
    assert s[0] in s && s[|s| - 1] in s;
  }

  lemma CounterInRange(file: Option<string>)
    ensures INT64_MIN <= ReadCounter(file) <= INT64_MAX
  {
  }

  function Room(d: Disk): nat {
    var n := ReadCounter(d.counter);
    if n < MAX_REBOOTS then MAX_REBOOTS - n else 0
  }

  /** Every reboot uses up room, unless its counter write is lost. */
  lemma BootUsesRoom(d: Disk, b: Boot)
    ensures var (e, o) := BootOnce(d, b);
            Room(e) + (if o == RebootsAgain && b.writeLands then 1 else 0) == Room(d)
                && (o == RebootsAgain ==> Room(d) > 0)
  {
    hide ReadCounter;
    hide Itoa;
    hide Judge;
    CounterInRange(d.counter);
    if ReadCounter(d.counter) < MAX_REBOOTS {
      CounterReadsBack(ReadCounter(d.counter));
    }
  }

  /**
   The reboots of a whole life, whatever hex_config exits with and however the boots are cut
   short: never more than the counter leaves room for (three on a fresh disk), plus those whose
   counter write was lost.
   */
  lemma {:induction false} RebootsBounded(d: Disk, boots: seq<Boot>)
    ensures Reboots(Life(d, boots).1) + Room(Life(d, boots).0) <= Room(d) + Lost(boots)
    decreases |boots|
  {
    if boots != [] {
      var before := boots[..|boots| - 1];
      RebootsBounded(d, before);
      BootUsesRoom(Life(d, before).0, boots[|boots| - 1]);
      var os := Life(d, boots).1;
      assert os[..|os| - 1] == Life(d, before).1;
    }
  }

  lemma {:induction false} ApplicationsCount(os: seq<Ending>)
    requires forall i :: 0 <= i < |os| - 1 ==> !Final(os[i])
    ensures Applications(os) <= Reboots(os) + Cuts(os) + 1
    ensures (forall i :: 0 <= i < |os| ==> !Final(os[i])) ==> Applications(os) == Reboots(os) + Cuts(os)
    decreases |os|
  {
    if os != [] {
      ApplicationsCount(os[..|os| - 1]);
    }
  }

  /**
   Bounded two-phase apply. Until an outcome is final, on a fresh disk, the apply runs at most
   four times and the node reboots for it at most three times, counting apart the applies a
   power cut interrupted and the boots whose write to disk was lost.
   */
  lemma BoundedApply(boots: seq<Boot>)
    requires forall i :: 0 <= i < |boots| - 1 ==> !Final(Life(Disk(None, false, false), boots).1[i])
    ensures var os := Life(Disk(None, false, false), boots).1;
            && Reboots(os) <= 3 + Lost(boots)
            && Applications(os) <= 4 + Lost(boots) + Cuts(os)
  {
    var d := Disk(None, false, false);
    assert Room(d) == 3 by { assert TrimSpace("") == ""; }
    RebootsBounded(d, boots);
    ApplicationsCount(Life(d, boots).1);
  }

  lemma LifeNext(d: Disk, boots: seq<Boot>, b: Boot)
    ensures Life(d, []) == (d, [])
    ensures var (e, os) := Life(d, boots);
            Life(d, boots + [b]) == (BootOnce(e, b).0, os + [BootOnce(e, b).1])
  {
    assert (boots + [b])[..|boots|] == boots;
  }

  function Times<T>(x: T, n: nat): (s: seq<T>)
    ensures |s| == n && forall i :: 0 <= i < n ==> s[i] == x
  {
    seq(n, _ => x)
  }

  predicate Asking(b: Boot) {
    b.gate && b.cut == NoCut && b.writeLands && AsksForReboot(b.attempt) && !b.attempt.configures
  }

  lemma AskingBoot(d: Disk, b: Boot)
    requires Asking(b) && !d.terminal && !d.configured
    ensures var (e, o) := BootOnce(d, b);
            if Room(d) > 0 then o == RebootsAgain && Room(e) == Room(d) - 1 && !e.terminal && !e.configured
            else o == FailedForGood && e.terminal
  {
    Bits(b.attempt.code);
    BootUsesRoom(d, b);
    hide RebootBit;
    hide FailureBit;
  }

  lemma {:induction false} AskingBoots(d: Disk, b: Boot, n: nat)
    requires Asking(b) && !d.terminal && !d.configured && n <= Room(d)
    ensures var (e, os) := Life(d, Times(b, n));
            os == Times(RebootsAgain, n) && Room(e) == Room(d) - n && !e.terminal && !e.configured
  {
    hide Asking;
    hide Life;
    hide Room;
    hide BootOnce;
    if n == 0 {
      LifeNext(d, [], b);
      assert Times(b, 0) == [] && Times(RebootsAgain, 0) == [];
    } else {
      AskingBoots(d, b, n - 1);
      LifeNext(d, Times(b, n - 1), b);
      AskingBoot(Life(d, Times(b, n - 1)).0, b);
      assert Times(b, n - 1) + [b] == Times(b, n);
      assert Times(RebootsAgain, n - 1) + [RebootsAgain] == Times(RebootsAgain, n);
    }
  }

  /**
   The bound is met, from any disk: a module that asks for a reboot every time gets exactly the
   reboots the counter has room for, and at the next boot is given up, once and for all.
   */
  lemma AlwaysAskingIsGivenUp(d: Disk, b: Boot)
    requires Asking(b) && !d.terminal && !d.configured
    ensures var (e, os) := Life(d, Times(b, Room(d) + 1));
        os == Times(RebootsAgain, Room(d)) + [FailedForGood] && e.terminal
  {
    hide Asking;
    hide Life;
    hide Room;
    hide BootOnce;
    var n := Room(d);
    AskingBoots(d, b, n);
    LifeNext(d, Times(b, n), b);
    AskingBoot(Life(d, Times(b, n)).0, b);
    assert Times(b, n) + [b] == Times(b, n + 1);
  }

  /**
   Why a boot ends as it does, each ending exactly: what is on disk, the gate and the power decide
   whether the apply runs at all; then its exit does, and for a request to reboot the counter.
   */
  lemma BootsEndBecause(d: Disk, b: Boot)
    ensures var o := BootOnce(d, b).1;
            var runs := !d.configured && !d.terminal && b.cut != CutBeforeApply && b.gate;
            var exits := runs && b.cut == NoCut;
            && (o == AlreadyConfigured <==> d.configured)
            && (o == AlreadyTerminal <==> d.terminal && !d.configured)
            && (o == PowerLost(false) <==> !d.configured && !d.terminal && b.cut == CutBeforeApply)
            && (o == NotAuthorised <==> !d.configured && !d.terminal && b.cut != CutBeforeApply && !b.gate)
            && (o == PowerLost(true) <==> runs && b.cut == CutDuringApply)
            && (o == RebootsAgain <==> exits && AsksForReboot(b.attempt) && ReadCounter(d.counter) < MAX_REBOOTS)
            && (o == Succeeded <==> exits && TookEffect(b.attempt))
            && (o == FailedForGood <==>
                  && exits && !TookEffect(b.attempt)
                  && (AsksForReboot(b.attempt) ==> ReadCounter(d.counter) >= MAX_REBOOTS))
  {
    if b.attempt.Exited? {
      Bits(b.attempt.code);
    }
    hide RebootBit;
    hide FailureBit;
    hide ReadCounter;
    hide Itoa;
  }

  /** A boot ends in a reboot exactly when the apply ran to an exit with the reboot bit set, the failure bit clear,
      and room left. */
  lemma RebootsOnlyWhenClean(d: Disk, b: Boot)
    ensures BootOnce(d, b).1 == RebootsAgain <==>
            && !d.configured && !d.terminal && b.gate && b.cut == NoCut
            && b.attempt.Exited? && b.attempt.code > 0 && b.attempt.code % 4 == 2
            && ReadCounter(d.counter) < MAX_REBOOTS
  {
    BootsEndBecause(d, b);
  }

  /**
   What a boot leaves on disk: the terminal marker exactly if it gave the node up and the write
   landed, the counter raised by one exactly if it goes on to reboot and the write landed, and the
   configured marker as the apply left it if one ran.
   */
  lemma WhatTheDiskKeeps(d: Disk, b: Boot)
    ensures var (e, o) := BootOnce(d, b);
            && (e.terminal <==> d.terminal || (o == FailedForGood && b.writeLands))
            && (if o == RebootsAgain && b.writeLands then ReadCounter(e.counter) == ReadCounter(d.counter) + 1
                else e.counter == d.counter)
            && (e.configured <==> if Applies(o) then b.attempt.Exited? && b.attempt.configures else d.configured)
  {
    hide ReadCounter;
    hide Itoa;
    hide Judge;
    CounterInRange(d.counter);
    if ReadCounter(d.counter) < MAX_REBOOTS {
      CounterReadsBack(ReadCounter(d.counter));
    }
  }

  /** What a boot reports: an applied record exactly if it succeeded, an error exactly if it gave the node up. */
  lemma RecordsTell(d: Disk, b: Boot)
    ensures var o := BootOnce(d, b).1;
            var said := Records(o);
            && ((AApplied, AOk) in said <==> o == Succeeded)
            && ((AError, AErr) in said <==> o == FailedForGood)
            && ((AOther, AOtherResult) in said <==> o == RebootsAgain)
            && ((AApplying, AOk) in said <==> Applies(o))
            && ((ARebooted, AOk) in said <==> Applies(o) || o == NotAuthorised)
  {
    hide BootOnce;
  }

  /** Once the terminal marker, or the configured one, is on disk no later boot applies again or changes the disk. */
  lemma {:induction false} NeverAppliesAgain(d: Disk, boots: seq<Boot>)
    requires d.terminal || d.configured
    ensures Life(d, boots).0 == d && Applications(Life(d, boots).1) == 0
    decreases |boots|
  {
    if boots != [] {
      NeverAppliesAgain(d, boots[..|boots| - 1]);
      var os := Life(d, boots).1;
      assert os[..|os| - 1] == Life(d, boots[..|boots| - 1]).1;
    }
  }

  /** A real failure that reaches the disk is final for every later boot. */
  lemma FailureIsFinal(d: Disk, b: Boot, later: seq<Boot>)
    requires BootOnce(d, b).1 == FailedForGood && b.writeLands
    ensures Applications(Life(BootOnce(d, b).0, later).1) == 0
  {
    NeverAppliesAgain(BootOnce(d, b).0, later);
  }
}
