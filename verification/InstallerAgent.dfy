/**
 The installer-phase agent's loop: check in, stand the topology up, and report rounds until one
 passes and the restore gate opens; a rekick seen in an answer sends it back to check in.
 */
module InstallerAgent {
  import opened Basics
  import opened Sel

  /** The driver's answer to a report: none, or the node's rekick counter. */
  datatype Answer = NoAnswer | Counter(n: nat)

  datatype CheckIn = Inspect | NotAppointed | Appointed(started: Answer, topologyOk: bool)

  /** What one round meets: the node already configured, its link and ping results, the answer to its report,
      the restore gate. */
  datatype Round = Round(configured: bool, links: seq<bool>, pings: seq<bool>, answer: Answer, gate: bool)

  datatype End = Cleared | Configured | InspectBoot | Unappointed | Interrupted

  // --------------------------------------------------------------- the baseline

  /** The counter value held after the answers so far; -1 until the first one arrives. */
  function Baseline(start: int, answers: seq<Round>): int
    decreases |answers|
  {
    if answers == [] then start
    else
      var b := Baseline(start, answers[..|answers| - 1]);
      match answers[|answers| - 1].answer
      case NoAnswer => b
      case Counter(n) => if b == -1 || n > b then n else b
  }

  /** A rise over an adopted baseline: somebody asked for a re-run since. */
  predicate Rises(start: int, rounds: seq<Round>, i: int)
    requires 0 <= i < |rounds|
  {
    rounds[i].answer.Counter? && Baseline(start, rounds[..i]) != -1 && rounds[i].answer.n > Baseline(start, rounds[..i])
  }

  function Reruns(start: int, rounds: seq<Round>): nat
    decreases |rounds|
  {
    if rounds == [] then 0
    else Reruns(start, rounds[..|rounds| - 1]) + if Rises(start, rounds, |rounds| - 1) then 1 else 0
  }

  function StartOf(a: Answer): int { if a.Counter? then a.n else -1 }

  predicate Passes(r: Round, topologyOk: bool) {
    AllUp(r.links) && AllUp(r.pings) && topologyOk
  }

  predicate AllUp(rows: seq<bool>) { forall i :: 0 <= i < |rows| ==> rows[i] }

  method CheckAll(rows: seq<bool>) returns (ok: bool)
    ensures ok <==> AllUp(rows)
  {
    ok := true;
    for i := 0 to |rows|
      invariant ok <==> AllUp(rows[..i])
    {
      if !rows[i] { ok := false; }
    }
  }

  /** Round i, seen from the start, passed on the topology of its own check-in, met an open gate,
      and brought no rekick. */
  predicate ClearsAt(visits: seq<CheckIn>, rounds: seq<Round>, start: int, i: int) {
    && 0 <= i < |rounds| && !rounds[i].configured && rounds[i].gate && !Rises(start, rounds, i)
    && var v := Reruns(start, rounds[..i]);
       v < |visits| && visits[v].Appointed? && Passes(rounds[i], visits[v].topologyOk)
  }

  lemma NextRound(start: int, rounds: seq<Round>, i: nat)
    requires i < |rounds|
    ensures var b := Baseline(start, rounds[..i]);
            && Baseline(start, rounds[..i + 1]) ==
               (if rounds[i].answer.Counter? && (b == -1 || rounds[i].answer.n > b) then rounds[i].answer.n else b)
            && (Rises(start, rounds, i) <==> rounds[i].answer.Counter? && b != -1 && rounds[i].answer.n > b)
            && Reruns(start, rounds[..i + 1]) == Reruns(start, rounds[..i]) + if Rises(start, rounds, i) then 1 else 0
  {
    assert rounds[..i + 1][..i] == rounds[..i];
  }

  lemma NothingYet()
    ensures forall start: int :: Baseline(start, []) == start
    ensures forall start: int :: Reruns(start, []) == 0
  {
  }

  lemma ClearsOn(visits: seq<CheckIn>, rounds: seq<Round>, start: int, i: nat)
    requires i < |rounds| && Reruns(start, rounds[..i]) < |visits| && visits[Reruns(start, rounds[..i])].Appointed?
    ensures ClearsAt(visits, rounds, start, i) <==>
              && !rounds[i].configured && rounds[i].gate && !Rises(start, rounds, i)
              && Passes(rounds[i], visits[Reruns(start, rounds[..i])].topologyOk)
  {
  }

  /**
   The whole preflight. `used` rounds were reported; the agent has checked in once, and once more
   for every rise of the counter; it is cleared exactly at the first round that clears.
   */
  method RunPreflight(visits: seq<CheckIn>, rounds: seq<Round>) returns (end: End, visited: nat, used: nat,
      baseline: int)
    ensures used <= |rounds| && visited <= |visits|
    ensures visits != [] && visits[0].Appointed? ==>
              var start := StartOf(visits[0].started);
              && visited >= 1 && baseline == Baseline(start, rounds[..used])
              && (end == Cleared ==> used > 0 && ClearsAt(visits, rounds, start, used - 1))
              && (forall i :: 0 <= i < used - (if end == Cleared then 1 else 0) ==> !ClearsAt(visits, rounds, start, i))
              && (end == Cleared || end == Configured ==> visited == 1 + Reruns(start, rounds[..used]))
              && (end == Configured ==> used < |rounds| && rounds[used].configured)
    ensures visits != [] && !visits[0].Appointed? ==>
              used == 0 && end == if visits[0].Inspect? then InspectBoot else Unappointed
  {
    hide Reruns;
    hide Baseline;
    hide Rises;
    hide ClearsAt;
    NothingYet();
    visited, used, baseline := 0, 0, -1;
    ghost var start := if visits != [] && visits[0].Appointed? then StartOf(visits[0].started) else -1;
    while visited < |visits|
      invariant used <= |rounds| && visited <= |visits|
      invariant visited == 0 ==> used == 0 && baseline == -1
      invariant visited > 0 ==>
                  && visits[0].Appointed? && baseline == Baseline(start, rounds[..used]) && baseline != -1
                  && visited == Reruns(start, rounds[..used])
                  && (forall i :: 0 <= i < used ==> !ClearsAt(visits, rounds, start, i))
      decreases |visits| - visited
    {
      var visit := visits[visited];
      visited := visited + 1;
      if visit.Inspect? { return InspectBoot, visited, used, baseline; }
      if visit.NotAppointed? { return Unappointed, visited, used, baseline; }
      if visit.started.Counter? && baseline == -1 { baseline := visit.started.n; }
      var again := false;
      while !again
        invariant used <= |rounds| && visited >= 1 && visits[visited - 1] == visit && visits[0].Appointed?
        invariant baseline == Baseline(start, rounds[..used])
        invariant visited == Reruns(start, rounds[..used]) + (if again then 0 else 1)
        invariant again ==> baseline != -1
        invariant forall i :: 0 <= i < used ==> !ClearsAt(visits, rounds, start, i)
        decreases |rounds| - used, if again then 0 else 1
      {
        if used == |rounds| { return Interrupted, visited, used, baseline; }
        var r := rounds[used];
        if r.configured { return Configured, visited, used, baseline; }
        var carrier := CheckAll(r.links);
        var reach := CheckAll(r.pings);
        var passed := carrier && reach && visit.topologyOk;
        NextRound(start, rounds, used);
        ClearsOn(visits, rounds, start, used);
        used := used + 1;
        if r.answer.Counter? {
          if baseline == -1 {
            baseline := r.answer.n;
          } else if r.answer.n > baseline {
            baseline := r.answer.n;
            again := true;
          }
        }
        if !again && passed && r.gate { return Cleared, visited, used, baseline; }
      }
    }
    return Interrupted, visited, used, baseline;
  }

  // --------------------------------------------------- what the counter guarantees

  /** The baseline is the largest counter value the agent was ever told. */
  lemma {:induction false} BaselineIsMaximum(start: int, rounds: seq<Round>)
    requires start >= -1
    ensures var b := Baseline(start, rounds);
            && b >= start
            && (forall i :: 0 <= i < |rounds| && rounds[i].answer.Counter? ==> rounds[i].answer.n <= b)
            && (b == start || exists i :: 0 <= i < |rounds| && rounds[i].answer == Counter(b))
    decreases |rounds|
  {
    if rounds != [] {
      var before := rounds[..|rounds| - 1];
      BaselineIsMaximum(start, before);
      var b := Baseline(start, before);
      if b != start && Baseline(start, rounds) == b {
        var i :| 0 <= i < |before| && before[i].answer == Counter(b);
        assert rounds[i].answer == Counter(b);
      }
    }
  }

  /**
   What it takes to be cleared: in one and the same round every link up, every ping answered and the
   gate open, on a topology that came up after the last check-in, with no rekick in the answer.
   */
  lemma ClearedMeans(visits: seq<CheckIn>, rounds: seq<Round>, start: int, i: nat)
    requires i < |rounds|
    ensures ClearsAt(visits, rounds, start, i) <==>
              && false !in rounds[i].links && false !in rounds[i].pings && rounds[i].gate && !rounds[i].configured
              && (exists v :: 0 <= v < |visits| && v == Reruns(start, rounds[..i]) && visits[v].Appointed?
                              && visits[v].topologyOk)
              && !(rounds[i].answer.Counter? && Baseline(start, rounds[..i]) != -1
                   && rounds[i].answer.n > Baseline(start, rounds[..i]))
  {
    hide Reruns;
    hide Baseline;
    assert forall rows: seq<bool> :: AllUp(rows) <==> false !in rows;
  }

  /** The agent never re-runs more often than the counter was raised since it adopted it. */
  lemma {:induction false} NoSpuriousReruns(start: int, rounds: seq<Round>)
    requires start >= 0
    ensures Reruns(start, rounds) <= Baseline(start, rounds) - start
    decreases |rounds|
  {
    if rounds != [] {
      NoSpuriousReruns(start, rounds[..|rounds| - 1]);
    }
  }

  /**
   A node restores only on a configuration checked in after every rekick it had heard of: at the
   round that clears it, no counter value it was told, that round's included, lies above the
   baseline its last check-in was made under.
   */
  lemma ClearedOnNewestConfig(visits: seq<CheckIn>, rounds: seq<Round>, start: int, i: nat)
    requires start >= 0 && ClearsAt(visits, rounds, start, i)
    ensures forall j :: 0 <= j <= i && rounds[j].answer.Counter? ==> rounds[j].answer.n <= Baseline(start, rounds[..i])
  {
    BaselineIsMaximum(start, rounds[..i]);
    forall j | 0 <= j <= i && rounds[j].answer.Counter? ensures rounds[j].answer.n <= Baseline(start, rounds[..i]) {
      if j < i { assert rounds[..i][j] == rounds[j]; }
    }
  }

  // ------------------------------------------------------------- the agent's waits

  /** Polls the node's own log until the stage's go record is there; false when the scripted polls run out. */
  method WaitSelGate(logs: seq<Log>, stage: Stage) returns (ok: bool, polls: nat)
    ensures polls <= |logs|
    ensures ok ==> polls > 0 && stage in GatesIn(logs[polls - 1])
    ensures forall i :: 0 <= i < polls - (if ok then 1 else 0) ==> stage !in GatesIn(logs[i])
    ensures !ok ==> polls == |logs|
  {
    polls := 0;
    while polls < |logs|
      invariant polls <= |logs|
      invariant forall i :: 0 <= i < polls ==> stage !in GatesIn(logs[i])
    {
      var present := SelGatePresent(logs[polls], stage);
      polls := polls + 1;
      if present { return true, polls; }
    }
    return false, polls;
  }

  /** One answer to an in-band check-in, and whether the node had become configured before it. */
  datatype Poll = Poll(configured: bool, answered: bool, appointed: bool, hold: bool)

  predicate LetsGo(p: Poll) { !p.configured && p.answered && p.appointed && !p.hold }

  method WaitApplyGate(polls: seq<Poll>) returns (cleared: bool, k: nat)
    ensures k <= |polls|
    ensures cleared <==> k < |polls| && LetsGo(polls[k])
    ensures forall i :: 0 <= i < k ==> !LetsGo(polls[i]) && !polls[i].configured
    ensures !cleared && k < |polls| ==> polls[k].configured
  {
    k := 0;
    while k < |polls|
      invariant k <= |polls|
      invariant forall i :: 0 <= i < k ==> !LetsGo(polls[i]) && !polls[i].configured
    {
      var p := polls[k];
      if p.configured { return false, k; }
      if p.answered && p.appointed && !p.hold { return true, k; }
      k := k + 1;
    }
    return false, k;
  }

  datatype Probe = Gateway(ok: bool) | Dns(ok: bool) | Server(ok: bool) | Peer(ok: bool)

  /** The in-band route: checks, the driver's hold, the apply, each reported; peers and name servers do not gate. */
  method RunInBand(probes: seq<Probe>, clockOk: bool, polls: seq<Poll>,
      applyOk: bool) returns (reports: seq<State>, begun: bool)
    ensures begun <==>
              && clockOk && Gateway(false) !in probes && Server(false) !in probes
              && exists k :: 0 <= k < |polls| && polls[k] == Poll(false, true, true, false)
                             && forall i :: 0 <= i < k ==> !polls[i].configured
    ensures reports == [NetPreflight] + if !begun then [] else if applyOk then [Applying, Done] else [Applying, Failed]
  {
    var allOk := clockOk;
    for i := 0 to |probes|
      invariant allOk <==> clockOk && Gateway(false) !in probes[..i] && Server(false) !in probes[..i]
    {
      assert forall p :: p in probes[..i + 1] <==> p in probes[..i] || p == probes[i];
      if !probes[i].Peer? && !probes[i].Dns? && !probes[i].ok { allOk := false; }
    }
    assert probes[..|probes|] == probes;
    reports := [NetPreflight];
    if !allOk { return reports, false; }
    var cleared, k := WaitApplyGate(polls);
    if !cleared { return reports, false; }
    reports := reports + [Applying];
    if applyOk { reports := reports + [Done]; } else { reports := reports + [Failed]; }
    return reports, true;
  }
}
