/**
 From one node's share to the fleet's: the runs in which a whole deploy is finished, in manual mode
 step by step and in automatic mode through the handoff.
 */
module ProtocolFinish {
  import opened Basics
  import opened Sel
  import opened Deploy
  import opened DeployTheorems
  import opened Protocol
  import opened ProtocolSafety
  import opened ProtocolTheorems
  import opened ProtocolProgress

  /** Where every node stands. */
  ghost predicate Fleet(s: Sys, at: map<Host, Place>) {
    Shape(s) && at.Keys == s.d.nodes.Keys && forall h :: h in at ==> Stands(s, h, at[h])
  }

  /** A run by the book leads from s to t; the deploy is configured as it was, and what was issued stays issued. */
  ghost predicate LeadsTo(s: Sys, events: seq<Event>, t: Sys) {
    && Plain(s.d, events) && t == Run(s, events)
    && t.d == s.d.(step := t.d.step, nodes := t.d.nodes) && t.d.nodes.Keys == s.d.nodes.Keys
    && s.jobs <= t.jobs && s.net <= t.net
  }

  lemma LeadsOn(s: Sys, a: seq<Event>, t: Sys, b: seq<Event>, u: Sys)
    requires LeadsTo(s, a, t) && LeadsTo(t, b, u)
    ensures LeadsTo(s, a + b, u)
  {
    RunBoth(s, a, b);
  }

  lemma LeadsNowhere(s: Sys)
    ensures LeadsTo(s, [], s)
  {
  }

  lemma LeadsKeeps(s: Sys, events: seq<Event>, t: Sys)
    requires LeadsTo(s, events, t)
    ensures t.d.nodes.Keys == s.d.nodes.Keys && t.d.master == s.d.master && t.d.hasGate == s.d.hasGate
    ensures t.d.manual == s.d.manual && t.d.manualGate == s.d.manualGate && t.d.skewLimit == s.d.skewLimit
  {
    hide Plain;
    hide Run;
  }

  // ------------------------------------------------------------ everybody's share

  datatype Work = Preflights(fabric: Fabric) | Restores | Reboots | Installs(fabric: Fabric) | Applies | AppliesInBand

  predicate MayDo(d: Deploy, h: Host, w: Work, p: Place) {
    match w
    case Preflights(f) => p.a == FreshAgent() && f.passed
    case Restores => p.a == Passed() && p.state == PreflightOk && RESTORE in p.gates
    case Reboots => p.a == WithImage() && p.state == Rebooting && REBOOT in p.gates && d.manual && d.step == STEP_REBOOT
    case Installs(f) => p.a == FreshAgent() && f.passed && RESTORE in p.gates && REBOOT in p.gates
    case Applies => p.a == Up(h == d.master, false) && APPLY in p.gates
    case AppliesInBand => p.a == Up(false, true) && p.state == Pending && h != d.master && MasterDone(d)
  }

  /** Where a node stands once its share is done. */
  function Behind(d: Deploy, h: Host, w: Work, p: Place): Place {
    match w
    case Preflights(f) => Place(Passed(), PreflightOk, Some(f), p.gates, {}, {})
    case Restores => Place(WithImage(), Rebooting, p.fabric, p.gates, {}, {})
    case Reboots => Place(Up(h == d.master, false), Waiting, p.fabric, p.gates, {}, {})
    case Installs(_) => Place(Up(h == d.master, h != d.master && HoldsPeers(d)), p.state, p.fabric, p.gates, {}, {})
    case Applies => Place(Finished(h == d.master, false), Done, p.fabric, p.gates, {}, {DoneFollowUp(h)})
    case AppliesInBand => Place(Finished(false, true), Done, p.fabric, p.gates, {}, {})
  }

  lemma Forgets(s: Sys, h: Host, events: seq<Event>, q: Place, p: Place)
    requires Reaches(s, h, events, q)
    requires p == q.(shown := p.shown, said := p.said) && p.shown <= q.shown && p.said <= q.said
    ensures Reaches(s, h, events, p)
  {
    hide Run;
    hide Gates;
    hide Only;
  }

  lemma Does(s: Sys, h: Host, w: Work, p: Place) returns (events: seq<Event>)
    requires Stands(s, h, p) && MayDo(s.d, h, w, p)
    ensures Reaches(s, h, events, Behind(s.d, h, w, p))
  {
    var q: Place;
    hide Stands;
    hide Reaches;
    match w {
      case Preflights(f) => events, q := PreflightPart(s, h, p, f);
      case Restores => events, q := RestorePart(s, h, p);
      case Reboots => events, q := BootPart(s, h, p);
      case Installs(f) => events, q := InstallPart(s, h, p, f);
      case Applies => events, q := ApplyPart(s, h, p, h == s.d.master);
      case AppliesInBand => events, q := InBandPart(s, h, p);
    }
    Forgets(s, h, events, q, Behind(s.d, h, w, p));
  }

  /** The others stand where they stood. */
  lemma StaysPut(s: Sys, t: Sys, h: Host, k: Host, p: Place)
    requires Only(s, t, h) && k != h && Stands(s, k, p)
    ensures Stands(t, k, p)
  {
  }

  lemma SameWork(d: Deploy, e: Deploy, h: Host, w: Work, p: Place)
    requires e == d.(nodes := e.nodes) && (w.AppliesInBand? ==> MasterDone(d) == MasterDone(e))
    ensures MayDo(d, h, w, p) == MayDo(e, h, w, p) && Behind(d, h, w, p) == Behind(e, h, w, p)
  {
  }

  lemma OthersStay(s: Sys, t: Sys, at: map<Host, Place>, h: Host, p: Place)
    requires Fleet(s, at) && Only(s, t, h) && Stands(t, h, p)
    ensures Fleet(t, at[h := p])
  {
    hide Stands;
    assert Shape(t) && t.d.nodes.Keys == s.d.nodes.Keys && h in s.d.nodes;
    hide Only;
    hide Shape;
    forall k | k in at && k != h ensures Stands(t, k, at[k]) {
      StaysPut(s, t, h, k, at[k]);
    }
  }

  lemma FleetMoves(s: Sys, at: map<Host, Place>, h: Host, events: seq<Event>, p: Place)
    requires Fleet(s, at) && Reaches(s, h, events, p)
    ensures Fleet(Run(s, events), at[h := p]) && LeadsTo(s, events, Run(s, events))
    ensures Run(s, events).d.step == s.d.step && (h != s.d.master ==> MasterDone(Run(s, events).d) == MasterDone(s.d))
  {
    hide Run;
    hide Stands;
    hide Plain;
    OthersStay(s, Run(s, events), at, h, p);
    hide Fleet;
  }

  /** One node does its share, and the others can still do theirs. */
  lemma OneDoes(s: Sys, at: map<Host, Place>, w: Work, h: Host) returns (events: seq<Event>, t: Sys)
    requires Fleet(s, at) && h in at && MayDo(s.d, h, w, at[h])
    ensures LeadsTo(s, events, t) && Fleet(t, at[h := Behind(s.d, h, w, at[h])]) && t.d.step == s.d.step
    ensures forall k :: k in at ==> MayDo(s.d, k, w, at[k]) ==> MayDo(t.d, k, w, at[k])
    ensures forall k :: k in at ==> Behind(s.d, k, w, at[k]) == Behind(t.d, k, w, at[k])
  {
    events := Does(s, h, w, at[h]);
    FleetMoves(s, at, h, events, Behind(s.d, h, w, at[h]));
    t := Run(s, events);
    hide Run;
    hide Fleet;
    hide Plain;
    assert t.d == s.d.(nodes := t.d.nodes) && (w.AppliesInBand? ==> MasterDone(s.d) == MasterDone(t.d));
    hide LeadsTo;
    hide MasterDone;
    forall k | k in at
      ensures MayDo(s.d, k, w, at[k]) == MayDo(t.d, k, w, at[k])
      ensures Behind(s.d, k, w, at[k]) == Behind(t.d, k, w, at[k])
    {
      SameWork(s.d, t.d, k, w, at[k]);
    }
  }

  /** One after the other, the nodes of a set do their share. */
  lemma Each(s: Sys, at: map<Host, Place>, w: Work, todo: set<Host>)
    returns (events: seq<Event>, t: Sys, to: map<Host, Place>)
    requires Fleet(s, at) && todo <= at.Keys && forall h :: h in todo ==> MayDo(s.d, h, w, at[h])
    ensures LeadsTo(s, events, t) && Fleet(t, to) && t.d.step == s.d.step && to.Keys == at.Keys
    ensures forall h :: h in at ==> to[h] == if h in todo then Behind(s.d, h, w, at[h]) else at[h]
    decreases todo
  {
    hide *;
    if todo == {} {
      LeadsNowhere(s);
      return [], s, at;
    }
    var h :| h in todo;
    var first, u := OneDoes(s, at, w, h);
    var next := at[h := Behind(s.d, h, w, at[h])];
    assert next.Keys == at.Keys;
    var rest: seq<Event>;
    rest, t, to := Each(u, next, w, todo - {h});
    events := first + rest;
    LeadsOn(s, first, u, rest, t);
  }

  // ------------------------------------------------------------ the driver's share

  function Given(at: map<Host, Place>, stage: Stage, to: set<Host>): map<Host, Place> {
    map h | h in at :: if h in to then at[h].(gates := Extended(at[h].gates, stage)) else at[h]
  }

  lemma StandsGiven(s: Sys, t: Sys, r: (Deploy, set<Job>), stage: Stage, to: set<Host>, h: Host, p: Place)
    requires Stands(s, h, p) && Shape(t) && s.d.hasGate && Grants(s.d, r, stage, to) && t == Issue(s, r)
    ensures Stands(t, h, if h in to then p.(gates := Extended(p.gates, stage)) else p)
  {
  }

  lemma FleetGiven(s: Sys, at: map<Host, Place>, t: Sys, r: (Deploy, set<Job>), stage: Stage, to: set<Host>)
    requires Fleet(s, at) && s.d.hasGate && Grants(s.d, r, stage, to) && t == Issue(s, r) && Shape(t)
    ensures Fleet(t, Given(at, stage, to))
  {
    hide Stands;
    hide Shape;
    forall h | h in at ensures Stands(t, h, Given(at, stage, to)[h]) {
      StandsGiven(s, t, r, stage, to, h, at[h]);
    }
  }

  lemma OneEvent(s: Sys, e: Event)
    ensures Run(s, [e]) == Step(s, e)
  {
    RunNext(s, [], e);
    assert [] + [e] == [e];
  }

  /** A section of the driver gives some nodes a stage. */
  lemma DriverGives(s: Sys, at: map<Host, Place>, e: DriverEvent, r: (Deploy, set<Job>), stage: Stage, to: set<Host>)
    returns (t: Sys)
    requires Fleet(s, at) && s.d.hasGate && Grants(s.d, r, stage, to)
    requires DriverEnabled(s, e) && DriverEffect(s, e) == Issue(s, r) && !e.OperatorReleases?
    requires s.d.manual ==> STEP_PREFLIGHT <= r.0.step <= STEP_SET_READY
    ensures LeadsTo(s, [Driver(e)], t) && Fleet(t, Given(at, stage, to)) && t.d.step == r.0.step
  {
    hide Stands;
    t := Issue(s, r);
    assert Step(s, Driver(e)) == t by { hide Fleet; hide Grants; }
    hide DriverEnabled;
    hide DriverEffect;
    hide Step;
    OneEvent(s, Driver(e));
    hide Run;
    FleetGiven(s, at, t, r, stage, to);
    hide Fleet;
  }

  // ------------------------------------------------------------------ manual mode

  /** A report that satisfies every limit but a negative one. */
  function Sound(): Fabric { Fabric(true, 0.0, true) }

  /** Where a node stands when a manual step is entered. */
  function Morning(step: nat, isMaster: bool): Place {
    Place(
      if step == STEP_PREFLIGHT then FreshAgent()
      else if step == STEP_RESTORE then Passed()
      else if step == STEP_REBOOT then WithImage()
      else if step == STEP_APPLY_MASTER || (step == STEP_APPLY_REST && !isMaster) then Up(isMaster, false)
      else Finished(isMaster, false),
      if step == STEP_PREFLIGHT then Pending
      else if step == STEP_RESTORE then PreflightOk
      else if step == STEP_REBOOT then Rebooting
      else if step == STEP_APPLY_MASTER || (step == STEP_APPLY_REST && !isMaster) then Waiting
      else Done,
      if step == STEP_PREFLIGHT then None else Some(Sound()), ManualLedger(step, isMaster), {}, {})
  }

  function Mornings(d: Deploy, step: nat): map<Host, Place> { map h | h in d.nodes :: Morning(step, h == d.master) }

  function Evening(step: nat, isMaster: bool): Place {
    Morning(step + 1, isMaster).(gates := ManualLedger(step, isMaster))
  }

  function Evenings(d: Deploy): map<Host, Place> { map h | h in d.nodes :: Evening(d.step, h == d.master) }

  function WorkOf(step: nat): Work {
    if step == STEP_PREFLIGHT then Preflights(Sound()) else if step == STEP_RESTORE then Restores
    else if step == STEP_REBOOT then Reboots else Applies
  }

  function WorkersOf(d: Deploy, step: nat): set<Host> {
    if step == STEP_APPLY_MASTER then {d.master} else if step == STEP_APPLY_REST then d.nodes.Keys - {d.master}
    else d.nodes.Keys
  }

  lemma CanWork(d: Deploy, h: Host)
    requires d.manual && STEP_PREFLIGHT <= d.step <= STEP_APPLY_REST && h in WorkersOf(d, d.step)
    ensures MayDo(d, h, WorkOf(d.step), Morning(d.step, h == d.master))
  {
  }

  /** What a step's work leaves is what the next step starts with, but for its stage. */
  lemma WorkDone(d: Deploy, h: Host)
    requires d.manual && STEP_PREFLIGHT <= d.step <= STEP_APPLY_REST && h in d.nodes
    ensures var m, p := h == d.master, Morning(d.step, h == d.master);
            var q := if h in WorkersOf(d, d.step) then Behind(d, h, WorkOf(d.step), p) else p;
            q == Morning(d.step + 1, m).(gates := ManualLedger(d.step, m), said := q.said)
  {
  }

  /** And the stage makes up the difference. */
  lemma StageGiven(d: Deploy, h: Host, stage: Stage, to: set<Host>)
    requires STEP_PREFLIGHT <= d.step <= STEP_APPLY_REST && h in d.nodes && GrantOf(d, d.step + 1, stage, to)
    ensures var was := ManualLedger(d.step, h == d.master);
            ManualLedger(d.step + 1, h == d.master) == if h in to then Extended(was, stage) else was
  {
  }

  lemma FleetForgets(s: Sys, at: map<Host, Place>, to: map<Host, Place>)
    requires Fleet(s, at) && to.Keys == at.Keys
    requires forall h :: h in at ==> to[h] == at[h].(shown := to[h].shown, said := to[h].said)
                                     && to[h].shown <= at[h].shown && to[h].said <= at[h].said
    ensures Fleet(s, to)
  {
    hide Gates;
  }

  /** The work of a manual step. */
  lemma DayPart(s: Sys) returns (events: seq<Event>, t: Sys)
    requires s.d.manual && STEP_PREFLIGHT <= s.d.step <= STEP_APPLY_REST && Fleet(s, Mornings(s.d, s.d.step))
    ensures LeadsTo(s, events, t) && t.d.step == s.d.step && Fleet(t, Evenings(s.d))
  {
    var d := s.d;
    var at := Mornings(d, d.step);
    var todo := WorkersOf(d, d.step);
    AllCanWork(s);
    hide *;
    var was: map<Host, Place>;
    events, t, was := Each(s, at, WorkOf(d.step), todo);
    AllWorked(s, was);
    FleetForgets(t, was, Evenings(d));
  }

  lemma AllCanWork(s: Sys)
    requires s.d.manual && STEP_PREFLIGHT <= s.d.step <= STEP_APPLY_REST && Fleet(s, Mornings(s.d, s.d.step))
    ensures var at := Mornings(s.d, s.d.step);
            && WorkersOf(s.d, s.d.step) <= at.Keys
            && forall h :: h in WorkersOf(s.d, s.d.step) ==> MayDo(s.d, h, WorkOf(s.d.step), at[h])
  {
    hide Stands;
    forall h | h in WorkersOf(s.d, s.d.step)
      ensures MayDo(s.d, h, WorkOf(s.d.step), Morning(s.d.step, h == s.d.master))
    {
      CanWork(s.d, h);
    }
    hide MayDo;
    hide Morning;
    hide WorkOf;
  }

  lemma AllWorked(s: Sys, was: map<Host, Place>)
    requires s.d.manual && STEP_PREFLIGHT <= s.d.step <= STEP_APPLY_REST
    requires was.Keys == Mornings(s.d, s.d.step).Keys
    requires forall h :: h in was ==>
               was[h] == if h in WorkersOf(s.d, s.d.step)
                         then Behind(s.d, h, WorkOf(s.d.step), Mornings(s.d, s.d.step)[h])
                         else Mornings(s.d, s.d.step)[h]
    ensures var to := Evenings(s.d);
            && to.Keys == was.Keys
            && forall h :: h in was ==> to[h] == was[h].(shown := to[h].shown, said := to[h].said)
                                        && to[h].shown <= was[h].shown && to[h].said <= was[h].said
  {
    hide Behind;
    hide WorkOf;
    hide WorkersOf;
    hide Morning;
    hide ManualLedger;
    forall h | h in was ensures was[h] == Evenings(s.d)[h].(said := was[h].said) && Evenings(s.d)[h].said == {} {
      WorkDone(s.d, h);
      EveningIsQuiet(s.d.step, h == s.d.master);
    }
  }

  lemma EveningIsQuiet(step: nat, isMaster: bool)
    ensures Morning(step + 1, isMaster).said == {}
  {
  }

  /** When the work is done the step is over. */
  lemma DayIsOver(s: Sys)
    requires s.d.manual && STEP_PREFLIGHT <= s.d.step <= STEP_APPLY_REST && Fleet(s, Evenings(s.d))
    requires s.d.skewLimit >= 0.0
    ensures StepOver(s.d)
  {
    forall h | h in s.d.nodes
      ensures s.d.nodes[h].state == Morning(s.d.step + 1, h == s.d.master).state && s.d.nodes[h].fabric == Some(Sound())
    {
      assert Stands(s, h, Evenings(s.d)[h]);
    }
    hide Stands;
    hide ManualLedger;
  }

  lemma NextGives(s: Sys) returns (stage: Stage, to: set<Host>)
    requires s.d.manual && STEP_PREFLIGHT <= s.d.step <= STEP_APPLY_REST && StepOver(s.d)
    ensures DriverEnabled(s, OperatorNext) && DriverEffect(s, OperatorNext) == Issue(s, AdvanceStep(s.d))
    ensures GrantOf(s.d, s.d.step + 1, stage, to) && Grants(s.d, AdvanceStep(s.d), stage, to)
    ensures STEP_PREFLIGHT <= AdvanceStep(s.d).0.step == s.d.step + 1 <= STEP_SET_READY
  {
    NextOpens(s.d);
    hide StepOver;
    hide AdvanceStep;
    hide Grants;
    hide GrantOf;
    stage, to :| GrantOf(s.d, s.d.step + 1, stage, to) && Grants(s.d, AdvanceStep(s.d), stage, to);
  }

  /** The operator's Next, once the step is over. */
  lemma NightPart(s: Sys) returns (t: Sys)
    requires s.d.manual && STEP_PREFLIGHT <= s.d.step <= STEP_APPLY_REST && Fleet(s, Evenings(s.d))
    requires s.d.skewLimit >= 0.0 && s.d.hasGate
    ensures LeadsTo(s, [Driver(OperatorNext)], t) && t.d.step == s.d.step + 1 && Fleet(t, Mornings(t.d, t.d.step))
  {
    hide *;
    DayIsOver(s);
    var stage, to := NextGives(s);
    t := DriverGives(s, Evenings(s.d), OperatorNext, AdvanceStep(s.d), stage, to);
    LeadsKeeps(s, [Driver(OperatorNext)], t);
    GivenTheStage(s.d, t.d, stage, to);
  }

  lemma GivenTheStage(d: Deploy, e: Deploy, stage: Stage, to: set<Host>)
    requires STEP_PREFLIGHT <= d.step <= STEP_APPLY_REST && GrantOf(d, d.step + 1, stage, to)
    requires e.nodes.Keys == d.nodes.Keys && e.master == d.master && e.step == d.step + 1
    ensures Given(Evenings(d), stage, to) == Mornings(e, e.step)
  {
    hide GrantOf;
    hide Morning;
    forall h | h in d.nodes ensures Given(Evenings(d), stage, to)[h] == Mornings(e, e.step)[h] {
      StageGiven(d, h, stage, to);
      MorningLedger(e.step, h == d.master);
      hide ManualLedger;
      hide Extended;
    }
  }

  lemma MorningLedger(step: nat, isMaster: bool)
    ensures Morning(step, isMaster).gates == ManualLedger(step, isMaster)
  {
  }

  /** A manual step, from its opening to the opening of the next. */
  lemma OneStep(s: Sys) returns (events: seq<Event>, t: Sys)
    requires s.d.manual && STEP_PREFLIGHT <= s.d.step <= STEP_APPLY_REST && Fleet(s, Mornings(s.d, s.d.step))
    requires s.d.skewLimit >= 0.0 && s.d.hasGate
    ensures LeadsTo(s, events, t) && t.d.step == s.d.step + 1 && Fleet(t, Mornings(t.d, t.d.step))
  {
    hide *;
    var u: Sys;
    events, u := DayPart(s);
    LeadsKeeps(s, events, u);
    EveningsStay(s.d, u.d);
    t := NightPart(u);
    LeadsOn(s, events, u, [Driver(OperatorNext)], t);
    events := events + [Driver(OperatorNext)];
  }

  lemma EveningsStay(d: Deploy, e: Deploy)
    requires e.nodes.Keys == d.nodes.Keys && e.master == d.master && e.step == d.step
    ensures Evenings(e) == Evenings(d)
  {
    hide Evening;
  }

  /** All the steps that are left. */
  lemma AllSteps(s: Sys) returns (events: seq<Event>, t: Sys)
    requires s.d.manual && STEP_PREFLIGHT <= s.d.step <= STEP_SET_READY && Fleet(s, Mornings(s.d, s.d.step))
    requires s.d.skewLimit >= 0.0 && s.d.hasGate
    ensures LeadsTo(s, events, t) && t.d.step == STEP_SET_READY && Fleet(t, Mornings(t.d, STEP_SET_READY))
    decreases STEP_SET_READY - s.d.step
  {
    hide Fleet;
    hide LeadsTo;
    hide Mornings;
    if s.d.step == STEP_SET_READY {
      LeadsNowhere(s);
      return [], s;
    }
    var first, u := OneStep(s);
    LeadsKeeps(s, first, u);
    var rest: seq<Event>;
    rest, t := AllSteps(u);
    LeadsOn(s, first, u, rest, t);
    events := first + rest;
  }

  // --------------------------------------------------------------- automatic mode

  /** The stages of an automatic deploy, each with what comes after it. */
  datatype Hour = AtStart | AtApply | AtHandoff | AtPeers | AtReady

  function Standing(hour: Hour, isMaster: bool, holds: bool): Place {
    var early := if isMaster then [RESTORE, REBOOT, APPLY] else [RESTORE, REBOOT];
    var late := if isMaster || !holds then [RESTORE, REBOOT, APPLY] else [RESTORE, REBOOT];
    match hour
    case AtStart => Place(FreshAgent(), Pending, None, early, {}, {})
    case AtApply => Place(Up(isMaster, !isMaster && holds), Pending, None, early, {}, {})
    case AtHandoff =>
      if isMaster then Place(Finished(true, false), Done, None, early, {}, {})
      else Place(Up(false, holds), Pending, None, early, {}, {})
    case AtPeers =>
      if isMaster then Place(Finished(true, false), Done, None, late, {}, {})
      else Place(Up(false, holds), Pending, None, late, {}, {})
    case AtReady => Place(Finished(isMaster, !isMaster && holds), Done, None, late, {}, {})
  }

  function Standings(d: Deploy, hour: Hour): map<Host, Place> {
    map h | h in d.nodes :: Standing(hour, h == d.master, HoldsPeers(d))
  }

  function Duty(d: Deploy, hour: Hour): Work {
    if hour == AtStart then Installs(Sound()) else if hour == AtApply || !HoldsPeers(d) then Applies else AppliesInBand
  }

  function OnDuty(d: Deploy, hour: Hour): set<Host> {
    if hour == AtStart then d.nodes.Keys else if hour == AtApply then {d.master} else d.nodes.Keys - {d.master}
  }

  function Later(hour: Hour): Hour {
    if hour == AtStart then AtApply else if hour == AtApply then AtHandoff else AtReady
  }

  /** What is left of a duty, but for what was said. */
  lemma DutyDone(d: Deploy, hour: Hour, h: Host)
    requires !d.manual && hour in {AtStart, AtApply, AtPeers} && h in d.nodes
    ensures var was := Standing(hour, h == d.master, HoldsPeers(d));
            var q := if h in OnDuty(d, hour) then Behind(d, h, Duty(d, hour), was) else was;
            q == Standing(Later(hour), h == d.master, HoldsPeers(d)).(said := q.said)
  {
  }

  lemma MasterIsDone(s: Sys, at: map<Host, Place>)
    requires Fleet(s, at) && at[s.d.master].state == Done
    ensures MasterDone(s.d)
  {
  }

  lemma OnCall(d: Deploy, hour: Hour, h: Host)
    requires !d.manual && hour in {AtStart, AtApply, AtPeers} && h in OnDuty(d, hour)
    requires hour == AtPeers ==> MasterDone(d)
    ensures MayDo(d, h, Duty(d, hour), Standing(hour, h == d.master, HoldsPeers(d)))
  {
  }

  lemma AllOnCall(s: Sys, hour: Hour)
    requires !s.d.manual && hour in {AtStart, AtApply, AtPeers} && Fleet(s, Standings(s.d, hour))
    ensures var at := Standings(s.d, hour);
            && OnDuty(s.d, hour) <= at.Keys
            && forall h :: h in OnDuty(s.d, hour) ==> MayDo(s.d, h, Duty(s.d, hour), at[h])
  {
    hide Stands;
    if hour == AtPeers {
      MasterIsDone(s, Standings(s.d, hour));
    }
    hide Standing;
    hide MayDo;
    hide Duty;
    hide MasterDone;
    forall h | h in OnDuty(s.d, hour)
      ensures MayDo(s.d, h, Duty(s.d, hour), Standing(hour, h == s.d.master, HoldsPeers(s.d)))
    {
      OnCall(s.d, hour, h);
    }
  }

  lemma AllServed(d: Deploy, hour: Hour, was: map<Host, Place>)
    requires !d.manual && hour in {AtStart, AtApply, AtPeers} && was.Keys == Standings(d, hour).Keys
    requires forall h :: h in was ==>
               was[h] == if h in OnDuty(d, hour) then Behind(d, h, Duty(d, hour), Standings(d, hour)[h])
                         else Standings(d, hour)[h]
    ensures var to := Standings(d, Later(hour));
            && to.Keys == was.Keys
            && forall h :: h in was ==> to[h] == was[h].(shown := to[h].shown, said := to[h].said)
                                        && to[h].shown <= was[h].shown && to[h].said <= was[h].said
  {
    hide Behind;
    hide Duty;
    hide OnDuty;
    hide Standing;
    forall h | h in was
      ensures was[h] == Standings(d, Later(hour))[h].(said := was[h].said) && Standings(d, Later(hour))[h].said == {}
    {
      DutyDone(d, hour, h);
      StandingIsQuiet(Later(hour), h == d.master, HoldsPeers(d));
    }
  }

  lemma StandingIsQuiet(hour: Hour, isMaster: bool, holds: bool)
    ensures Standing(hour, isMaster, holds).said == {}
  {
  }

  /** The driver still has the master's completion to follow up. */
  lemma MasterSaid(s: Sys, t: Sys, was: map<Host, Place>)
    requires !s.d.manual && Fleet(s, Standings(s.d, AtApply)) && Fleet(t, was) && s.d.master in was
    requires was[s.d.master] == Behind(s.d, s.d.master, Applies, Standings(s.d, AtApply)[s.d.master])
    ensures DoneFollowUp(s.d.master) in t.net
  {
    assert DoneFollowUp(s.d.master) in was[s.d.master].said;
  }

  lemma HasMaster(s: Sys, at: map<Host, Place>)
    requires Fleet(s, at)
    ensures s.d.master in at && at.Keys == s.d.nodes.Keys
  {
  }

  /** One hour's duty. */
  lemma HourPart(s: Sys, hour: Hour) returns (events: seq<Event>, t: Sys)
    requires !s.d.manual && hour in {AtStart, AtApply, AtPeers} && Fleet(s, Standings(s.d, hour))
    ensures LeadsTo(s, events, t) && Fleet(t, Standings(s.d, Later(hour)))
    ensures hour == AtApply ==> DoneFollowUp(s.d.master) in t.net
  {
    AllOnCall(s, hour);
    HasMaster(s, Standings(s.d, hour));
    assert hour == AtApply ==> s.d.master in OnDuty(s.d, hour) && Duty(s.d, hour) == Applies;
    hide *;
    var was: map<Host, Place>;
    events, t, was := Each(s, Standings(s.d, hour), Duty(s.d, hour), OnDuty(s.d, hour));
    AllServed(s.d, hour, was);
    FleetForgets(t, was, Standings(s.d, Later(hour)));
    if hour == AtApply {
      MasterSaid(s, t, was);
    }
  }

  lemma StandingsStay(d: Deploy, e: Deploy, hour: Hour)
    requires e.nodes.Keys == d.nodes.Keys && e.master == d.master
    requires e.manual == d.manual && e.manualGate == d.manualGate
    ensures Standings(e, hour) == Standings(d, hour)
  {
    hide Standing;
  }

  function PeersOf(d: Deploy): set<Host> { set k | k in d.nodes && k != d.master }

  lemma HandoffGiven(d: Deploy)
    requires !d.manual
    ensures Standings(d, AtPeers) ==
            if HoldsPeers(d) then Standings(d, AtHandoff) else Given(Standings(d, AtHandoff), APPLY, PeersOf(d))
  {
    forall h | h in d.nodes && h != d.master && !HoldsPeers(d)
      ensures Standing(AtPeers, false, false).gates == Extended(Standing(AtHandoff, false, false).gates, APPLY)
    {
    }
  }

  lemma FollowUpGives(s: Sys)
    requires !s.d.manual && !s.d.manualGate && DoneFollowUp(s.d.master) in s.net
    ensures var e, r := FollowsUp(s.d.master), ReleasePeers(s.d, s.d.master);
            DriverEnabled(s, e) && DriverEffect(s, e) == Issue(s, r) && Grants(s.d, r, APPLY, PeersOf(s.d))
  {
    MasterHandsOver(s.d, s.d.master);
    hide ReleasePeers;
    hide Grants;
  }

  /** The handoff: the master's completion lets the peers go, unless they are held for the operator. */
  lemma HandoffPart(s: Sys) returns (events: seq<Event>, t: Sys)
    requires !s.d.manual && s.d.hasGate && Fleet(s, Standings(s.d, AtHandoff)) && DoneFollowUp(s.d.master) in s.net
    ensures LeadsTo(s, events, t) && Fleet(t, Standings(s.d, AtPeers))
  {
    HandoffGiven(s.d);
    if !s.d.manualGate {
      FollowUpGives(s);
      assert !HoldsPeers(s.d);
      hide *;
      events := [Driver(FollowsUp(s.d.master))];
      t := DriverGives(s, Standings(s.d, AtHandoff), FollowsUp(s.d.master), ReleasePeers(s.d, s.d.master), APPLY,
        PeersOf(s.d));
    } else {
      assert HoldsPeers(s.d);
      hide *;
      LeadsNowhere(s);
      events, t := [], s;
    }
  }

  lemma AllAreDone(s: Sys)
    requires Fleet(s, Standings(s.d, AtReady))
    ensures forall h :: h in s.d.nodes ==> s.d.nodes[h].state == Done
  {
    forall h | h in s.d.nodes ensures s.d.nodes[h].state == Done {
      assert Stands(s, h, Standings(s.d, AtReady)[h]);
    }
  }

  lemma DoneGives(s: Sys)
    requires !s.d.manual && forall h :: h in s.d.nodes ==> s.d.nodes[h].state == Done
    ensures var e, r := ConsidersSetReady, AutoSetReady(s.d);
            && DriverEnabled(s, e) && DriverEffect(s, e) == Issue(s, r)
            && Grants(s.d, r, SET_READY, {s.d.master} * s.d.nodes.Keys)
  {
    SetReadyIsDue(s.d);
    hide AutoSetReady;
    hide Grants;
  }

  /** Everybody is done: the master is told to make the cluster ready. */
  lemma ReadyGoPart(s: Sys) returns (t: Sys)
    requires !s.d.manual && s.d.hasGate && Fleet(s, Standings(s.d, AtReady))
    ensures LeadsTo(s, [Driver(ConsidersSetReady)], t)
         && Fleet(t, Given(Standings(s.d, AtReady), SET_READY, {s.d.master} * s.d.nodes.Keys))
  {
    AllAreDone(s);
    DoneGives(s);
    hide *;
    t := DriverGives(s, Standings(s.d, AtReady), ConsidersSetReady, AutoSetReady(s.d), SET_READY,
      {s.d.master} * s.d.nodes.Keys);
  }

  // ---------------------------------------------------------------------- the end

  /** Every node is done and has applied, and the master may make the cluster ready. */
  ghost predicate AtTheEnd(s: Sys) {
    && Shape(s)
    && (forall h :: h in s.d.nodes ==> s.agents[h].applyDone && s.d.nodes[h].state == Done)
    && exists p :: Stands(s, s.d.master, p) && p.a == Finished(true, false) && SET_READY in p.gates
  }

  lemma ManualEnds(s: Sys)
    requires Fleet(s, Mornings(s.d, STEP_SET_READY))
    ensures AtTheEnd(s)
  {
    hide Stands;
    EndsThere(s, Mornings(s.d, STEP_SET_READY));
  }

  lemma LastPlace(d: Deploy, h: Host)
    requires h in d.nodes
    ensures var p := Given(Standings(d, AtReady), SET_READY, {d.master} * d.nodes.Keys)[h];
            && p.a.applyDone && p.state == Done
            && (h == d.master ==> p.a == Finished(true, false) && SET_READY in p.gates)
  {
  }

  lemma AutomaticEnds(s: Sys, d: Deploy)
    requires d.master == s.d.master && d.nodes.Keys == s.d.nodes.Keys
    requires Fleet(s, Given(Standings(d, AtReady), SET_READY, {d.master} * d.nodes.Keys))
    ensures AtTheEnd(s)
  {
    hide Stands;
    hide Standing;
    hide Finished;
    hide Extended;
    assert s.d.master in s.d.nodes;
    forall h | h in d.nodes
      ensures var p := Given(Standings(d, AtReady), SET_READY, {d.master} * d.nodes.Keys)[h];
              && p.a.applyDone && p.state == Done
              && (h == d.master ==> p.a == Finished(true, false) && SET_READY in p.gates)
    {
      LastPlace(d, h);
    }
    hide Given;
    EndsThere(s, Given(Standings(d, AtReady), SET_READY, {d.master} * d.nodes.Keys));
  }

  lemma EndsThere(s: Sys, at: map<Host, Place>)
    requires Fleet(s, at) && s.d.master in s.d.nodes
    requires forall h :: h in s.d.nodes ==> at[h].a.applyDone && at[h].state == Done
    requires at[s.d.master].a == Finished(true, false) && SET_READY in at[s.d.master].gates
    ensures AtTheEnd(s)
  {
    hide Finished;
    assert Stands(s, s.d.master, at[s.d.master]);
    forall h | h in s.d.nodes ensures s.agents[h].applyDone && s.d.nodes[h].state == Done {
      assert Stands(s, h, at[h]);
    }
  }

  /** Up to the handoff. */
  lemma UntilHandoff(s: Sys) returns (events: seq<Event>, t: Sys)
    requires !s.d.manual && s.d.hasGate && Fleet(s, Standings(s.d, AtStart))
    ensures LeadsTo(s, events, t) && Fleet(t, Standings(t.d, AtHandoff)) && DoneFollowUp(t.d.master) in t.net
  {
    assert Later(AtStart) == AtApply && Later(AtApply) == AtHandoff;
    hide *;
    var e1, s1 := HourPart(s, AtStart);
    LeadsKeeps(s, e1, s1);
    StandingsStay(s.d, s1.d, AtApply);
    var e2: seq<Event>;
    e2, t := HourPart(s1, AtApply);
    LeadsKeeps(s1, e2, t);
    StandingsStay(s1.d, t.d, AtHandoff);
    LeadsOn(s, e1, s1, e2, t);
    events := e1 + e2;
  }

  /** And from there. */
  lemma FromHandoff(s: Sys) returns (events: seq<Event>, t: Sys)
    requires !s.d.manual && s.d.hasGate && Fleet(s, Standings(s.d, AtHandoff)) && DoneFollowUp(s.d.master) in s.net
    ensures LeadsTo(s, events, t) && Fleet(t, Standings(t.d, AtReady))
  {
    assert Later(AtPeers) == AtReady;
    hide *;
    var e1, s1 := HandoffPart(s);
    LeadsKeeps(s, e1, s1);
    StandingsStay(s.d, s1.d, AtPeers);
    var e2: seq<Event>;
    e2, t := HourPart(s1, AtPeers);
    LeadsKeeps(s1, e2, t);
    StandingsStay(s1.d, t.d, AtReady);
    LeadsOn(s, e1, s1, e2, t);
    events := e1 + e2;
  }

  lemma AutomaticRun(s: Sys) returns (events: seq<Event>, t: Sys)
    requires !s.d.manual && s.d.hasGate && Fleet(s, Standings(s.d, AtStart))
    ensures LeadsTo(s, events, t) && AtTheEnd(t)
  {
    hide *;
    var e1, s1 := UntilHandoff(s);
    LeadsKeeps(s, e1, s1);
    var e2, s2 := FromHandoff(s1);
    LeadsKeeps(s1, e2, s2);
    LeadsOn(s, e1, s1, e2, s2);
    t := ReadyGoPart(s2);
    LeadsKeeps(s2, [Driver(ConsidersSetReady)], t);
    AutomaticEnds(t, s2.d);
    LeadsOn(s, e1 + e2, s2, [Driver(ConsidersSetReady)], t);
    events := e1 + e2 + [Driver(ConsidersSetReady)];
  }

  /** Every node is done and has applied, and the cluster is ready. */
  ghost predicate AllOver(s: Sys) {
    && Shape(s) && s.agents[s.d.master].setReadyRun
    && forall h :: h in s.d.nodes ==> s.agents[h].applyDone && s.d.nodes[h].state == Done
  }

  lemma MasterFinishes(s: Sys, events: seq<Event>, p: Place, q: Place)
    requires AtTheEnd(s) && Stands(s, s.d.master, p) && p.a == Finished(true, false)
    requires Reaches(s, s.d.master, events, q)
    requires q == p.(a := p.a.(setReadyRun := true), shown := q.shown, said := q.said)
    ensures AllOver(Run(s, events)) && LeadsTo(s, events, Run(s, events)) && Run(s, events).d.step == s.d.step
  {
    hide Run;
    hide Gates;
    hide Plain;
  }

  /** From there the master's set_ready is one go record and one event away. */
  lemma Finale(s: Sys) returns (events: seq<Event>, t: Sys)
    requires AtTheEnd(s)
    ensures LeadsTo(s, events, t) && t.d.step == s.d.step && AllOver(t)
  {
    var p :| Stands(s, s.d.master, p) && p.a == Finished(true, false) && SET_READY in p.gates;
    hide *;
    var q: Place;
    events, q := ReadyPart(s, s.d.master, p);
    MasterFinishes(s, events, p, q);
    t := Run(s, events);
  }

  // ------------------------------------------------------------------ the theorem

  /**
   The deploy is finished: every agent has applied, the driver shows every node done, the master
   has made the cluster ready, and a manual deploy is at its last step.
   */
  ghost predicate IsFinished(l: Launch, s: Sys) {
    && (forall h :: h in l.logs ==>
          h in s.agents && s.agents[h].applyDone && h in s.d.nodes && s.d.nodes[h].state == Done)
    && l.master in s.agents && s.agents[l.master].setReadyRun
    && (l.manual ==> s.d.step == STEP_SET_READY)
  }

  /** The operator releases nobody by hand, and only the peers of a deploy that holds them use the network. */
  ghost predicate WithoutReleases(l: Launch, events: seq<Event>) {
    forall i :: 0 <= i < |events| ==>
      && !(events[i].Driver? && events[i].de.OperatorReleases?)
      && (events[i].Acts? && events[i].ae.Boots? && events[i].ae.inBand ==> !l.manual && l.manualGate)
  }

  lemma Opened(l: Launch)
    requires Launchable(l)
    ensures var d := Init(l).d;
            && d.nodes.Keys == l.logs.Keys && d.master == l.master
            && d.hasGate == l.hasGate && d.skewLimit == l.skewLimit
            && d.manual == l.manual && d.manualGate == l.manualGate && (l.manual ==> d.step == STEP_PREFLIGHT)
  {
    hide Flush;
    hide Update;
  }

  lemma StandsAtFirst(l: Launch, h: Host, p: Place)
    requires Launchable(l) && l.hasGate && h in l.logs && Shape(Init(l))
    requires p == Place(FreshAgent(), Pending, None,
                        if l.manual then [] else if h == l.master then [RESTORE, REBOOT, APPLY] else [RESTORE, REBOOT],
                        {}, {})
    ensures Stands(Init(l), h, p)
  {
    var anchors := map h | h in l.logs :: Anchor(l.logs[h]);
    var s := Init(l);
    StartOpens(anchors, l.master, l.manual, l.manualGate, l.hasGate, l.skewLimit, l.trigger);
    hide Start;
    assert s.agents[h] == p.a;
    assert s.d.nodes[h] == NewNode(anchors[h]).(gates := p.gates);
    assert p.gates != [] ==> Job(h, s.d.nodes[h].gates) in s.jobs;
    hide Init;
    hide Shape;
    hide Gates;
  }

  lemma OpenedFleet(l: Launch)
    requires Launchable(l) && l.hasGate
    ensures if l.manual then Fleet(Init(l), Mornings(Init(l).d, STEP_PREFLIGHT))
            else Fleet(Init(l), Standings(Init(l).d, AtStart))
  {
    Opened(l);
    InitKeeps(l);
    hide Init;
    hide Stands;
    assert Shape(Init(l)) by { hide Shape; }
    hide Inv;
    forall h | h in l.logs
      ensures Stands(Init(l), h, if l.manual then Morning(STEP_PREFLIGHT, h == l.master)
                                 else Standing(AtStart, h == l.master, HoldsPeers(Init(l).d)))
    {
      StandsAtFirst(l, h, if l.manual then Morning(STEP_PREFLIGHT, h == l.master)
                          else Standing(AtStart, h == l.master, HoldsPeers(Init(l).d)));
    }
    hide Morning;
    hide Standing;
  }

  lemma RunsToTheEnd(s: Sys) returns (events: seq<Event>, t: Sys)
    requires s.d.hasGate
    requires s.d.manual ==>
               s.d.skewLimit >= 0.0 && s.d.step == STEP_PREFLIGHT && Fleet(s, Mornings(s.d, STEP_PREFLIGHT))
    requires !s.d.manual ==> Fleet(s, Standings(s.d, AtStart))
    ensures LeadsTo(s, events, t) && AllOver(t) && (s.d.manual ==> t.d.step == STEP_SET_READY)
  {
    hide Fleet;
    hide LeadsTo;
    hide Mornings;
    hide AtTheEnd;
    hide AllOver;
    var u: Sys;
    if s.d.manual {
      events, u := AllSteps(s);
      ManualEnds(u);
    } else {
      events, u := AutomaticRun(s);
    }
    var last: seq<Event>;
    last, t := Finale(u);
    LeadsOn(s, events, u, last, t);
    events := events + last;
  }

  lemma FinishedIn(l: Launch, events: seq<Event>, t: Sys)
    requires var d := Init(l).d; d.nodes.Keys == l.logs.Keys && d.master == l.master && d.manual == l.manual
                                 && d.manualGate == l.manualGate
    requires LeadsTo(Init(l), events, t) && AllOver(t) && (l.manual ==> t.d.step == STEP_SET_READY)
    requires l.master in l.logs
    ensures WithoutReleases(l, events) && IsFinished(l, Run(Init(l), events))
  {
    hide Init;
    hide Run;
  }

  /**
   Every deploy with gates can be finished without a release by hand: from every such launch, with
   any number of nodes, there is a run in which every node applies and the master makes the cluster
   ready. A manual deploy needs a skew limit that some clock can meet.
   */
  lemma EveryLaunchCanFinish(l: Launch) returns (events: seq<Event>)
    requires Launchable(l) && l.hasGate && (l.manual ==> l.skewLimit >= 0.0)
    ensures WithoutReleases(l, events) && IsFinished(l, Run(Init(l), events))
  {
    Opened(l);
    OpenedFleet(l);
    assert STEP_PREFLIGHT == 1;
    hide *;
    var t: Sys;
    events, t := RunsToTheEnd(Init(l));
    FinishedIn(l, events, t);
  }

  /** And only then: with a negative limit no manual deploy gets past its first step, so none is ever finished. */
  lemma FinishedWithinLimit(l: Launch, events: seq<Event>)
    requires Launchable(l) && l.manual && IsFinished(l, Run(Init(l), events))
    ensures l.skewLimit >= 0.0
  {
    var s := Run(Init(l), events);
    Reached(l, events, l.master);
    RestoreBarrier(l, events, l.master, l.master);
    hide Run;
    assert s.agents[l.master].restoreBegun by { hide HasPassed; hide Barriers; }
    hide NodeOk;
    hide Barriers;
    assert HasPassed(s, l.master);
  }

  /** What a deploy with gates needs to be finished without releases is exactly a limit that is not negative. */
  lemma CanFinishIff(l: Launch)
    requires Launchable(l) && l.hasGate
    ensures (exists events :: WithoutReleases(l, events) && IsFinished(l, Run(Init(l), events)))
            <==> (l.manual ==> l.skewLimit >= 0.0)
  {
    hide *;
    if l.manual ==> l.skewLimit >= 0.0 {
      var events := EveryLaunchCanFinish(l);
    } else {
      forall events ensures !IsFinished(l, Run(Init(l), events)) {
        if IsFinished(l, Run(Init(l), events)) {
          FinishedWithinLimit(l, events);
        }
      }
    }
  }
}
