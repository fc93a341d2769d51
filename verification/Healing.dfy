/** Lost go records come back: what one pass of the gate reconciler does to the fleet's logs. */
module Healing {
  import opened Basics
  import opened Sel
  import opened Deploy
  import opened GateWriter
  import opened Orchestrator
  import opened Protocol
  import opened ProtocolSafety
  import opened ProtocolTheorems

  type Fleet = map<Host, Bmc>

  /** The deploy and the fleet after the given jobs have been carried out, each on its own node. */
  function After(d: Deploy, f: Fleet, jobs: set<Job>, patience: nat): (Deploy, Fleet)
    requires d.nodes.Keys <= f.Keys
  {
    (d.(nodes := map h | h in d.nodes ::
          if Job(h, d.nodes[h].gates) in jobs && WriteGate(f[h], d.nodes[h].gates, patience).0
          then Update(d.nodes[h], Ack(d.nodes[h].gates)) else d.nodes[h]),
     map h | h in f ::
       if h in d.nodes && Job(h, d.nodes[h].gates) in jobs then WriteGate(f[h], d.nodes[h].gates, patience).1 else f[h])
  }

  /** One reconcile pass: every ledger worth checking, as it was when the pass began. */
  function Pass(d: Deploy, f: Fleet, patience: nat): (Deploy, Fleet)
    requires d.nodes.Keys <= f.Keys
  {
    After(d, f, Reconcile(d), patience)
  }

  predicate IsLedger(d: Deploy, j: Job) {
    j.host in d.nodes && j.stages == d.nodes[j.host].gates
  }

  lemma OneMoreJob(d: Deploy, f: Fleet, done: set<Job>, j: Job, patience: nat)
    requires d.nodes.Keys <= f.Keys && j !in done && IsLedger(d, j)
    ensures var (t, g) := After(d, f, done, patience);
            var (ok, c) := WriteGate(f[j.host], j.stages, patience);
            && j.host in g && g[j.host] == f[j.host]
            && After(d, f, done + {j}, patience) == (if ok then Touch(t, j.host, Ack(j.stages)) else t, g[j.host := c])
  {
    hide WriteGate;
    hide Update;
    var (ok, c) := WriteGate(f[j.host], j.stages, patience);
    var (t, g) := After(d, f, done, patience);
    var (t', g') := After(d, f, done + {j}, patience);
    assert j == Job(j.host, d.nodes[j.host].gates);
    assert g' == g[j.host := c];
    assert t'.nodes == (if ok then Touch(t, j.host, Ack(j.stages)) else t).nodes;
  }

  lemma NothingDone(d: Deploy, f: Fleet, patience: nat)
    requires d.nodes.Keys <= f.Keys
    ensures After(d, f, {}, patience) == (d, f)
  {
    hide WriteGate;
    hide Update;
    var (t, g) := After(d, f, {}, patience);
    assert t.nodes == d.nodes && g == f;
  }

  // ------------------------------------------------------------ the driver's loop

  ghost predicate Distinct(bmcs: map<Host, Device>) {
    forall h, k :: h in bmcs && k in bmcs && h != k ==> bmcs[h] != bmcs[k]
  }

  ghost function FleetView(bmcs: map<Host, Device>): Fleet
    reads bmcs.Values
  {
    map h | h in bmcs :: bmcs[h].View()
  }

  method CarryOut(m: Manager, bmcs: map<Host, Device>, j: Job, patience: nat)
    requires m.Valid() && Distinct(bmcs) && j.host in bmcs
    modifies m.Records(), bmcs.Values
    ensures old(FleetView(bmcs)).Keys == bmcs.Keys
    ensures var (ok, c) := WriteGate(old(FleetView(bmcs))[j.host], j.stages, patience);
            && m.View() == (if ok then Touch(old(m.View()), j.host, Ack(j.stages)) else old(m.View()))
            && FleetView(bmcs) == old(FleetView(bmcs))[j.host := c]
  {
    var _ := m.RunJob(j, bmcs[j.host], patience);
    hide WriteGate;
    hide Touch;
  }

  method CarryOutAll(m: Manager, bmcs: map<Host, Device>, jobs: set<Job>, patience: nat)
    requires m.Valid() && Distinct(bmcs) && m.View().nodes.Keys <= FleetView(bmcs).Keys
    requires forall j :: j in jobs ==> j.host in bmcs && IsLedger(m.View(), j)
    modifies m.Records(), bmcs.Values
    ensures old(m.View()).nodes.Keys <= old(FleetView(bmcs)).Keys
    ensures (m.View(), FleetView(bmcs)) == After(old(m.View()), old(FleetView(bmcs)), jobs, patience)
  {
    ghost var d, f := m.View(), FleetView(bmcs);
    NothingDone(d, f, patience);
    var done := {};
    hide After;
    hide WriteGate;
    hide Touch;
    hide FleetView;
    hide IsLedger;
    hide Manager.View;
    while done != jobs
      invariant done <= jobs
      invariant (m.View(), FleetView(bmcs)) == After(d, f, done, patience)
      decreases jobs - done
    {
      var j :| j in jobs && j !in done;
      OneMoreJob(d, f, done, j, patience);
      CarryOut(m, bmcs, j, patience);
      done := done + {j};
    }
  }

  /** The pass: the ledgers worth checking are collected under the lock, then written one BMC at a time. */
  method ReconcileGates(m: Manager, bmcs: map<Host, Device>, patience: nat)
    requires m.Valid() && m.nodes.Keys <= bmcs.Keys && Distinct(bmcs)
    modifies m.Records(), bmcs.Values
    ensures old(m.View()).nodes.Keys <= old(FleetView(bmcs)).Keys
    ensures (m.View(), FleetView(bmcs)) == Pass(old(m.View()), old(FleetView(bmcs)), patience)
  {
    var jobs := m.GatesToRecheck();
    hide GatesAtRisk;
    CarryOutAll(m, bmcs, jobs, patience);
    hide After;
  }

  // ------------------------------------------------------------- self-healing

  /**
   Self-healing. A pass over quiet BMCs with room for a whole ledger leaves every stage of an
   at-risk node's ledger readable in its log, and acknowledged. It passes a node over exactly
   when there is nothing to heal: no gates, an error, or done with every gate acknowledged and
   no set-ready outstanding; then it touches neither the record nor the log.
   */
  lemma PassHeals(d: Deploy, f: Fleet, patience: nat, h: Host)
    requires d.hasGate && d.nodes.Keys <= f.Keys && h in d.nodes && patience >= 2
    requires NoDup(d.nodes[h].gates) && |d.nodes[h].gates| <= f[h].capacity && Quiet(f[h])
    ensures var (t, g) := Pass(d, f, patience);
            var n := d.nodes[h];
            && t.nodes.Keys == d.nodes.Keys && g.Keys == f.Keys && t.setReady == d.setReady && t.hasGate
            && (GatesAtRisk(n, d.setReady.ready) ==>
                  && Held(f[h], n.gates, g[h], 3)
                  && t.nodes[h] == n.(ack := n.gates))
            && (!GatesAtRisk(n, d.setReady.ready) ==> g[h] == f[h] && t.nodes[h] == n)
            && (!GatesAtRisk(n, d.setReady.ready) <==>
                  || n.gates == [] || n.state == Failed
                  || (n.state == Done && Elems(n.gates) <= Elems(n.ack) && (SET_READY in n.gates ==> d.setReady.ready)))
  {
    var n := d.nodes[h];
    WriteGateConverges(f[h], n.gates, patience);
    RiskMeans(n, d.setReady.ready);
    PassAt(d, f, patience, h);
    hide *;
    assert Update(n, Ack(n.gates)) == n.(ack := n.gates) by { AckMeans(n); }
  }

  lemma AckMeans(n: Node)
    ensures Update(n, Ack(n.gates)) == n.(ack := n.gates)
  {
  }

  lemma RiskMeans(n: Node, ready: bool)
    ensures !GatesAtRisk(n, ready) <==>
            || n.gates == [] || n.state == Failed
            || (n.state == Done && Elems(n.gates) <= Elems(n.ack) && (SET_READY in n.gates ==> ready))
  {
    if Elems(n.gates) <= Elems(n.ack) {
      assert forall x :: x in n.gates ==> x in Elems(n.gates);
    }
  }

  /** One node's share of a pass. */
  lemma PassAt(d: Deploy, f: Fleet, patience: nat, h: Host)
    requires d.hasGate && d.nodes.Keys <= f.Keys && h in d.nodes
    ensures var (t, g) := Pass(d, f, patience);
            var n := d.nodes[h];
            var (ok, c) := WriteGate(f[h], n.gates, patience);
            var risk := GatesAtRisk(n, d.setReady.ready);
            && t.nodes.Keys == d.nodes.Keys && g.Keys == f.Keys && t.setReady == d.setReady && t.hasGate
            && g[h] == (if risk then c else f[h])
            && t.nodes[h] == if risk && ok then Update(n, Ack(n.gates)) else n
  {
    hide WriteGate;
    hide GatesAtRisk;
    hide Update;
    assert Job(h, d.nodes[h].gates) in Reconcile(d) <==> GatesAtRisk(d.nodes[h], d.setReady.ready);
  }

  /** After a healing pass a finished node has nothing left at risk, so a finished deploy stops touching its BMCs. */
  lemma HealedStaysQuiet(d: Deploy, f: Fleet, patience: nat, h: Host)
    requires d.hasGate && d.nodes.Keys <= f.Keys && h in d.nodes && patience >= 2
    requires NoDup(d.nodes[h].gates) && |d.nodes[h].gates| <= f[h].capacity && Quiet(f[h])
    requires d.nodes[h].state == Done && (SET_READY in d.nodes[h].gates ==> d.setReady.ready)
    ensures var (t, g) := Pass(d, f, patience);
            h in t.nodes && !GatesAtRisk(t.nodes[h], t.setReady.ready) && t.nodes.Keys <= g.Keys
                && Pass(t, g, patience).1[h] == g[h]
  {
    PassHeals(d, f, patience, h);
  }

  lemma LedgerFits4(gates: seq<Stage>)
    requires NoDup(gates) && Elems(gates) <= {RESTORE, REBOOT, APPLY, SET_READY}
    ensures |gates| <= 4
  {
    var all: set<Stage> := {RESTORE, REBOOT, APPLY, SET_READY};
    NoDupLength(gates, all);
    assert |all| == 4;
  }

  /**
   At any point of any run, whatever was lost before: a reconcile pass over quiet BMCs that can
   hold four records leaves each at-risk node's log showing exactly its ledger.
   */
  lemma EveryRunHeals(l: Launch, events: seq<Event>, f: Fleet, patience: nat, h: Host)
    requires Launchable(l) && l.hasGate && h in l.logs && patience >= 2
    requires var s := Run(Init(l), events);
             && f.Keys == s.logs.Keys && h in f && h in s.logs
             && Quiet(f[h]) && f[h].capacity >= 4 && f[h].log == s.logs[h].log
    ensures var s := Run(Init(l), events);
            && h in s.d.nodes && s.d.nodes.Keys <= f.Keys
            && (GatesAtRisk(s.d.nodes[h], s.d.setReady.ready) ==>
                  GatesIn(Pass(s.d, f, patience).1[h].log) == Elems(s.d.nodes[h].gates))
  {
    hide Run;
    hide Init;
    hide Launchable;
    hide NodeOk;
    hide Barriers;
    hide Pass;
    hide GatesAtRisk;
    var s := Run(Init(l), events);
    NoUnauthorisedGo(l, events, h);
    KeepsWriter(l, events);
    Reached(l, events, h);
    var n := s.d.nodes[h];
    LedgerFits4(n.gates);
    PassHeals(s.d, f, patience, h);
    PassWithin(s.d, f, patience, h);
  }

  lemma PassWithin(d: Deploy, f: Fleet, patience: nat, h: Host)
    requires d.nodes.Keys <= f.Keys && h in d.nodes && Quiet(f[h]) && GatesIn(f[h].log) <= Elems(d.nodes[h].gates)
    ensures h in Pass(d, f, patience).1 && GatesIn(Pass(d, f, patience).1[h].log) <= Elems(d.nodes[h].gates)
  {
    WritersStayWithin(f[h], d.nodes[h].gates, patience, [0, 0, 0, 0], 0, Elems(d.nodes[h].gates));
    hide WriteGate;
    hide GatesAtRisk;
  }

  lemma {:induction false} KeepsWriter(l: Launch, events: seq<Event>)
    requires Launchable(l)
    ensures Run(Init(l), events).d.hasGate == l.hasGate
    decreases |events|
  {
    if events == [] {
      assert Init(l).d.hasGate == l.hasGate;
    } else {
      KeepsWriter(l, events[..|events| - 1]);
      StepGrows(Run(Init(l), events[..|events| - 1]), events[|events| - 1]);
      hide Init;
      hide Step;
    }
  }
}
