/**
 The driver's live objects: one record per node, updated in place under the manager's lock.
 Every method is proved to do what the Deploy functions say, so whatever the protocol theorems
 establish of those functions holds of this code.
 */
module Orchestrator {
  import opened Basics
  import opened Sel
  import opened Deploy
  import opened GateWriter

  class NodeDeploy {
    var state: State
    var gates: seq<Stage>
    var ack: seq<Stage>
    var fabric: Option<Fabric>
    var rekicks: nat
    var anchor: nat

    constructor (anchor: nat)
      ensures View() == NewNode(anchor)
    {
      state, gates, ack, fabric, rekicks, this.anchor := Pending, [], [], None, 0, anchor;
    }

    ghost function View(): Node
      reads this
    {
      Node(state, gates, ack, fabric, rekicks, anchor)
    }

    /** The bodies the handlers run on a node's record while the lock is held. */
    method Handle(op: NodeOp)
      modifies this
      ensures View() == Update(old(View()), op)
    {
      match op {
        case Advance(to) =>
          if !AgentDriven(state) { state := to; }
        case Fail =>
          if !AgentDriven(state) { state := Failed; }
        case PreflightReport(f) =>
          fabric := Some(f);
          state := Preflighting;
          if f.passed { state := PreflightOk; }
        case PreflightProgress =>
          if state == Netbooting || state == Imaged { state := Preflighting; }
        case GreenLight(confirmed) =>
          if state == PreflightOk || state == Preflighting {
            if confirmed { state := Restoring; } else { state := PreflightOk; }
          }
        case Rekick =>
          if state == Netbooting || state == Preflighting || state == PreflightOk {
            rekicks := rekicks + 1;
            if fabric.Some? { fabric := Some(fabric.value.(passed := false)); }
            state := Preflighting;
          }
        case RestoreDone =>
          var r := StateRank(state);
          if r >= StateRank(PreflightOk) && r < StateRank(Rebooting) { state := Rebooting; }
        case ApplyStarted(proceed) =>
          if state == Rebooting || state == Waiting || state == CheckedIn {
            if proceed { state := Applying; } else { state := Waiting; }
          }
        case WaitForMaster =>
          if state == Rebooting || state == CheckedIn { state := Waiting; }
        case CheckIn(hold) =>
          if state in {Restoring, Rebooting, Netbooting, Imaging, Imaged, Waiting, CheckedIn} {
            if hold { state := Waiting; } else { state := CheckedIn; }
          }
        case Report(to) => state := to;
        case MarkApplied => state := Done;
        case ApplyFailed => state := Failed;
        case Merge(to) =>
          if state == Done { return; }
          if to == Failed {
            if state != Failed { state := Failed; }
            return;
          }
          if StateRank(to) > StateRank(state) { state := to; }
        case Cancel =>
          if state != Done && state != Failed { state := Failed; }
        case Ack(stages) =>
          ack := [];
          for i := 0 to |stages|
            invariant View() == old(View()).(ack := stages[..i])
          {
            ack := ack + [stages[i]];
          }
          assert stages[..|stages|] == stages;
        case Grant(stage) =>
          if stage !in gates { gates := gates + [stage]; }
      }
    }

    method AtRisk(setReadyDone: bool) returns (r: bool)
      ensures r <==> GatesAtRisk(View(), setReadyDone)
    {
      if |gates| == 0 || state == Failed { return false; }
      if state != Done { return true; }
      for i := 0 to |gates|
        invariant forall k :: 0 <= k < i ==> gates[k] in ack
      {
        if gates[i] !in ack { return true; }
      }
      return SET_READY in gates && !setReadyDone;
    }
  }

  ghost function Cancelled(d: Deploy, hosts: set<Host>): Deploy {
    d.(nodes := map h | h in d.nodes :: if h in hosts then Update(d.nodes[h], NodeOp.Cancel) else d.nodes[h])
  }

  lemma CancelledBounds(d: Deploy)
    ensures Cancelled(d, {}) == d && Cancelled(d, d.nodes.Keys) == CancelAll(d)
  {
    hide Update;
    assert Cancelled(d, {}).nodes == d.nodes && Cancelled(d, d.nodes.Keys).nodes == CancelAll(d).nodes;
  }

  lemma OneMoreCancelled(d: Deploy, hosts: set<Host>, h: Host)
    requires h !in hosts
    ensures Touch(Cancelled(d, hosts), h, NodeOp.Cancel) == Cancelled(d, hosts + {h})
  {
    hide Update;
  }

  lemma NobodyGranted(d: Deploy, stage: Stage)
    ensures Authorize(d, {}, stage) == d
  {
    hide Update;
    assert Authorize(d, {}, stage).nodes == d.nodes;
  }

  lemma OneMoreGranted(d: Deploy, targets: set<Host>, h: Host, stage: Stage)
    requires h !in targets
    ensures Touch(Authorize(d, targets, stage), h, Grant(stage)) == Authorize(d, targets + {h}, stage)
  {
    hide Update;
  }

  datatype Which = All | TheMaster | ThePeers

  function Targets(d: Deploy, which: Which): set<Host> {
    match which
    case All => Everyone(d)
    case TheMaster => MasterOnly(d)
    case ThePeers => Peers(d)
  }

  lemma TargetsMean(d: Deploy, which: Which)
    ensures forall h :: h in Targets(d, which) <==>
              h in d.nodes && (which == All || (which == TheMaster && h == d.master) || (which == ThePeers
                  && h != d.master))
  {
  }

  lemma OpenGatesTaken(d: Deploy)
    ensures var a := Authorize(Authorize(Authorize(d, Targets(d, All), RESTORE), Targets(d, All), REBOOT),
        Targets(d, TheMaster), APPLY);
            OpenGates(d) == if !d.hasGate || d.manual then (d, {}) else (a, Flush(a, Targets(d, All)))
  {
    hide Update;
    hide Flush;
    assert d.hasGate && !d.manual ==> Everyone(OpenGates(d).0) == Everyone(d);
  }

  method MakeRecords(anchors: map<Host, nat>) returns (nodes: map<Host, NodeDeploy>)
    ensures nodes.Keys == anchors.Keys
    ensures forall h :: h in nodes ==> fresh(nodes[h]) && nodes[h].View() == NewNode(anchors[h])
    ensures forall h, k :: h in nodes && k in nodes && h != k ==> nodes[h] != nodes[k]
  {
    nodes := map[];
    while nodes.Keys != anchors.Keys
      invariant nodes.Keys <= anchors.Keys && (nodes.Keys != anchors.Keys ==> exists h :: h in anchors && h !in nodes)
      invariant forall h :: h in nodes ==> fresh(nodes[h]) && nodes[h].View() == NewNode(anchors[h])
      invariant forall h, k :: h in nodes && k in nodes && h != k ==> nodes[h] != nodes[k]
      decreases anchors.Keys - nodes.Keys
    {
      var h :| h in anchors && h !in nodes;
      assert h in anchors.Keys - nodes.Keys;
      var nd := new NodeDeploy(anchors[h]);
      assert forall k :: k in nodes ==> nodes[k] != nd && nodes[k].View() == NewNode(anchors[k]);
      nodes := nodes[h := nd];
    }
  }

  class Manager {
    var nodes: map<Host, NodeDeploy>
    const master: Host
    const manual: bool
    var step: nat
    const manualGate: bool
    const hasGate: bool
    const skewLimit: real
    var setReady: SetReady
    var setReadyDone: bool

    ghost predicate Valid()
      reads this
    {
      forall h, k :: h in nodes && k in nodes && h != k ==> nodes[h] != nodes[k]
    }

    ghost function Records(): set<NodeDeploy>
      reads this
    {
      nodes.Values
    }

    ghost function View(): Deploy
      reads this, Records()
    {
      Deploy(map h | h in nodes :: nodes[h].View(), master, manual, step, manualGate, hasGate, skewLimit, setReady,
          setReadyDone)
    }

    /** A record for every node of the deploy, nothing authorised yet. */
    constructor (anchors: map<Host, nat>, master: Host, manual: bool, manualGate: bool, hasGate: bool,
                 skewLimit: real, trigger: bool)
      ensures Valid() && forall h :: h in nodes ==> fresh(nodes[h])
      ensures View() == Opening(anchors, master, manual, manualGate, hasGate, skewLimit, trigger)
    {
      var records := MakeRecords(anchors);
      nodes := records;
      this.master, this.manual, this.manualGate, this.hasGate := master, manual, manualGate, hasGate;
      this.skewLimit := skewLimit;
      step := if manual then STEP_PREFLIGHT else 0;
      setReady, setReadyDone := SetReady(trigger, false), false;
    }

    lemma ViewFields()
      ensures View().hasGate == hasGate && View().manual == manual
    {
    }

    method OpenTheGates() returns (jobs: set<Job>)
      requires Valid()
      modifies Records()
      ensures (View(), jobs) == OpenGates(old(View()))
    {
      hide *;
      ViewFields();
      ghost var d := View();
      OpenGatesTaken(d);
      if !hasGate || manual { return {}; }
      var all := GateTargets(All);
      var masterN := GateTargets(TheMaster);
      AuthorizeGates(all, RESTORE);
      AuthorizeGates(all, REBOOT);
      AuthorizeGates(masterN, APPLY);
      jobs := FlushGates(all);
    }

    /** The node's record, changed by one handler body. */
    method Set(h: Host, op: NodeOp)
      requires Valid()
      modifies Records()
      ensures View() == Touch(old(View()), h, op)
    {
      if h in nodes {
        nodes[h].Handle(op);
      }
    }

    // ------------------------------------------------------ fleet predicates

    method AllNodesApplied() returns (r: bool)
      ensures r <==> AllApplied(View())
    {
      var todo := nodes.Keys;
      while todo != {}
        invariant todo <= nodes.Keys
        invariant forall h :: h in nodes && h !in todo ==> nodes[h].state == Done
        decreases |todo|
      {
        var h :| h in todo;
        if nodes[h].state != Done {
          assert View().nodes[h].state != Done;
          return false;
        }
        todo := todo - {h};
      }
      return true;
    }

    method AllNodesReached(want: nat) returns (r: bool)
      ensures r <==> AllReached(View(), want)
    {
      var todo := nodes.Keys;
      while todo != {}
        invariant todo <= nodes.Keys
        invariant forall h :: h in nodes && h !in todo ==> PipelineRank(nodes[h].state) >= want
        decreases |todo|
      {
        var h :| h in todo;
        if PipelineRank(nodes[h].state) < want {
          assert PipelineRank(View().nodes[h].state) < want;
          return false;
        }
        todo := todo - {h};
      }
      return true;
    }

    method IsFabricReady() returns (r: bool)
      ensures r <==> FabricReady(View())
    {
      var todo := nodes.Keys;
      while todo != {}
        invariant todo <= nodes.Keys
        invariant forall h :: h in nodes && h !in todo ==> FabricOk(nodes[h].fabric, skewLimit)
        decreases |todo|
      {
        var h :| h in todo;
        var pf := nodes[h].fabric;
        assert View().nodes[h].fabric == pf;
        if pf.None? || !pf.value.passed || !pf.value.carrierOk { return false; }
        if pf.value.skew > skewLimit || pf.value.skew < -skewLimit { return false; }
        todo := todo - {h};
      }
      return true;
    }

    method MayAdvance() returns (r: bool)
      ensures r <==> CanAdvance(View())
    {
      if !manual || step >= STEP_SET_READY { return false; }
      if step == STEP_PREFLIGHT { r := IsFabricReady(); }
      else if step == STEP_RESTORE { r := AllNodesReached(4); }
      else if step == STEP_REBOOT { r := AllNodesReached(5); }
      else if step == STEP_APPLY_MASTER { r := master in nodes && nodes[master].state == Done; }
      else if step == STEP_APPLY_REST { r := AllNodesReached(7); }
      else { r := false; }
    }

    // ----------------------------------------------------------- the ledger

    method AuthorizeGates(targets: set<Host>, stage: Stage)
      requires Valid()
      modifies Records()
      ensures View() == Authorize(old(View()), targets, stage)
    {
      var done: set<Host> := {};
      NobodyGranted(View(), stage);
      hide *;
      while done != targets
        invariant done <= targets
        invariant View() == Authorize(old(View()), done, stage)
        decreases targets - done
      {
        var h :| h in targets && h !in done;
        OneMoreGranted(old(View()), done, h, stage);
        Set(h, Grant(stage));
        done := done + {h};
      }
    }

    /** A write of the node's whole ledger, which is not empty. */
    ghost predicate Writes(j: Job)
      reads this, Records()
    {
      j.host in nodes && nodes[j.host].gates != [] && j.stages == nodes[j.host].gates
    }

    method FlushGates(targets: set<Host>) returns (jobs: set<Job>)
      ensures jobs == Flush(View(), targets) && View() == old(View())
    {
      jobs := {};
      if !hasGate { return; }
      var todo := targets;
      while todo != {}
        invariant todo <= targets
        invariant forall j :: j in jobs <==> j.host in targets - todo && Writes(j)
        decreases |todo|
      {
        var h :| h in todo;
        if h in nodes && |nodes[h].gates| != 0 {
          jobs := jobs + {Job(h, nodes[h].gates)};
        }
        todo := todo - {h};
      }
      assert forall j :: j in jobs <==> j in Flush(View(), targets);
    }

    method GateTargets(which: Which) returns (out: set<Host>)
      ensures out == Targets(View(), which) && View() == old(View())
    {
      out := {};
      var todo := nodes.Keys;
      ghost var want := Targets(View(), which);
      TargetsMean(View(), which);
      hide Targets;
      while todo != {}
        invariant todo <= nodes.Keys && out == want - todo
        decreases |todo|
      {
        var h :| h in todo;
        assert h in View().nodes;
        if which == All || (which == TheMaster && h == master) || (which == ThePeers && h != master) {
          out := out + {h};
        }
        todo := todo - {h};
      }
    }

    method WriteGosAsync(which: Which, stage: Stage) returns (jobs: set<Job>)
      requires Valid()
      modifies Records()
      ensures (View(), jobs) == WriteGos(old(View()), Targets(old(View()), which), stage)
    {
      var targets := GateTargets(which);
      AuthorizeGates(targets, stage);
      jobs := FlushGates(targets);
    }

    method Next() returns (jobs: set<Job>)
      requires Valid()
      modifies this`step, Records()
      ensures (View(), jobs) == AdvanceStep(old(View()))
    {
      hide Update;
      hide Flush;
      hide CanAdvance;
      if !manual || step >= STEP_SET_READY { return {}; }
      var may := MayAdvance();
      if !may { return {}; }
      step := step + 1;
      assert View() == old(View()).(step := step);
      if step == STEP_RESTORE { jobs := WriteGosAsync(All, RESTORE); }
      else if step == STEP_REBOOT { jobs := WriteGosAsync(All, REBOOT); }
      else if step == STEP_APPLY_MASTER { jobs := WriteGosAsync(TheMaster, APPLY); }
      else if step == STEP_APPLY_REST { jobs := WriteGosAsync(ThePeers, APPLY); }
      else { jobs := WriteGosAsync(TheMaster, SET_READY); }
    }

    method ReleasePeersOnMasterDone(h: Host) returns (jobs: set<Job>)
      requires Valid()
      modifies Records()
      ensures (View(), jobs) == ReleasePeers(old(View()), h)
    {
      if master != h || manualGate || manual { return {}; }
      jobs := WriteGosAsync(ThePeers, APPLY);
    }

    method MaybeAutoSetReady() returns (jobs: set<Job>)
      requires Valid()
      modifies Records()
      ensures (View(), jobs) == AutoSetReady(old(View()))
    {
      var applied := AllNodesApplied();
      if manual || !applied { return {}; }
      jobs := WriteGosAsync(TheMaster, SET_READY);
    }

    /** The in-band completion report: record it, hand the peers their go, then see whether set-ready is due. */
    method Applied(h: Host) returns (jobs: set<Job>)
      requires Valid()
      modifies Records()
      ensures var (d1, j1) := ReleasePeers(Touch(old(View()), h, MarkApplied), h);
              var (d2, j2) := AutoSetReady(d1);
              View() == d2 && jobs == j1 + j2
    {
      Set(h, MarkApplied);
      jobs := ReleasePeersOnMasterDone(h);
      var more := MaybeAutoSetReady();
      jobs := jobs + more;
    }

    /** The operator's release of one node; false when it is not in the deploy or there is no gate writer. */
    method Release(h: Host) returns (ok: bool, jobs: set<Job>)
      requires Valid()
      modifies Records()
      ensures (View(), jobs) == ReleaseNode(old(View()), h)
      ensures ok <==> h in nodes && hasGate
    {
      if h !in nodes || !hasGate { return false, {}; }
      AuthorizeGates({h}, APPLY);
      return true, {Job(h, nodes[h].gates)};
    }

    // --------------------------------------------------- answers to the agents

    method AnswerCheckIn(h: Host) returns (hold: bool)
      requires Valid()
      modifies Records()
      ensures hold == Hold(old(View()), h)
      ensures View() == Touch(old(View()), h, CheckIn(hold))
    {
      var masterDone := master in nodes && nodes[master].state == Done;
      hold := h != master && !masterDone;
      Set(h, CheckIn(hold));
    }

    method GreenLightOne(h: Host) returns (clear: bool)
      requires Valid()
      modifies Records()
      ensures (clear, View()) == GreenLight1(old(View()), h)
    {
      if manual && step < STEP_RESTORE { return false; }
      clear := IsFabricReady();
      if clear && h in nodes {
        var confirmed := !hasGate || RESTORE in nodes[h].ack;
        Set(h, GreenLight(confirmed));
      }
    }

    method GetSetReady() returns (trigger: bool)
      ensures trigger == Trigger(View())
    {
      trigger := setReady.trigger;
      var applied := AllNodesApplied();
      if trigger && !applied { trigger := false; }
      if manual && step < STEP_SET_READY { trigger := false; }
    }

    method MergeStatus(h: Host, s: Status) returns (becameDone: bool)
      requires Valid()
      modifies this`setReady, this`setReadyDone, Records()
      ensures (View(), becameDone) == MergeSel(old(View()), h, s)
    {
      if s.phase == ReadyPh {
        if h == master {
          setReady, setReadyDone := setReady.(ready := s.outcome != ErrorOut), s.outcome != ErrorOut;
        }
        assert View().nodes == old(View()).nodes;
        return false;
      }
      hide Update;
      var target := SelState(s);
      hide SelState;
      if target.None? || h !in nodes { return false; }
      var was := nodes[h].state;
      Set(h, Merge(target.value));
      becameDone := was != Done && nodes[h].state == Done;
    }

    method CancelDeploy()
      requires Valid()
      modifies Records()
      ensures View() == CancelAll(old(View()))
    {
      var hosts, done := nodes.Keys, {};
      ghost var d := View();
      CancelledBounds(d);
      assert d.nodes.Keys == hosts;
      hide *;
      while done != hosts
        invariant done <= hosts
        invariant View() == Cancelled(d, done)
        decreases hosts - done
      {
        var h :| h in hosts && h !in done;
        OneMoreCancelled(d, done, h);
        Set(h, NodeOp.Cancel);
        done := done + {h};
      }
    }

    // ------------------------------------------------------------- reconciling

    /** The reconciler's snapshot, taken under the lock. */
    method GatesToRecheck() returns (jobs: set<Job>)
      ensures jobs == Reconcile(View())
    {
      jobs := {};
      if !hasGate { return; }
      var todo := nodes.Keys;
      while todo != {}
        invariant todo <= nodes.Keys
        invariant forall j :: j in jobs <==>
            j.host !in todo && Writes(j) && GatesAtRisk(nodes[j.host].View(), setReady.ready)
        decreases |todo|
      {
        var h :| h in todo;
        var risk := nodes[h].AtRisk(setReady.ready);
        if risk {
          jobs := jobs + {Job(h, nodes[h].gates)};
        }
        todo := todo - {h};
      }
      assert forall h :: h in nodes ==> View().nodes[h] == nodes[h].View();
      hide GatesAtRisk;
      assert forall j :: j in jobs <==> j in Reconcile(View());
    }

    /** What a background writer does with its job: write, and acknowledge only a write that read everything back. */
    method RunJob(j: Job, bmc: Device, patience: nat) returns (ok: bool)
      requires Valid()
      modifies Records(), bmc
      ensures (ok, bmc.View()) == WriteGate(old(bmc.View()), j.stages, patience)
      ensures View() == if ok then Touch(old(View()), j.host, Ack(j.stages)) else old(View())
    {
      ok := IpmiWriteGate(bmc, j.stages, patience);
      if ok {
        Set(j.host, Ack(j.stages));
      }
    }
  }
  /** A deploy begins: its records are made, and in automatic mode its first gates are opened. */
  method StartDeploy(anchors: map<Host, nat>, master: Host, manual: bool, manualGate: bool, hasGate: bool,
                     skewLimit: real, trigger: bool) returns (m: Manager, jobs: set<Job>)
    ensures m.Valid() && fresh(m) && forall h :: h in m.nodes ==> fresh(m.nodes[h])
    ensures (m.View(), jobs) == Start(anchors, master, manual, manualGate, hasGate, skewLimit, trigger)
  {
    m := new Manager(anchors, master, manual, manualGate, hasGate, skewLimit, trigger);
    hide OpenGates;
    hide Opening;
    jobs := m.OpenTheGates();
  }
}
