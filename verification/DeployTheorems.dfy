/**
 What the driver's critical sections bring about: when a manual step opens and whom it lets go,
 the master-first handoff, the set-ready go, the answers to the agents, and what a status achieves.
 */
module DeployTheorems {
  import opened Basics
  import opened Sel
  import opened Deploy

  // ------------------------------------------------------------------ grants

  /** The node's ledger with a stage added at its end, unless it is there already. */
  function Extended(gates: seq<Stage>, stage: Stage): seq<Stage> { if stage in gates then gates else gates + [stage] }

  /** From d to the result, exactly the given nodes are given the stage, and their ledgers' writes are issued. */
  ghost predicate Grants(d: Deploy, r: (Deploy, set<Job>), stage: Stage, to: set<Host>) {
    && r.0.nodes.Keys == d.nodes.Keys
    && r.0 == d.(step := r.0.step, nodes := r.0.nodes)
    && (forall k :: k in d.nodes && k in to ==>
          && r.0.nodes[k] == d.nodes[k].(gates := Extended(d.nodes[k].gates, stage))
          && (d.hasGate ==> Job(k, Extended(d.nodes[k].gates, stage)) in r.1))
    && (forall k :: k in d.nodes && k !in to ==> r.0.nodes[k] == d.nodes[k])
    && (forall j :: j in r.1 ==> d.hasGate && j.host in to && j.host in d.nodes && j.stages == r.0.nodes[j.host].gates)
  }

  lemma GosGrant(d: Deploy, e: Deploy, targets: set<Host>, stage: Stage)
    requires e == d.(step := e.step)
    ensures Grants(d, WriteGos(e, targets, stage), stage, targets)
  {
    var (a, jobs) := WriteGos(e, targets, stage);
    AuthorizeGives(e, targets, stage);
    hide Authorize;
    forall k | k in d.nodes && k in targets && d.hasGate ensures Job(k, Extended(d.nodes[k].gates, stage)) in jobs {
      assert a.nodes[k].gates == Extended(d.nodes[k].gates, stage) != [];
    }
  }

  // --------------------------------------------------------- master-first handoff

  /**
   The handoff. When the master is done, an automatic deploy that does not hold its peers for the
   operator gives every node but the master its apply go and issues the write; in any other case
   nothing happens.
   */
  lemma MasterHandsOver(d: Deploy, h: Host)
    ensures if h == d.master && !d.manual && !d.manualGate
            then Grants(d, ReleasePeers(d, h), APPLY, set k | k in d.nodes && k != d.master)
            else ReleasePeers(d, h) == (d, {})
  {
    assert Peers(d) == set k | k in d.nodes && k != d.master;
    GosGrant(d, d, Peers(d), APPLY);
    hide WriteGos;
    hide Peers;
  }

  /** An automatic deploy whose every node is done gives its master, and only it, the set-ready go. */
  lemma SetReadyIsDue(d: Deploy)
    ensures if !d.manual && forall k :: k in d.nodes ==> d.nodes[k].state == Done
            then Grants(d, AutoSetReady(d), SET_READY, {d.master} * d.nodes.Keys)
            else AutoSetReady(d) == (d, {})
  {
    assert MasterOnly(d) == {d.master} * d.nodes.Keys;
    GosGrant(d, d, MasterOnly(d), SET_READY);
    hide WriteGos;
    hide MasterOnly;
  }

  /** The operator's release gives one node its apply go, whatever the others do. */
  lemma ReleaseLetsGo(d: Deploy, h: Host)
    ensures if h in d.nodes && d.hasGate then Grants(d, ReleaseNode(d, h), APPLY, {h}) else ReleaseNode(d, h) == (d, {})
  {
    if h in d.nodes && d.hasGate { GosGrant(d, d, {h}, APPLY); }
  }

  /** The handoff changes no state, no record of the master's, and of the peers only their ledgers. */
  lemma PeersAreLetGo(d: Deploy, h: Host, k: Host)
    requires k in d.nodes && !d.manual
    ensures var (e, jobs) := ReleasePeers(d, h);
            var lets := h == d.master && !d.manualGate && k != d.master;
            && e == d.(step := e.step, nodes := e.nodes) && e.nodes.Keys == d.nodes.Keys
            && e.nodes[k] == d.nodes[k].(gates := if lets then Extended(d.nodes[k].gates, APPLY) else d.nodes[k].gates)
            && (lets && d.hasGate ==> Job(k, e.nodes[k].gates) in jobs)
  {
    MasterHandsOver(d, h);
    hide ReleasePeers;
    hide Extended;
  }

  /** Set-ready changes nothing but the master's ledger, and that exactly when every node is done. */
  lemma MasterIsTold(d: Deploy, k: Host)
    requires k in d.nodes && !d.manual
    ensures var (e, jobs) := AutoSetReady(d);
            var told := k == d.master && forall j :: j in d.nodes ==> d.nodes[j].state == Done;
            && e == d.(step := e.step, nodes := e.nodes) && e.nodes.Keys == d.nodes.Keys
            && e.nodes[k] == d.nodes[k].(gates := if told then Extended(d.nodes[k].gates, SET_READY)
                                                  else d.nodes[k].gates)
            && (told && d.hasGate ==> Job(k, e.nodes[k].gates) in jobs)
  {
    SetReadyIsDue(d);
    hide AutoSetReady;
    hide Extended;
  }

  /**
   What a completion report sets off. The node is done; the master's lets every peer go; and if that
   was the last node the master is told to make the cluster ready.
   */
  lemma CompletionSetsOff(d: Deploy, h: Host, k: Host)
    requires h in d.nodes && k in d.nodes && !d.manual
    ensures var (d1, j1) := ReleasePeers(Touch(d, h, MarkApplied), h);
            var (d2, j2) := AutoSetReady(d1);
            var lets := h == d.master != k && !d.manualGate;
            var told := k == d.master && forall j :: j in d.nodes && j != h ==> d.nodes[j].state == Done;
            && d2.nodes.Keys == d.nodes.Keys
            && d2.nodes[k] == d.nodes[k].(
                 state := if k == h then Done else d.nodes[k].state,
                 gates := if lets then Extended(d.nodes[k].gates, APPLY)
                          else if told then Extended(d.nodes[k].gates, SET_READY) else d.nodes[k].gates)
            && ((lets || told) && d.hasGate ==> Job(k, d2.nodes[k].gates) in j1 + j2)
  {
    var d0 := Touch(d, h, MarkApplied);
    assert d0 == d.(nodes := d.nodes[h := d.nodes[h].(state := Done)]);
    hide Touch;
    var d1 := ReleasePeers(d0, h).0;
    forall j | j in d.nodes ensures d1.nodes.Keys == d.nodes.Keys && d1.nodes[j].state == d0.nodes[j].state {
      PeersAreLetGo(d0, h, j);
      hide ReleasePeers;
    }
    PeersAreLetGo(d0, h, k);
    MasterIsTold(d1, k);
    hide ReleasePeers;
    hide AutoSetReady;
    hide Extended;
  }

  // ------------------------------------------------------------ the manual steps

  /** A node's last preflight report passed, with carrier on every bond member and the clock within the limit. */
  predicate ReportedReady(n: Node, limit: real) {
    n.fabric.Some? && n.fabric.value.passed && n.fabric.value.carrierOk && -limit <= n.fabric.value.skew <= limit
  }

  /** What each step waits for, by name. */
  ghost predicate StepOver(d: Deploy) {
    || (d.step == STEP_PREFLIGHT && forall k :: k in d.nodes ==> ReportedReady(d.nodes[k], d.skewLimit))
    || (d.step == STEP_RESTORE && forall k :: k in d.nodes ==>
          d.nodes[k].state in {Rebooting, CheckedIn, Waiting, NetPreflight, Applying, Applied, Done})
    || (d.step == STEP_REBOOT && forall k :: k in d.nodes ==>
          d.nodes[k].state in {CheckedIn, Waiting, NetPreflight, Applying, Applied, Done})
    || (d.step == STEP_APPLY_MASTER && d.master in d.nodes && d.nodes[d.master].state == Done)
    || (d.step == STEP_APPLY_REST && forall k :: k in d.nodes ==> d.nodes[k].state == Done)
  }

  /** The stage that comes with a step, and who is given it. */
  ghost predicate GrantOf(d: Deploy, step: nat, stage: Stage, to: set<Host>) {
    || (step == STEP_RESTORE && stage == RESTORE && to == d.nodes.Keys)
    || (step == STEP_REBOOT && stage == REBOOT && to == d.nodes.Keys)
    || (step == STEP_APPLY_MASTER && stage == APPLY && to == {d.master} * d.nodes.Keys)
    || (step == STEP_APPLY_REST && stage == APPLY && to == d.nodes.Keys - {d.master})
    || (step == STEP_SET_READY && stage == SET_READY && to == {d.master} * d.nodes.Keys)
  }

  lemma RanksByName(s: State)
    ensures PipelineRank(s) >= 4 <==> s in {Rebooting, CheckedIn, Waiting, NetPreflight, Applying, Applied, Done}
    ensures PipelineRank(s) >= 5 <==> s in {CheckedIn, Waiting, NetPreflight, Applying, Applied, Done}
    ensures PipelineRank(s) >= 7 <==> s == Done
  {
  }

  /** The driver's barrier, read off ranks, is that. */
  lemma CanAdvanceMeans(d: Deploy)
    ensures CanAdvance(d) <==> d.manual && StepOver(d)
  {
    forall k | k in d.nodes ensures
      && (PipelineRank(d.nodes[k].state) >= 4 <==>
            d.nodes[k].state in {Rebooting, CheckedIn, Waiting, NetPreflight, Applying, Applied, Done})
      && (PipelineRank(d.nodes[k].state) >= 5 <==>
            d.nodes[k].state in {CheckedIn, Waiting, NetPreflight, Applying, Applied, Done})
      && (PipelineRank(d.nodes[k].state) >= 7 <==> d.nodes[k].state == Done)
    {
      RanksByName(d.nodes[k].state);
    }
    hide PipelineRank;
  }

  /**
   The manual steps. The operator's Next moves a manual deploy on exactly if its step is over,
   and then by one, and gives the nodes of the new step its stage; otherwise it does nothing.
   */
  lemma NextOpens(d: Deploy)
    ensures if d.manual && StepOver(d)
            then AdvanceStep(d).0.step == d.step + 1
                 && exists stage, to :: GrantOf(d, d.step + 1, stage, to) && Grants(d, AdvanceStep(d), stage, to)
            else AdvanceStep(d) == (d, {})
  {
    CanAdvanceMeans(d);
    if d.manual && StepOver(d) {
      var e := d.(step := d.step + 1);
      var (targets, stage) := StepGrant(e, e.step);
      hide CanAdvance;
      hide WriteGos;
      assert AdvanceStep(d) == WriteGos(e, targets, stage);
      GosGrant(d, e, targets, stage);
      assert GrantOf(d, d.step + 1, stage, targets);
      hide *;
    }
  }

  // ------------------------------------------------------------ answers to the agents

  /** A node that checks in is held exactly while it is not the master and the master is not done. */
  lemma HeldForTheMaster(d: Deploy, h: Host)
    ensures Hold(d, h) <==> h != d.master && !(d.master in d.nodes && d.nodes[d.master].state == Done)
  {
  }

  /**
   The first green light is given exactly when every node has reported itself ready and, in a
   manual deploy, the operator has opened the restore step. A node asking for it at the end of its
   preflight is shown restoring only if its restore go was read back, or there is no log to write
   to; until then it stays preflighted. No other node is touched.
   */
  lemma GreenLightIsGiven(d: Deploy, h: Host)
    ensures var (clear, t) := GreenLight1(d, h);
            && (clear <==>
                  && (d.manual ==> d.step >= STEP_RESTORE)
                  && forall k :: k in d.nodes ==> ReportedReady(d.nodes[k], d.skewLimit))
            && t == d.(nodes := t.nodes) && t.nodes.Keys == d.nodes.Keys
            && (forall k :: k in d.nodes && k != h ==> t.nodes[k] == d.nodes[k])
            && (h in d.nodes ==>
                  t.nodes[h] == if clear && d.nodes[h].state in {Preflighting, PreflightOk}
                                then d.nodes[h].(state := if d.hasGate && RESTORE !in d.nodes[h].ack then PreflightOk
                                                          else Restoring)
                                else d.nodes[h])
  {
  }

  /**
   The polled trigger is given exactly on request, once every node is done, and not before a manual
   deploy's last step.
   */
  lemma TriggerIsGiven(d: Deploy)
    ensures Trigger(d) <==>
              && d.setReady.trigger && (forall k :: k in d.nodes ==> d.nodes[k].state == Done)
              && (d.manual ==> d.step >= STEP_SET_READY)
  {
  }

  /** In a manual deploy an apply may proceed from the node's own step on; otherwise it always may. */
  lemma ApplyMayProceed(d: Deploy, h: Host)
    ensures ApplyProceed(d, h) <==> (d.manual ==> d.step >= if h == d.master then 4 else 5)
  {
  }

  // ----------------------------------------------------------- what a status achieves

  /**
   An applied or done record, whose in-band report was lost, makes its node done and says so,
   unless the node was done before; so the merge, too, sets off the handoff and set-ready.
   */
  lemma AppliedRecordCompletes(d: Deploy, h: Host, p: AgentPhase, detail: seq<Byte>, id: nat)
    requires h in d.nodes && (p == AApplied || p == ADone) && 0 !in detail
    ensures var s := DecodeCube(Record(id, Some(AgentOem(p, AOk, detail))));
            && s.Some?
            && var (t, completed) := MergeSel(d, h, s.value);
               && t == d.(nodes := d.nodes[h := d.nodes[h].(state := Done)])
               && (completed <==> d.nodes[h].state != Done)
  {
    ProgressIsRead(p, detail, id);
    hide AgentOem;
    hide DecodeCube;
    DoneIsLast(d.nodes[h].state);
    hide StateRank;
  }

  lemma DoneIsLast(s: State)
    ensures s == Done || StateRank(Done) > StateRank(s)
  {
  }

  /** An error record fails its node unless it is done, and completes nothing. */
  lemma ErrorRecordFails(d: Deploy, h: Host, p: AgentPhase, detail: seq<Byte>, id: nat)
    requires h in d.nodes && p != AReady && 0 !in detail
    ensures var s := DecodeCube(Record(id, Some(AgentOem(p, AErr, detail))));
            && s.Some?
            && var (t, completed) := MergeSel(d, h, s.value);
               && t == d.(nodes := d.nodes[h := d.nodes[h].(state := if d.nodes[h].state == Done then Done
                                                                     else Failed)])
               && !completed
  {
    ErrorIsRead(p, detail, id);
    StatusRoundTrip(p, AErr, detail, id);
    hide AgentOem;
    hide DecodeCube;
  }

  /** The master's set-ready result is the cluster's, not the node's; from another node it is ignored. */
  lemma ReadyRecordSettles(d: Deploy, h: Host, r: AgentResult, detail: seq<Byte>, id: nat)
    requires 0 !in detail
    ensures var s := DecodeCube(Record(id, Some(AgentOem(AReady, r, detail))));
            && s.Some?
            && MergeSel(d, h, s.value) ==
               (if h == d.master then d.(setReady := d.setReady.(ready := r != AErr), setReadyDone := r != AErr)
                else d, false)
  {
    StatusRoundTrip(AReady, r, detail, id);
    hide AgentOem;
    hide DecodeCube;
  }

  // ---------------------------------------------------------------- the handlers

  /**
   The handlers of an undisturbed deploy, out of band and in band, take a node through every state of
   the pipeline.
   */
  lemma PipelineIsWalked(anchor: nat, f: Fabric)
    requires f.passed
    ensures var n0 := NewNode(anchor);
            var n1 := Update(Update(n0, Advance(Netbooting)), PreflightProgress);
            var n2 := Update(n1, PreflightReport(f));
            var n3 := Update(n2, GreenLight(true));
            var n4 := Update(n3, RestoreDone);
            var n5 := Update(n4, WaitForMaster);
            var n6 := Update(n5, ApplyStarted(true));
            && n1.state == Preflighting && n2.state == PreflightOk && n2.fabric == Some(f) && n3.state == Restoring
            && n4.state == Rebooting && n5.state == Waiting && n6.state == Applying
            && Update(n6, MarkApplied).state == Done
            && Update(n4, ApplyStarted(false)).state == Waiting && Update(n4, ApplyStarted(true)).state == Applying
            && Update(n2, RestoreDone).state == Rebooting
            && Update(n4, NodeOp.CheckIn(true)).state == Waiting && Update(n5, NodeOp.CheckIn(false)).state == CheckedIn
            && Update(Update(n5, NodeOp.CheckIn(false)), NodeOp.Report(NetPreflight)).state == NetPreflight
  {
  }

  /** Imaging progress and boot errors change a node only before its agent has reported. */
  lemma ImagingStopsAtTheAgent(n: Node, to: State)
    ensures var early := {Pending, BmcPreflight, SetBootPxe, PowerCycle, Netbooting, Imaging, Imaged};
            && Update(n, Advance(to)) == (if n.state in early then n.(state := to) else n)
            && Update(n, NodeOp.Fail) == (if n.state in early then n.(state := Failed) else n)
  {
  }

  /**
   A rekick is taken exactly before the restore begins. It raises the counter the agent compares
   and takes the node's readiness back, so the restore step does not open until it reports anew.
   */
  lemma RekickClosesTheBarrier(d: Deploy, h: Host)
    requires h in d.nodes
    ensures var t := Touch(d, h, NodeOp.Rekick);
            if d.nodes[h].state in {Netbooting, Preflighting, PreflightOk}
            then h in t.nodes && t.nodes[h].rekicks == d.nodes[h].rekicks + 1 && t.nodes[h].state == Preflighting
                 && !ReportedReady(t.nodes[h], t.skewLimit) && (d.step == STEP_PREFLIGHT ==> !StepOver(t))
            else t == d
  {
  }

  /** A cancelled deploy fails whatever is not done, keeps every ledger, and re-asserts no gates of what it failed. */
  lemma CancelStopsTheRest(d: Deploy, h: Host)
    requires h in d.nodes
    ensures var t := CancelAll(d);
            && t.nodes.Keys == d.nodes.Keys
            && t.nodes[h] == d.nodes[h].(state := if d.nodes[h].state == Done then Done else Failed)
            && (d.nodes[h].state != Done ==> forall j :: j in Reconcile(t) ==> j.host != h)
  {
  }

  /**
   What a deploy opens with: in automatic mode with gates every node may restore and reboot and
   the master may apply, with one write of the whole ledger to a node; otherwise nothing is authorised.
   */
  lemma StartOpens(anchors: map<Host, nat>, master: Host, manual: bool, manualGate: bool, hasGate: bool,
                   skewLimit: real, trigger: bool)
    ensures var (d, jobs) := Start(anchors, master, manual, manualGate, hasGate, skewLimit, trigger);
            && d.nodes.Keys == anchors.Keys
            && (forall h :: h in anchors ==>
                  d.nodes[h] == NewNode(anchors[h]).(
                    gates := if manual || !hasGate then [] else if h == master then [RESTORE, REBOOT, APPLY]
                             else [RESTORE, REBOOT]))
            && (jobs == if manual || !hasGate then {} else set h | h in anchors :: Job(h, d.nodes[h].gates))
  {
    var d0 := Opening(anchors, master, manual, manualGate, hasGate, skewLimit, trigger);
    if hasGate && !manual {
      var d1 := Authorize(d0, d0.nodes.Keys, RESTORE);
      var d2 := Authorize(d1, d0.nodes.Keys, REBOOT);
      var d3 := Authorize(d2, MasterOnly(d0), APPLY);
      AuthorizeGives(d0, d0.nodes.Keys, RESTORE);
      AuthorizeGives(d1, d0.nodes.Keys, REBOOT);
      AuthorizeGives(d2, MasterOnly(d0), APPLY);
      assert Start(anchors, master, manual, manualGate, hasGate, skewLimit, trigger) == (d3, Flush(d3, Everyone(d3)));
      hide Authorize;
      hide Start;
      forall h | h in anchors
        ensures d3.nodes[h].gates == if h == master then [RESTORE, REBOOT, APPLY] else [RESTORE, REBOOT]
      {
        assert d1.nodes[h].gates == [RESTORE] && d2.nodes[h].gates == [RESTORE, REBOOT];
      }
    }
  }

  lemma AuthorizeGives(d: Deploy, targets: set<Host>, stage: Stage)
    ensures var a := Authorize(d, targets, stage);
            && a == d.(nodes := a.nodes) && a.nodes.Keys == d.nodes.Keys
            && forall k :: k in d.nodes ==>
                 a.nodes[k] == if k in targets then d.nodes[k].(gates := Extended(d.nodes[k].gates, stage))
                               else d.nodes[k]
  {
  }
}
