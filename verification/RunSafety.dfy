/** What every orderly history of the run manager keeps: runs stay consistent, and stay out of each other's way. */
module RunSafety {
  import opened Basics
  import opened RunPlans
  import opened RunManager

  // ------------------------------------------------------------- consistent runs

  predicate Over(st: StepState) { st == Finished || st == Skipped }

  /**
   A published run's record: what lies before the current step is over, what lies behind it has
   not begun, only a running run has an active step, and only a run whose every step is over has succeeded.
   */
  predicate Consistent(run: Run) {
    && Shaped(run.plan) && |run.steps| == |run.plan| && run.current <= |run.plan|
    && (forall i :: 0 <= i < run.current ==> Over(run.steps[i]))
    && (forall i :: run.current < i < |run.steps| ==> run.steps[i] == Pending)
    && (forall i :: 0 <= i < |run.steps| && run.steps[i] == Active ==> run.state == Running)
    && (run.state == Succeeded ==> forall i :: 0 <= i < |run.steps| ==> Over(run.steps[i]))
  }

  predicate Waiting(run: Run) {
    run.state == Running && (run.current < |run.steps| ==> run.steps[run.current] == Pending)
  }

  /** How a run stands while a call is at work on it. */
  predicate CallFits(run: Run, r: RunId, call: Call) {
    && run.closes == 0
    && match call.pc
       case Dialling => call.caller == Launcher && call.client == None && !run.published && !run.dialled
           && run.state == Running
                        && run.steps == [] && run.current == 0 && Shaped(run.plan)
       case RollingBack => call.caller == Launcher && call.client == Some(r) && !run.published && run.dialled
           && run.state == Running
       case _ =>
         && call.caller != Launcher && (run.manual <==> call.caller != AutoRunner)
         && call.client == Some(r) && run.published && run.dialled && Consistent(run)
         && (call.caller != CancelCall ==> call.plan == run.plan)
         && AtFits(run, call)
  }

  predicate AtFits(run: Run, call: Call) {
    match call.pc
    case LoopTop => call.caller == AutoRunner && Waiting(run)
    case Beginning => call.caller != CancelCall && Waiting(run) && call.at == run.current < |run.plan|
    case Executing =>
      && call.caller != CancelCall && run.state == Running && |run.steps| == |run.plan|
      && call.at == run.current < |run.plan| && run.steps[run.current] == Active
    case Advancing => call.caller == AutoRunner && StepOver(run)
    case Landing(failed) =>
      call.caller == NextCall && if failed then run.state == Broken && run.current < |run.plan| else StepOver(run)
    case Finishing => call.caller == AutoRunner && run.state == Running && run.current == |run.plan|
    case Terminating => run.state != Running || (call.caller != CancelCall && NoneActive(run))
    case Cleaning => run.state != Running
    case _ => false
  }

  predicate NoneActive(run: Run) { forall i :: 0 <= i < |run.steps| ==> run.steps[i] != Active }

  predicate StepOver(run: Run) {
    && |run.steps| == |run.plan| && run.current < |run.plan| && Over(run.steps[run.current])
    && (run.state == Running || (run.state == Succeeded && run.current == |run.plan| - 1))
  }

  /**
   How a run stands when nobody is at work on it: its client is closed exactly if it was dialled and
   the run is over.
   */
  predicate IdleFits(run: Run) {
    if run.published then
      Consistent(run) &&
      if run.state == Running then run.manual && run.dialled && run.closes == 0 && run.current < |run.plan|
          && Waiting(run)
      else run.closes == (if run.dialled then 1 else 0)
    else run.closes == (if run.dialled then 1 else 0)
  }

  // ------------------------------------------------------------------ the invariant

  predicate Idle(s: Sys, r: RunId) { forall t :: t in s.calls ==> s.calls[t].run != r }

  predicate Busying(call: Call) {
    call.caller == NextCall && (call.pc == Beginning || call.pc == Executing || call.pc.Landing?)
  }

  predicate Known(s: Sys) {
    && (forall r :: r in s.runs ==> r.serial < s.next)
    && (forall t :: t in s.calls ==> t < s.next && s.calls[t].run in s.runs)
    && (forall k :: k in s.installs ==> s.installs[k] in s.runs && s.installs[k].key == k)
  }

  /** One call to a run, one Next to a key. */
  predicate Apart(s: Sys) {
    && (forall t, u :: t in s.calls && u in s.calls && s.calls[t].run == s.calls[u].run ==> t == u)
    && (forall t, u :: t in s.calls && u in s.calls && SameNext(s.calls[t], s.calls[u]) ==> t == u)
  }

  predicate SameNext(t: Call, u: Call) {
    t.caller == NextCall && u.caller == NextCall && t.run.key == u.run.key
  }

  /** What the maps say of the run that holds a key. */
  predicate HolderFits(s: Sys, r: RunId)
    requires r in s.runs
  {
    && (Idle(s, r) ==> s.runs[r].published)
    && (s.runs[r].published && s.runs[r].state == Running ==>
          && r.key in s.clients && s.clients[r.key] == r
          && r.key in s.plans && s.plans[r.key] == s.runs[r].plan)
  }

  predicate Claims(s: Sys, t: nat)
    requires t in s.calls && s.calls[t].run in s.runs
  {
    var call := s.calls[t];
    var k := call.run.key;
    Holds(s, call.run) ==>
      && (call.caller == AutoRunner ==> k in s.cancels && s.cancels[k] == call.run)
      && (Busying(call) ==> k in s.busy)
      && (Busying(call) && k in s.cancelReq ==> s.runs[call.run].cancelled >= 1)
      && (call.caller == NextCall && call.pc == Terminating ==> s.runs[call.run].cancelled >= 1)
  }

  predicate Inv(s: Sys) {
    && Known(s) && Apart(s) && s.cancelReq <= s.busy
    && (forall t :: t in s.calls ==> CallFits(s.runs[s.calls[t].run], s.calls[t].run, s.calls[t]) && Claims(s, t))
    && (forall r :: r in s.runs && Idle(s, r) ==> IdleFits(s.runs[r]))
    && (forall k :: k in s.installs ==> HolderFits(s, s.installs[k]))
    && (forall k :: k in s.store ==> s.store[k].published && Consistent(s.store[k]))
  }

  // -------------------------------------------------------------------- orderly use

  /** A launch on this key would be turned away. */
  predicate Taken(s: Sys, k: Key) {
    k in s.installs && s.installs[k] in s.runs && s.runs[s.installs[k]].state == Running
  }

  predicate Automated(s: Sys, r: RunId) {
    exists t :: t in s.calls && s.calls[t].run == r && s.calls[t].caller == AutoRunner
  }

  /**
   A dialled launch may store its client under its key: it still holds the key, or no launched
   run is running under it and no automatic runner depends on the key's cancel entry.
   */
  predicate MayPublish(s: Sys, t: nat, saved: bool)
    requires AtPc(s, t, Dialling)
  {
    var r := s.calls[t].run;
    r.key in s.installs && s.installs[r.key] != r && s.installs[r.key] in s.runs ==>
      var h := s.installs[r.key];
      && !(s.runs[h].published && s.runs[h].state == Running)
      && (saved && !s.runs[r].manual ==> !Automated(s, h))
  }

  /** A Next on this key would claim a step. */
  predicate Claimable(s: Sys, k: Key) {
    && Taken(s, k) && s.runs[s.installs[k]].manual && k !in s.busy
    && s.runs[s.installs[k]].current < |if k in s.plans then s.plans[k] else []|
  }

  predicate NoNext(s: Sys, k: Key) {
    forall t :: t in s.calls && s.calls[t].caller == NextCall ==> s.calls[t].run.key != k
  }

  /** A Cancel on this key would end the run itself, leaving no word for anybody. */
  predicate Stoppable(s: Sys, k: Key) { k !in s.cancels && k !in s.busy && Taken(s, k) }

  /**
   What each event needs to leave the manager in order. A plan has the builders' shape; a launch
   that lost its reservation puts nothing in a running run's way; a Next that claims a step, and
   a Cancel that ends a run, find nobody else at work on it.
   */
  predicate Orderly(s: Sys, e: Event) {
    match e
    case Reserves(k, _, _, _, plan) => Taken(s, k) || Shaped(plan)
    case Publishes(t, saved) => AtPc(s, t, Dialling) ==> MayPublish(s, t, saved)
    case NextClaims(k) => Claimable(s, k) ==> Idle(s, s.installs[k]) && NoNext(s, k)
    case CancelComes(k) => Stoppable(s, k) ==> Idle(s, s.installs[k])
    case _ => true
  }

  predicate OrderlyHistory(events: seq<Event>) {
    forall i :: 0 <= i < |events| ==> Orderly(After(events[..i]), events[i])
  }

  // ------------------------------------------------- what one run's step can disturb

  /** From s to u only run r and its one call t may have changed. */
  predicate OneRun(s: Sys, u: Sys, r: RunId, t: nat) {
    && s.next <= u.next && r in u.runs && r.serial < u.next
    && (forall q :: q in u.runs && q != r ==> q in s.runs && u.runs[q] == s.runs[q])
    && (forall q :: q in s.runs ==> q in u.runs)
    && (forall v :: v in u.calls && v != t ==> v in s.calls && u.calls[v] == s.calls[v])
    && (forall v :: v in s.calls && v != t ==> v in u.calls)
    && (if t in s.calls then s.calls[t].run == r else Idle(s, r))
    && (t in u.calls ==> u.calls[t].run == r && t < u.next)
    && (t in u.calls && u.calls[t].caller == NextCall ==> NoOtherNext(s, r.key, t))
  }

  predicate NoOtherNext(s: Sys, k: Key, t: nat) {
    forall v :: v in s.calls && v != t && s.calls[v].caller == NextCall ==> s.calls[v].run.key != k
  }

  predicate SameAt<K, V(==)>(m: map<K, V>, n: map<K, V>, k: K) {
    (k in m <==> k in n) && (k in m && k in n ==> m[k] == n[k])
  }

  /** Keys held by other runs keep their entries; only a Next may clear the claim its own key carries. */
  predicate OthersKept(s: Sys, u: Sys, r: RunId, t: nat) {
    && u.cancelReq <= u.busy
    && (forall k :: k in u.installs ==> if u.installs[k] == r then r.key == k else KeyKept(s, u, r, t, k))
  }

  predicate KeyKept(s: Sys, u: Sys, r: RunId, t: nat, k: Key) {
    && SameAt(s.installs, u.installs, k) && SameAt(s.clients, u.clients, k)
    && SameAt(s.plans, u.plans, k) && SameAt(s.cancels, u.cancels, k)
    && (((k in s.busy <==> k in u.busy) && (k in s.cancelReq <==> k in u.cancelReq))
        || (t in s.calls && s.calls[t].caller == NextCall && r.key == k))
  }

  predicate StoreKept(s: Sys, u: Sys) {
    forall k :: k in u.store ==>
        (k in s.store && u.store[k] == s.store[k]) || (u.store[k].published && Consistent(u.store[k]))
  }

  /** The run and the call themselves are in order afterwards. */
  predicate Settled(u: Sys, r: RunId, t: nat)
    requires r in u.runs
  {
    && (if t in u.calls then u.calls[t].run == r && CallFits(u.runs[r], r, u.calls[t])
        && Claims(u, t) else IdleFits(u.runs[r]))
    && (Holds(u, r) ==> HolderFits(u, r))
  }

  lemma OtherCall(s: Sys, u: Sys, r: RunId, t: nat, v: nat)
    requires Inv(s) && OneRun(s, u, r, t) && OthersKept(s, u, r, t) && v in u.calls && v != t
    ensures u.calls[v].run in u.runs && CallFits(u.runs[u.calls[v].run], u.calls[v].run, u.calls[v]) && Claims(u, v)
    ensures u.calls[v].run != r
  {
    hide CallFits;
    hide IdleFits;
    hide HolderFits;
    hide Consistent;
    var q := s.calls[v].run;
    assert Apart(s) && Known(s);
    if Holds(u, q) {
      assert KeyKept(s, u, r, t, q.key);
    }
  }

  lemma OneRunKnown(s: Sys, u: Sys, r: RunId, t: nat)
    requires Inv(s) && OneRun(s, u, r, t) && OthersKept(s, u, r, t)
    ensures Known(u)
  {
    assert Known(s);
    hide Apart;
    hide CallFits;
    hide Claims;
    hide IdleFits;
    hide HolderFits;
    hide Consistent;
    forall k | k in u.installs ensures u.installs[k] in u.runs && u.installs[k].key == k {
      if u.installs[k] != r { assert KeyKept(s, u, r, t, k); }
    }
  }

  lemma OneRunApart(s: Sys, u: Sys, r: RunId, t: nat)
    requires Known(s) && Apart(s) && OneRun(s, u, r, t)
    ensures Apart(u)
  {
    forall v, w | v in u.calls && w in u.calls && SameNext(u.calls[v], u.calls[w]) ensures v == w {
      if v != t && w != t {
        assert SameNext(s.calls[v], s.calls[w]);
      }
    }
    hide SameNext;
    forall v, w | v in u.calls && w in u.calls && u.calls[v].run == u.calls[w].run ensures v == w {
      if v != t && w != t {
        assert s.calls[v].run == s.calls[w].run;
      }
    }
  }

  /** So a step confined to one run keeps the invariant if it leaves that run in order. */
  lemma OneRunKeeps(s: Sys, u: Sys, r: RunId, t: nat)
    requires Inv(s) && OneRun(s, u, r, t) && OthersKept(s, u, r, t) && StoreKept(s, u) && Settled(u, r, t)
    ensures Inv(u)
  {
    hide Inv;
    hide CallFits;
    hide Claims;
    hide IdleFits;
    hide HolderFits;
    hide Consistent;
    OneRunKnown(s, u, r, t);
    InvApart(s);
    OneRunApart(s, u, r, t);
    hide Apart;
    forall v | v in u.calls ensures CallFits(u.runs[u.calls[v].run], u.calls[v].run, u.calls[v]) && Claims(u, v) {
      if v != t { OtherCall(s, u, r, t, v); }
    }
    forall q | q in u.runs && Idle(u, q) ensures IdleFits(u.runs[q]) {
      if q != r {
        assert forall v :: v in s.calls && v != t ==> v in u.calls && u.calls[v] == s.calls[v];
        assert Idle(s, q);
        InvIdle(s, q);
      }
    }
    hide Idle;
    forall k | k in u.installs ensures HolderFits(u, u.installs[k]) {
      if u.installs[k] != r { OtherHolder(s, u, r, t, k); }
    }
    forall k | k in u.store ensures u.store[k].published && Consistent(u.store[k]) {
      if k in s.store { InvStored(s, k); }
    }
    Assemble(u);
  }

  lemma InvApart(s: Sys)
    requires Inv(s)
    ensures Known(s) && Apart(s) && s.cancelReq <= s.busy
  {
    hide Known;
    hide Apart;
    hide CallFits;
    hide Claims;
    hide IdleFits;
    hide HolderFits;
    hide Consistent;
  }

  /** What is on disk is consistent too. */
  lemma InvStored(s: Sys, k: Key)
    requires Inv(s) && k in s.store
    ensures s.store[k].published && Consistent(s.store[k])
  {
    hide Known;
    hide Apart;
    hide CallFits;
    hide Claims;
    hide IdleFits;
    hide HolderFits;
    hide Consistent;
  }

  lemma Assemble(u: Sys)
    requires Known(u) && Apart(u) && u.cancelReq <= u.busy
    requires forall t :: t in u.calls ==> CallFits(u.runs[u.calls[t].run], u.calls[t].run, u.calls[t]) && Claims(u, t)
    requires forall r :: r in u.runs && Idle(u, r) ==> IdleFits(u.runs[r])
    requires forall k :: k in u.installs ==> HolderFits(u, u.installs[k])
    requires forall k :: k in u.store ==> u.store[k].published && Consistent(u.store[k])
    ensures Inv(u)
  {
    hide CallFits;
    hide Claims;
    hide IdleFits;
    hide HolderFits;
    hide Consistent;
    hide Apart;
  }

  lemma OtherHolder(s: Sys, u: Sys, r: RunId, t: nat, k: Key)
    requires Inv(s) && OneRun(s, u, r, t) && KeyKept(s, u, r, t, k) && k in u.installs && u.installs[k] != r
    ensures u.installs[k] in u.runs && HolderFits(u, u.installs[k])
  {
    hide Inv;
    var q := u.installs[k];
    InvHolder(s, k);
    assert Idle(u, q) ==> Idle(s, q);
    hide Idle;
  }

  // --------------------------------------------------------------- event by event

  lemma CallAt(s: Sys, t: nat)
    requires Inv(s) && t in s.calls
    ensures var r := s.calls[t].run;
            && r in s.runs && r.serial < s.next && t < s.next && CallFits(s.runs[r], r, s.calls[t]) && Claims(s, t)
            && (Holds(s, r) ==> HolderFits(s, r))
            && (forall v :: v in s.calls && v != t ==> s.calls[v].run != r)
            && (s.calls[t].caller == NextCall ==> NoOtherNext(s, r.key, t))
            && s.cancelReq <= s.busy
            && (forall k :: k in s.installs ==> s.installs[k].key == k)
  {
    hide CallFits;
    hide Claims;
    hide IdleFits;
    hide HolderFits;
    hide Consistent;
    assert Apart(s) && Known(s);
    if s.calls[t].caller == NextCall {
      forall v | v in s.calls && v != t && s.calls[v].caller == NextCall
          ensures s.calls[v].run.key != s.calls[t].run.key {
        assert !SameNext(s.calls[t], s.calls[v]);
      }
    }
  }

  /** A step that changes nothing but its run's record, its call, and perhaps what is saved of the run. */
  function Quiet(s: Sys, t: nat, run: Run, call: Option<Call>, saved: bool): Sys
    requires t in s.calls
  {
    var r := s.calls[t].run;
    s.(runs := s.runs[r := run], calls := if call.None? then s.calls - {t} else s.calls[t := call.value],
    store := if saved then s.store[r.key := run] else s.store)
  }

  predicate QuietFits(r: RunId, run: Run, call: Call, run': Run, call': Option<Call>, saved: bool) {
    && (match call'
        case Some(a) =>
          && a.run == r && a.caller == call.caller && CallFits(run', r, a) && (Busying(a) ==> Busying(call))
          && (a.caller == NextCall && a.pc == Terminating ==> call.pc == Terminating)
        case None => run'.published && IdleFits(run'))
    && run'.cancelled == run.cancelled && run'.plan == run.plan
    && (run'.published && run'.state == Running ==> run.published && run.state == Running)
    && (saved ==> run'.published && Consistent(run'))
  }

  lemma QuietKeeps(s: Sys, t: nat, run: Run, call: Option<Call>, saved: bool)
    requires Inv(s) && t in s.calls && s.calls[t].run in s.runs
    requires QuietFits(s.calls[t].run, s.runs[s.calls[t].run], s.calls[t], run, call, saved)
    ensures Inv(Quiet(s, t, run, call, saved))
  {
    hide Inv;
    var r, u := s.calls[t].run, Quiet(s, t, run, call, saved);
    CallAt(s, t);
    hide CallFits;
    hide IdleFits;
    hide Consistent;
    assert OneRun(s, u, r, t) by { hide Claims; hide HolderFits; hide Busying; }
    assert OthersKept(s, u, r, t) by { hide Claims; hide HolderFits; hide OneRun; hide Busying; }
    assert StoreKept(s, u) by { hide Claims; hide HolderFits; hide OneRun; hide OthersKept; hide Busying; }
    assert Settled(u, r, t) by { hide OneRun; hide OthersKept; hide StoreKept; }
    hide *;
    OneRunKeeps(s, u, r, t);
  }

  lemma LoopKeeps(s: Sys, t: nat)
    requires Inv(s) && AtPc(s, t, LoopTop)
    ensures Inv(LoopBody(s, t))
  {
    hide Inv;
    CallAt(s, t);
    hide Claims;
    hide HolderFits;
    var run, call := s.runs[s.calls[t].run], s.calls[t];
    var call' := if run.interrupted then call.(pc := Terminating)
                 else if run.current >= |call.plan| then call.(pc := Finishing)
                 else call.(at := run.current, pc := Beginning);
    assert QuietFits(call.run, run, call, run, Some(call'), false);
    assert LoopBody(s, t) == Quiet(s, t, run, Some(call'), false);
    hide *;
    QuietKeeps(s, t, run, Some(call'), false);
  }

  lemma BeginKeeps(s: Sys, t: nat)
    requires Inv(s) && AtPc(s, t, Beginning)
    ensures Inv(Begin(s, t))
  {
    hide Inv;
    CallAt(s, t);
    hide Claims;
    hide HolderFits;
    var run, call := s.runs[s.calls[t].run], s.calls[t];
    var run' := run.(steps := run.steps[call.at := Active]);
    var call' := call.(pc := Executing);
    assert QuietFits(call.run, run, call, run', Some(call'), true);
    hide *;
    QuietKeeps(s, t, run', Some(call'), true);
    assert Begin(s, t) == Quiet(s, t, run', Some(call'), true) by { BeginIsQuiet(s, t); }
  }

  lemma BeginIsQuiet(s: Sys, t: nat)
    requires AtPc(s, t, Beginning) && s.calls[t].at < |s.runs[s.calls[t].run].steps|
    ensures var run, call := s.runs[s.calls[t].run], s.calls[t];
            Begin(s, t) == Quiet(s, t, run.(steps := run.steps[call.at := Active]), Some(call.(pc := Executing)), true)
  {
  }

  lemma AdvanceKeeps(s: Sys, t: nat)
    requires Inv(s) && AtPc(s, t, Advancing)
    ensures Inv(Advance(s, t))
  {
    hide Inv;
    CallAt(s, t);
    hide Claims;
    hide HolderFits;
    var run, call := s.runs[s.calls[t].run], s.calls[t];
    var on := run.state == Running;
    var run' := if on then run.(current := run.current + 1) else run;
    var call' := call.(pc := if on then LoopTop else Cleaning);
    assert QuietFits(call.run, run, call, run', Some(call'), on) by { hide Quiet; hide Advance; }
    assert Advance(s, t) == Quiet(s, t, run', Some(call'), on) by { hide QuietFits; hide CallFits; hide Consistent; }
    hide *;
    QuietKeeps(s, t, run', Some(call'), on);
  }

  lemma TerminateKeeps(s: Sys, t: nat)
    requires Inv(s) && AtPc(s, t, Terminating)
    ensures Inv(Terminate(s, t))
  {
    hide Inv;
    CallAt(s, t);
    hide Claims;
    hide HolderFits;
    var run, call := s.runs[s.calls[t].run], s.calls[t];
    var run' := run.(state := Cancelled, steps := Stopped(run.steps));
    var call' := call.(pc := Cleaning);
    assert QuietFits(call.run, run, call, run', Some(call'), true);
    assert Terminate(s, t) == Quiet(s, t, run', Some(call'), true);
    hide *;
    QuietKeeps(s, t, run', Some(call'), true);
  }

  // ----------------------------------------------------- steps that may cascade

  predicate Submap<K, V(==)>(m: map<K, V>, n: map<K, V>) {
    forall k :: k in m ==> k in n && m[k] == n[k]
  }

  lemma CascadeShrinks(s: Sys, r: RunId)
    requires r in s.runs
    ensures var u := Cascade(s, r);
            Submap(u.installs, s.installs) && Submap(u.store, s.store)
                && u == s.(installs := u.installs, store := u.store)
  {
    hide Dependent;
  }

  /** Dropping install and saved records takes claims away but makes none. */
  lemma FewerHolders(s: Sys, installs: map<Key, RunId>, store: map<Key, Run>)
    requires Inv(s) && Submap(installs, s.installs) && Submap(store, s.store)
    ensures Inv(s.(installs := installs, store := store))
  {
    hide Inv;
    hide CallFits;
    hide Claims;
    hide IdleFits;
    hide HolderFits;
    hide Consistent;
    var u := s.(installs := installs, store := store);
    InvApart(s);
    ApartByCalls(s, u);
    assert Known(u);
    hide Apart;
    forall v | v in u.calls ensures CallFits(u.runs[u.calls[v].run], u.calls[v].run, u.calls[v]) && Claims(u, v) {
      CallAt(s, v);
      ClaimsShrink(s, u, v);
    }
    forall q | q in u.runs && Idle(u, q) ensures IdleFits(u.runs[q]) {
      assert Idle(s, q);
      InvIdle(s, q);
    }
    hide Idle;
    forall k | k in u.installs ensures HolderFits(u, u.installs[k]) {
      InvHolder(s, k);
      HolderByCalls(s, u, u.installs[k]);
    }
    forall k | k in u.store ensures u.store[k].published && Consistent(u.store[k]) {
      InvStored(s, k);
    }
    Assemble(u);
  }

  lemma HolderByCalls(s: Sys, u: Sys, r: RunId)
    requires r in s.runs && HolderFits(s, r) && u == s.(installs := u.installs, store := u.store)
    ensures HolderFits(u, r)
  {
    assert Idle(u, r) ==> Idle(s, r);
  }

  lemma ClaimsShrink(s: Sys, u: Sys, v: nat)
    requires Known(s) && v in s.calls && Claims(s, v)
    requires Submap(u.installs, s.installs) && u == s.(installs := u.installs, store := u.store)
    ensures v in u.calls && u.calls[v].run in u.runs && Claims(u, v)
  {
  }

  lemma CascadeKeeps(s: Sys, r: RunId)
    requires Inv(s) && r in s.runs
    ensures Inv(Cascade(s, r))
  {
    hide *;
    CascadeShrinks(s, r);
    FewerHolders(s, Cascade(s, r).installs, Cascade(s, r).store);
  }

  lemma ApartByCalls(s: Sys, u: Sys)
    requires Apart(s) && u.calls == s.calls
    ensures Apart(u)
  {
  }

  lemma CascadeLater(s: Sys, r: RunId, t: nat, pc: Pc)
    requires r in s.runs && t in s.calls
    ensures t in Cascade(s, r).calls && Go(Cascade(s, r), t, pc) == Cascade(Go(s, t, pc), r)
  {
  }

  predicate EndFits(call: Call, run: Run, o: Outcome) {
    call.at < |run.steps| && call.at < |call.plan| && Possible(call.plan[call.at], o)
  }

  function EndRun(run: Run, call: Call, o: Outcome): Run
    requires EndFits(call, run, o)
  {
    Ended(run, call.at, call.plan, o, call.caller == AutoRunner)
  }

  function EndCall(call: Call, o: Outcome): Call {
    var auto := call.caller == AutoRunner;
    if o == Failed then call.(pc := if auto then Cleaning else Landing(true))
    else call.(pc := if auto then Advancing else Landing(false))
  }

  /** Ending a step, whatever its outcome, leaves the run consistent: a completing step is the last one. */
  lemma EndQuietFits(r: RunId, run: Run, call: Call, o: Outcome)
    requires CallFits(run, r, call) && call.pc == Executing && call.run == r && EndFits(call, run, o)
    ensures QuietFits(r, run, call, EndRun(run, call, o), Some(EndCall(call, o)), true)
  {
    var run' := EndRun(run, call, o);
    assert forall i :: 0 <= i < |run.steps| && i != call.at ==> run'.steps[i] == run.steps[i];
    if o != Failed && call.plan[call.at] == Complete {
      assert call.at == |run.plan| - 1;
    }
    assert Consistent(run');
    hide Consistent;
  }

  lemma EndKeeps(s: Sys, t: nat, o: Outcome)
    requires Inv(s) && AtPc(s, t, Executing)
    ensures Inv(End(s, t, o))
  {
    hide Inv;
    CallAt(s, t);
    hide Claims;
    hide HolderFits;
    var r := s.calls[t].run;
    var run, call := s.runs[r], s.calls[t];
    if EndFits(call, run, o) {
      EndQuietFits(r, run, call, o);
      hide CallFits;
      hide QuietFits;
      var u := Quiet(s, t, EndRun(run, call, o), Some(EndCall(call, o)), true);
      QuietKeeps(s, t, EndRun(run, call, o), Some(EndCall(call, o)), true);
      EndIsQuiet(s, t, o);
      hide End;
      hide Quiet;
      hide Cascade;
      hide EndRun;
      hide EndCall;
      hide EndFits;
      if o != Failed { CascadeKeeps(u, r); }
    }
  }

  lemma EndIsQuiet(s: Sys, t: nat, o: Outcome)
    requires AtPc(s, t, Executing) && EndFits(s.calls[t], s.runs[s.calls[t].run], o)
    ensures var r := s.calls[t].run;
            var u := Quiet(s, t, EndRun(s.runs[r], s.calls[t], o), Some(EndCall(s.calls[t], o)), true);
            r in u.runs && End(s, t, o) == if o == Failed then u else Cascade(u, r)
  {
    var r := s.calls[t].run;
    var v := Save(Put(s, r, EndRun(s.runs[r], s.calls[t], o)), r);
    CascadeLater(v, r, t, EndCall(s.calls[t], o).pc);
    hide Cascade;
  }

  lemma CompleteKeeps(s: Sys, t: nat)
    requires Inv(s) && AtPc(s, t, Finishing)
    ensures Inv(Conclude(s, t))
  {
    hide Inv;
    CallAt(s, t);
    hide Claims;
    hide HolderFits;
    var r := s.calls[t].run;
    var run', call' := s.runs[r].(state := Succeeded), s.calls[t].(pc := Cleaning);
    assert QuietFits(r, s.runs[r], s.calls[t], run', Some(call'), true);
    hide CallFits;
    hide QuietFits;
    var u := Quiet(s, t, run', Some(call'), true);
    QuietKeeps(s, t, run', Some(call'), true);
    assert Conclude(s, t) == Cascade(u, r) by { CascadeLater(Save(Put(s, r, run'), r), r, t, Cleaning); hide Cascade; }
    hide Quiet;
    CascadeKeeps(u, r);
  }

  // -------------------------------------------------- steps that change the maps

  /** From s to u the call t leaves, its run becomes `run`, and nothing is saved. */
  predicate Left(s: Sys, u: Sys, t: nat, run: Run)
    requires t in s.calls
  {
    u.runs == s.runs[s.calls[t].run := run] && u.calls == s.calls - {t} && u.store == s.store && u.next == s.next
  }

  lemma LeftKeeps(s: Sys, u: Sys, t: nat, run: Run)
    requires Inv(s) && t in s.calls && Left(s, u, t, run) && IdleFits(run)
    requires OthersKept(s, u, s.calls[t].run, t)
    requires Holds(u, s.calls[t].run) ==> run.published && run.state != Running
    ensures Inv(u)
  {
    hide Inv;
    var r := s.calls[t].run;
    CallAt(s, t);
    hide CallFits;
    hide Claims;
    hide IdleFits;
    hide OthersKept;
    assert OneRun(s, u, r, t) by { hide HolderFits; }
    hide OneRun;
    assert StoreKept(s, u) && Settled(u, r, t);
    hide *;
    OneRunKeeps(s, u, r, t);
  }

  lemma CleanKeeps(s: Sys, t: nat)
    requires Inv(s) && AtPc(s, t, Cleaning)
    ensures Inv(Clean(s, t))
  {
    hide Inv;
    CallAt(s, t);
    hide Claims;
    hide HolderFits;
    var r, u := s.calls[t].run, Clean(s, t);
    var run := s.runs[r].(closes := 1);
    assert s.calls[t].client == Some(r) && IdleFits(run) && run.published && run.state != Running
        && s.runs[r].closes == 0;
    hide CallFits;
    hide IdleFits;
    hide Consistent;
    assert Left(s, u, t, run);
    assert OthersKept(s, u, r, t) by { hide Left; }
    hide *;
    LeftKeeps(s, u, t, run);
  }

  lemma RollbackMoves(s: Sys, t: nat)
    requires t in s.calls && s.calls[t].run in s.runs
    requires s.calls[t].client == None || s.calls[t].client == Some(s.calls[t].run)
    ensures var r, u := s.calls[t].run, Rollback(s, t);
            var dialled := s.calls[t].client.Some?;
            && u.runs == s.runs[r := s.runs[r].(closes := s.runs[r].closes + if dialled then 1 else 0)]
            && u.calls == s.calls - {t} && u.next == s.next && u.store == s.store && u.cancels == s.cancels
            && u.busy == s.busy && u.cancelReq == s.cancelReq && !Holds(u, r)
            && (forall k :: k in u.installs ==>
                SameAt(s.installs, u.installs, k) && SameAt(s.clients, u.clients, k) && SameAt(s.plans, u.plans, k))
  {
  }

  lemma RollbackKeeps(s: Sys, t: nat)
    requires Inv(s) && (AtPc(s, t, Dialling) || AtPc(s, t, RollingBack))
    ensures Inv(Rollback(s, t))
  {
    hide Inv;
    CallAt(s, t);
    hide Claims;
    hide HolderFits;
    var r, u := s.calls[t].run, Rollback(s, t);
    var run := s.runs[r].(closes := if s.runs[r].dialled then 1 else 0);
    assert s.calls[t].client == (if run.dialled then Some(r) else None) && IdleFits(run) && s.runs[r].closes == 0;
    hide CallFits;
    hide IdleFits;
    hide Consistent;
    RollbackMoves(s, t);
    hide Rollback;
    assert Left(s, u, t, run);
    assert OthersKept(s, u, r, t) by { hide Left; }
    hide *;
    LeftKeeps(s, u, t, run);
  }

  lemma PublishedFits(r: RunId, run: Run, call: Call, saved: bool)
    requires CallFits(run, r, call) && call.pc == Dialling
    ensures var run' := PublishedRun(run, saved);
            && (saved ==> run'.published && Consistent(run'))
            && (if !saved then CallFits(run', r, call.(client := Some(r), pc := RollingBack))
                else if run.manual then IdleFits(run')
                else CallFits(run', r, Call(AutoRunner, r, Some(r), run.plan, 0, LoopTop)))
  {
  }

  lemma PublishMoves(s: Sys, t: nat, saved: bool)
    requires AtPc(s, t, Dialling)
    ensures var r, u := s.calls[t].run, Publish(s, t, saved);
            var run := s.runs[r];
            && u.runs == s.runs[r := PublishedRun(run, saved)] && u.next == s.next && u.installs == s.installs
            && u.busy == s.busy && u.cancelReq == s.cancelReq
            && u.store == (if saved then s.store[r.key := PublishedRun(run, true)] else s.store)
            && u.calls == (if !saved then s.calls[t := s.calls[t].(client := Some(r), pc := RollingBack)]
                           else if run.manual then s.calls - {t}
                           else s.calls[t := Call(AutoRunner, r, Some(r), run.plan, 0, LoopTop)])
            && forall k :: k != r.key ==>
                SameAt(s.clients, u.clients, k) && SameAt(s.plans, u.plans, k) && SameAt(s.cancels, u.cancels, k)
  {
  }

  lemma HeldPublishKeeps(s: Sys, t: nat, saved: bool)
    requires Inv(s) && AtPc(s, t, Dialling) && Holds(s, s.calls[t].run)
    ensures Inv(Publish(s, t, saved))
  {
    hide Inv;
    CallAt(s, t);
    hide Claims;
    hide HolderFits;
    var r, u := s.calls[t].run, Publish(s, t, saved);
    var run := s.runs[r];
    assert s.calls[t].caller == Launcher && !run.published;
    PublishedFits(r, run, s.calls[t], saved);
    PublishMoves(s, t, saved);
    PublishClaims(s, t, saved);
    hide Publish;
    hide CallFits;
    hide IdleFits;
    hide Consistent;
    assert OneRun(s, u, r, t) by { hide PublishedRun; }
    assert StoreKept(s, u) by { hide OneRun; }
    assert Settled(u, r, t) by { hide OneRun; hide StoreKept; hide PublishedRun; }
    assert OthersKept(s, u, r, t) by { hide OneRun; hide Settled; hide StoreKept; hide PublishedRun; }
    hide *;
    OneRunKeeps(s, u, r, t);
  }

  lemma PublishClaims(s: Sys, t: nat, saved: bool)
    requires AtPc(s, t, Dialling) && s.calls[t].caller == Launcher
    ensures var r, u := s.calls[t].run, Publish(s, t, saved);
            r in u.runs && (t in u.calls ==> u.calls[t].run == r && Claims(u, t)) && HolderFits(u, r)
  {
    if t in Publish(s, t, saved).calls {
      assert !Idle(Publish(s, t, saved), s.calls[t].run);
    }
  }

  /** A key's client, plan and cancel entries may be replaced as long as no run that holds the key depends on them. */
  lemma EntriesKeep(s: Sys, k: Key, r: RunId, plan: seq<Kind>, cancels: map<Key, RunId>)
    requires Inv(s) && (cancels == s.cancels || cancels == s.cancels[k := r])
    requires k in s.installs && s.installs[k] in s.runs ==>
               var h := s.installs[k];
               && !(s.runs[h].published && s.runs[h].state == Running)
               && (cancels != s.cancels ==> !Automated(s, h))
    ensures Inv(s.(clients := s.clients[k := r], plans := s.plans[k := plan], cancels := cancels))
  {
    hide Inv;
    hide CallFits;
    hide IdleFits;
    hide Consistent;
    var u := s.(clients := s.clients[k := r], plans := s.plans[k := plan], cancels := cancels);
    InvApart(s);
    ApartByCalls(s, u);
    assert Known(u);
    hide Apart;
    forall v | v in u.calls ensures CallFits(u.runs[u.calls[v].run], u.calls[v].run, u.calls[v]) && Claims(u, v) {
      CallAt(s, v);
      hide HolderFits;
    }
    hide Claims;
    forall q | q in u.runs && Idle(u, q) ensures IdleFits(u.runs[q]) {
      assert Idle(s, q);
      InvIdle(s, q);
    }
    forall j | j in u.installs ensures HolderFits(u, u.installs[j]) {
      InvHolder(s, j);
      assert Idle(u, u.installs[j]) ==> Idle(s, u.installs[j]);
    }
    hide HolderFits;
    hide Idle;
    forall j | j in u.store ensures u.store[j].published && Consistent(u.store[j]) {
      InvStored(s, j);
    }
    Assemble(u);
  }

  /** What a launch does when it publishes, but for the entries of its key. */
  function PublishRecord(s: Sys, t: nat, saved: bool): Sys
    requires t in s.calls && s.calls[t].run in s.runs
  {
    var u := Publish(s, t, saved);
    s.(runs := u.runs, calls := u.calls, store := u.store)
  }

  /** So much of it keeps the invariant whoever holds the key. */
  lemma PublishRecordKeeps(s: Sys, t: nat, saved: bool)
    requires Inv(s) && AtPc(s, t, Dialling) && !Holds(s, s.calls[t].run)
    ensures Inv(PublishRecord(s, t, saved)) && OneRun(s, PublishRecord(s, t, saved), s.calls[t].run, t)
  {
    hide Inv;
    CallAt(s, t);
    hide HolderFits;
    var r, u := s.calls[t].run, PublishRecord(s, t, saved);
    PublishedFits(r, s.runs[r], s.calls[t], saved);
    PublishMoves(s, t, saved);
    assert s.calls[t].caller == Launcher;
    hide Publish;
    hide CallFits;
    hide IdleFits;
    hide Consistent;
    assert OneRun(s, u, r, t) by { hide PublishedRun; hide Claims; }
    assert StoreKept(s, u) by { hide OneRun; hide Claims; }
    assert Settled(u, r, t) by { hide OneRun; hide StoreKept; hide PublishedRun; }
    assert OthersKept(s, u, r, t) by { hide OneRun; hide Settled; hide StoreKept; hide PublishedRun; hide Claims; }
    hide *;
    OneRunKeeps(s, u, r, t);
  }

  lemma PublishIsRecord(s: Sys, t: nat, saved: bool)
    requires AtPc(s, t, Dialling)
    ensures var r, q, u := s.calls[t].run, PublishRecord(s, t, saved), Publish(s, t, saved);
            && u == q.(clients := q.clients[r.key := r], plans := q.plans[r.key := s.runs[r].plan],
                cancels := u.cancels)
            && u.cancels == (if saved && !s.runs[r].manual then q.cancels[r.key := r] else q.cancels)
            && q.installs == s.installs
  {
  }

  lemma LatePublishKeeps(s: Sys, t: nat, saved: bool)
    requires Inv(s) && AtPc(s, t, Dialling) && !Holds(s, s.calls[t].run) && MayPublish(s, t, saved)
    ensures Inv(Publish(s, t, saved))
  {
    hide Inv;
    var r, q, u := s.calls[t].run, PublishRecord(s, t, saved), Publish(s, t, saved);
    PublishIsRecord(s, t, saved);
    PublishRecordKeeps(s, t, saved);
    StillNotAutomated(s, q, r, t);
    hide PublishRecord;
    hide Publish;
    hide OneRun;
    hide Automated;
    EntriesKeep(q, r.key, r, s.runs[r].plan, u.cancels);
  }

  lemma StillNotAutomated(s: Sys, u: Sys, r: RunId, t: nat)
    requires OneRun(s, u, r, t)
    ensures forall h :: h != r && h in u.runs ==> h in s.runs && u.runs[h] == s.runs[h]
    ensures forall h :: h != r && Automated(u, h) ==> Automated(s, h)
  {
  }

  lemma PublishKeeps(s: Sys, t: nat, saved: bool)
    requires Inv(s) && AtPc(s, t, Dialling) && MayPublish(s, t, saved)
    ensures Inv(Publish(s, t, saved))
  {
    hide Inv;
    hide Publish;
    hide MayPublish;
    if Holds(s, s.calls[t].run) { HeldPublishKeeps(s, t, saved); } else { LatePublishKeeps(s, t, saved); }
  }

  lemma ReserveKeeps(s: Sys, k: Key, host: string, uninstall: bool, manual: bool, plan: seq<Kind>)
    requires Inv(s) && (Taken(s, k) || Shaped(plan))
    ensures Inv(Reserve(s, k, host, uninstall, manual, plan))
  {
    hide Inv;
    var u := Reserve(s, k, host, uninstall, manual, plan);
    if u != s {
      var r := RunId(k, s.next);
      NewRun(s, k);
      assert Shaped(plan);
      hide IdleFits;
      hide Consistent;
      assert OneRun(s, u, r, s.next) && StoreKept(s, u) && Settled(u, r, s.next);
      assert OthersKept(s, u, r, s.next) by { hide OneRun; hide Settled; hide StoreKept; }
      hide *;
      OneRunKeeps(s, u, r, s.next);
    }
  }

  /** Serial numbers are not reused, and claims on a key's step go with a Next in flight. */
  lemma NewRun(s: Sys, k: Key)
    requires Inv(s)
    ensures RunId(k, s.next) !in s.runs && s.next !in s.calls && Idle(s, RunId(k, s.next)) && s.cancelReq <= s.busy
    ensures forall j :: j in s.installs ==> s.installs[j].key == j && s.installs[j] != RunId(k, s.next)
  {
    hide CallFits;
    hide Claims;
    hide IdleFits;
    hide HolderFits;
    hide Apart;
    hide Consistent;
    assert Known(s);
  }

  lemma InvHolder(s: Sys, k: Key)
    requires Inv(s) && k in s.installs
    ensures var r := s.installs[k]; r in s.runs && r.key == k && r.serial < s.next && HolderFits(s, r)
  {
    hide HolderFits;
    hide CallFits;
    hide Claims;
    hide IdleFits;
    hide Apart;
    hide Consistent;
    assert Known(s);
  }

  lemma InvIdle(s: Sys, r: RunId)
    requires Inv(s) && r in s.runs && Idle(s, r)
    ensures IdleFits(s.runs[r])
  {
    hide HolderFits;
    hide CallFits;
    hide Claims;
    hide IdleFits;
    hide Apart;
    hide Consistent;
  }

  /** What is known of a key's holder that nobody is at work on. */
  lemma IdleHolder(s: Sys, k: Key)
    requires Inv(s) && Taken(s, k) && Idle(s, s.installs[k])
    ensures var r := s.installs[k];
            && r.key == k && r.serial < s.next && Holds(s, r) && IdleFits(s.runs[r]) && HolderFits(s, r)
            && s.runs[r].published
  {
    hide Inv;
    InvHolder(s, k);
    InvIdle(s, s.installs[k]);
  }

  lemma ClaimKeeps(s: Sys, k: Key)
    requires Inv(s) && Orderly(s, NextClaims(k))
    ensures Inv(ClaimNext(s, k))
  {
    hide Inv;
    var u := ClaimNext(s, k);
    if u != s {
      var r := s.installs[k];
      IdleHolder(s, k);
      NewRun(s, k);
      assert CallFits(s.runs[r], r, u.calls[s.next]);
      hide CallFits;
      hide IdleFits;
      hide Consistent;
      assert OneRun(s, u, r, s.next) && StoreKept(s, u);
      assert Settled(u, r, s.next) by { hide OneRun; hide StoreKept; }
      assert OthersKept(s, u, r, s.next) by { hide OneRun; hide Settled; hide StoreKept; }
      hide *;
      OneRunKeeps(s, u, r, s.next);
    }
  }

  /** However a Next lands, the run is left in order. */
  lemma LandedFits(r: RunId, run: Run, call: Call, cancelled: bool, failed: bool)
    requires CallFits(run, r, call) && call.pc == Landing(failed)
    ensures var moves := !cancelled && !failed && run.state == Running;
            var run' := if moves then LandedRun(run, |call.plan|) else run;
            && call.caller == NextCall && run'.published && run'.plan == run.plan && run'.cancelled == run.cancelled
            && (moves ==> Consistent(run'))
            && (if cancelled then CallFits(run, r, call.(pc := Terminating))
                else if run'.state != Running then CallFits(run', r, call.(pc := Cleaning))
                else IdleFits(run'))
  {
    assert |call.plan| == |run.plan|;
    if !failed {
      assert Over(run.steps[run.current]);
    }
  }

  /** What it touches, and what it does not. */
  lemma LandMoves(s: Sys, t: nat, failed: bool)
    requires Inv(s) && AtPc(s, t, Landing(failed))
    ensures var r, u := s.calls[t].run, LandNext(s, t, failed);
            OneRun(s, u, r, t) && StoreKept(s, u) && OthersKept(s, u, r, t)
  {
    hide Inv;
    hide CallFits;
    hide Consistent;
    CallAt(s, t);
    hide Claims;
    hide HolderFits;
    var r, k := s.calls[t].run, s.calls[t].run.key;
    var u := LandNext(s, t, failed);
    LandedFits(r, s.runs[r], s.calls[t], k in s.cancelReq, failed);
    hide LandedRun;
    hide IdleFits;
    assert OneRun(s, u, r, t);
    hide OneRun;
    assert StoreKept(s, u);
    hide StoreKept;
    assert OthersKept(s, u, r, t);
  }

  lemma LandKeeps(s: Sys, t: nat, failed: bool)
    requires Inv(s) && AtPc(s, t, Landing(failed))
    ensures Inv(LandNext(s, t, failed))
  {
    hide Inv;
    hide CallFits;
    hide IdleFits;
    hide Consistent;
    hide OneRun;
    hide StoreKept;
    hide OthersKept;
    CallAt(s, t);
    var r, k := s.calls[t].run, s.calls[t].run.key;
    var u := LandNext(s, t, failed);
    LandedFits(r, s.runs[r], s.calls[t], k in s.cancelReq, failed);
    LandMoves(s, t, failed);
    assert Settled(u, r, t);
    hide *;
    OneRunKeeps(s, u, r, t);
  }

  /** The flag of an automatic run, or of one already over, disturbs nothing. */
  lemma InterruptKeeps(s: Sys, r: RunId)
    requires Inv(s) && r in s.runs
    ensures Inv(Put(s, r, s.runs[r].(interrupted := true)))
  {
    hide Inv;
    if t :| t in s.calls && s.calls[t].run == r {
      CallAt(s, t);
      hide Claims;
      hide HolderFits;
      var run := s.runs[r].(interrupted := true);
      assert QuietFits(r, s.runs[r], s.calls[t], run, Some(s.calls[t]), false);
      assert Put(s, r, run) == Quiet(s, t, run, Some(s.calls[t]), false);
      hide *;
      QuietKeeps(s, t, run, Some(s.calls[t]), false);
    } else {
      assert Idle(s, r);
      InvIdle(s, r);
      IdleStep(s, r, s.runs[r].(interrupted := true));
    }
  }

  lemma IdleStep(s: Sys, r: RunId, run: Run)
    requires Inv(s) && r in s.runs && Idle(s, r) && IdleFits(run)
    requires run.published == s.runs[r].published && run.state == s.runs[r].state && run.plan == s.runs[r].plan
    ensures Inv(Put(s, r, run))
  {
    hide Inv;
    var u := Put(s, r, run);
    NewRun(s, r.key);
    InvFacts(s, r);
    hide IdleFits;
    assert OneRun(s, u, r, s.next) by { hide HolderFits; }
    assert StoreKept(s, u) by { hide HolderFits; hide OneRun; }
    assert OthersKept(s, u, r, s.next) by { hide HolderFits; hide OneRun; }
    assert Settled(u, r, s.next) by { hide OneRun; hide OthersKept; hide StoreKept; }
    hide *;
    OneRunKeeps(s, u, r, s.next);
  }

  lemma InvFacts(s: Sys, r: RunId)
    requires Inv(s) && r in s.runs
    ensures r.serial < s.next && s.cancelReq <= s.busy && (Holds(s, r) ==> HolderFits(s, r))
  {
    hide HolderFits;
    hide CallFits;
    hide Claims;
    hide IdleFits;
    hide Apart;
    hide Consistent;
    assert Known(s);
  }

  lemma CountedFits(run: Run, r: RunId, call: Option<Call>)
    requires match call case Some(a) => CallFits(run, r, a) case None => IdleFits(run)
    ensures var run' := run.(cancelled := run.cancelled + 1);
            match call case Some(a) => CallFits(run', r, a) case None => IdleFits(run')
  {
  }

  lemma StoppedFits(run: Run, r: RunId)
    requires IdleFits(run) && run.published && run.state == Running
    ensures CallFits(run.(cancelled := run.cancelled + 1, state := Cancelled), r, Call(CancelCall, r, Some(r), [],
        0, Terminating))
  {
  }

  /** A Cancel that meets a step under way only leaves word for the Next that runs it. */
  function Ask(s: Sys, k: Key): Sys
    requires k in s.installs && s.installs[k] in s.runs
  {
    var r := s.installs[k];
    Put(s, r, s.runs[r].(cancelled := s.runs[r].cancelled + 1)).(cancelReq := s.cancelReq + {k})
  }

  lemma AskMoves(s: Sys, k: Key, t: nat)
    requires Inv(s) && k in s.installs && s.installs[k] in s.runs && k in s.busy
    requires if t in s.calls then s.calls[t].run == s.installs[k] else t == s.next && Idle(s, s.installs[k])
    ensures var r := s.installs[k];
            OneRun(s, Ask(s, k), r, t) && StoreKept(s, Ask(s, k)) && OthersKept(s, Ask(s, k), r, t)
  {
    hide Inv;
    hide CallFits;
    hide Consistent;
    var r, u := s.installs[k], Ask(s, k);
    InvHolder(s, k);
    InvFacts(s, r);
    NewRun(s, k);
    if t in s.calls { CallAt(s, t); }
    hide IdleFits;
    hide Claims;
    hide HolderFits;
    assert OneRun(s, u, r, t);
    hide OneRun;
    assert StoreKept(s, u);
    hide StoreKept;
    assert OthersKept(s, u, r, t);
  }

  lemma AskKeeps(s: Sys, k: Key)
    requires Inv(s) && k in s.installs && s.installs[k] in s.runs && k in s.busy
    ensures Inv(Ask(s, k))
  {
    hide Inv;
    hide CallFits;
    hide IdleFits;
    hide Consistent;
    hide OneRun;
    hide StoreKept;
    hide OthersKept;
    var r, u := s.installs[k], Ask(s, k);
    InvHolder(s, k);
    var t := s.next;
    if v :| v in s.calls && s.calls[v].run == r {
      t := v;
      CallAt(s, v);
      CountedFits(s.runs[r], r, Some(s.calls[v]));
    } else {
      assert Idle(s, r);
      InvIdle(s, r);
      NewRun(s, k);
      CountedFits(s.runs[r], r, None);
    }
    AskMoves(s, k, t);
    assert Settled(u, r, t);
    hide *;
    OneRunKeeps(s, u, r, t);
  }


  /** A Cancel between steps takes the run over: nobody else is at work on it. */
  lemma StopKeeps(s: Sys, k: Key)
    requires Inv(s) && Stoppable(s, k) && Idle(s, s.installs[k])
    ensures Inv(Cancel(s, k))
  {
    hide Inv;
    var r := s.installs[k];
    hide CallFits;
    hide IdleFits;
    hide Consistent;
    IdleHolder(s, k);
    NewRun(s, k);
    var u := Cancel(s, k);
    StoppedFits(s.runs[r], r);
    assert OneRun(s, u, r, s.next) by { hide HolderFits; }
    assert StoreKept(s, u) by { hide HolderFits; hide OneRun; }
    assert OthersKept(s, u, r, s.next) by { hide HolderFits; hide OneRun; hide StoreKept; }
    assert Settled(u, r, s.next) by { hide OneRun; hide OthersKept; hide StoreKept; }
    hide *;
    OneRunKeeps(s, u, r, s.next);
  }

  lemma CancelKeeps(s: Sys, k: Key)
    requires Inv(s) && Orderly(s, CancelComes(k))
    ensures Inv(Cancel(s, k))
  {
    hide Inv;
    if k in s.cancels {
      if s.cancels[k] in s.runs { InterruptKeeps(s, s.cancels[k]); }
    } else if k in s.installs && s.installs[k] in s.runs && s.runs[s.installs[k]].state == Running {
      if k in s.busy { AskKeeps(s, k); } else { StopKeeps(s, k); }
    }
  }

  /** What a crash leaves to reload is consistent and at rest. */
  lemma CrashKeeps(s: Sys)
    requires Inv(s)
    ensures Inv(Crash(s))
  {
    hide CallFits;
    hide Claims;
    hide IdleFits;
    hide HolderFits;
    hide Apart;
    hide Consistent;
    hide Known;
    var u := Crash(s);
    forall k | k in s.store ensures ReloadFits(s.store[k]) {
      ReloadIsAtRest(s.store[k]);
    }
    hide Inv;
    CrashedFits(s);
  }

  predicate ReloadFits(run: Run) {
    var run' := Reload(run);
    Consistent(run') && IdleFits(run') && run'.published && run'.state != Running && NoneActive(run')
  }

  lemma ReloadIsAtRest(run: Run)
    requires run.published && Consistent(run)
    ensures ReloadFits(run)
  {
  }

  lemma CrashedFits(s: Sys)
    requires forall k :: k in s.store ==> ReloadFits(s.store[k])
    ensures Inv(Crash(s))
  {
    var u := Crash(s);
    assert forall r :: r in u.runs ==>
        r.key in s.store && r == RunId(r.key, s.next)
        && u.runs[r] == Reload(s.store[r.key]) && ReloadFits(s.store[r.key]);
    assert forall k :: k in u.store ==> u.store[k] == Reload(s.store[k]) && ReloadFits(s.store[k]);
    assert forall k :: k in u.installs ==> u.installs[k] == RunId(k, s.next) && u.installs[k] in u.runs;
    assert u.calls == map[] && u.next == s.next + 1 && u.cancelReq == {};
    hide Crash;
    hide Reload;
    hide Consistent;
    hide IdleFits;
    AtRest(u);
  }

  /** With nothing in flight only the records matter. */
  lemma AtRest(u: Sys)
    requires u.calls == map[] && u.cancelReq == {}
    requires forall r :: r in u.runs ==>
        r.serial < u.next && IdleFits(u.runs[r]) && u.runs[r].published && u.runs[r].state != Running
    requires forall k :: k in u.installs ==> u.installs[k] in u.runs && u.installs[k].key == k
    requires forall k :: k in u.store ==> u.store[k].published && Consistent(u.store[k])
    ensures Inv(u)
  {
    hide Consistent;
    hide IdleFits;
    assert Known(u) && Apart(u);
    hide Known;
    hide Apart;
    assert forall k :: k in u.installs ==> HolderFits(u, u.installs[k]);
    hide HolderFits;
    hide CallFits;
    hide Claims;
  }

  lemma StepKeeps(s: Sys, e: Event)
    requires Inv(s) && Orderly(s, e)
    ensures Inv(Step(s, e))
  {
    hide Inv;
    match e
    case Reserves(k, host, uninstall, manual, plan) => ReserveKeeps(s, k, host, uninstall, manual, plan);
    case DialFails(t) => if AtPc(s, t, Dialling) { RollbackKeeps(s, t); }
    case Publishes(t, saved) => if AtPc(s, t, Dialling) { PublishKeeps(s, t, saved); }
    case RollsBack(t) => if AtPc(s, t, RollingBack) { RollbackKeeps(s, t); }
    case Loops(t) => if AtPc(s, t, LoopTop) { LoopKeeps(s, t); }
    case Begins(t) => if AtPc(s, t, Beginning) { BeginKeeps(s, t); }
    case Ends(t, o) => if AtPc(s, t, Executing) { EndKeeps(s, t, o); }
    case Advances(t) => if AtPc(s, t, Advancing) { AdvanceKeeps(s, t); }
    case Completes(t) => if AtPc(s, t, Finishing) { CompleteKeeps(s, t); }
    case NextClaims(k) => ClaimKeeps(s, k);
    case NextLands(t) =>
      if t in s.calls && s.calls[t].run in s.runs && s.calls[t].pc.Landing? { LandKeeps(s, t, s.calls[t].pc.failed); }
    case CancelComes(k) => CancelKeeps(s, k);
    case Terminates(t) => if AtPc(s, t, Terminating) { TerminateKeeps(s, t); }
    case CleansUp(t) => if AtPc(s, t, Cleaning) { CleanKeeps(s, t); }
    case Crashes => CrashKeeps(s);
  }

  lemma {:induction false} HistoryKeeps(events: seq<Event>)
    requires OrderlyHistory(events)
    ensures Inv(After(events))
    decreases |events|
  {
    hide Inv;
    hide Orderly;
    hide Step;
    if events == [] {
      NothingYet();
    } else {
      var before := events[..|events| - 1];
      assert forall i :: 0 <= i < |before| ==> before[..i] == events[..i] && before[i] == events[i];
      HistoryKeeps(before);
      StepKeeps(After(before), events[|events| - 1]);
    }
  }

  lemma NothingYet()
    ensures Inv(Empty())
  {
  }
}
