/** What operators can rely on: consistent records, and runs that never touch each other's client or entries. */
module RunTheorems {
  import opened Basics
  import opened RunPlans
  import opened RunManager
  import opened RunSafety

  // ---------------------------------------------------------------- consistency

  lemma AnyRun(s: Sys, r: RunId)
    requires Inv(s) && r in s.runs
    ensures var run := s.runs[r];
            && (run.published ==> Consistent(run))
            && (if Idle(s, r) then IdleFits(run) else run.closes == 0)
  {
    hide Inv;
    if t :| t in s.calls && s.calls[t].run == r {
      CallAt(s, t);
      hide Claims;
      hide HolderFits;
    } else {
      assert Idle(s, r);
      InvIdle(s, r);
    }
  }

  /**
   Run consistency. At every moment of every orderly history, automatic, manual, cancelled or
   reloaded, a run's steps before the current one are done or skipped and those behind it
   untouched; a run that succeeded has every step done or skipped; a run that is over has no
   active step.
   */
  lemma RunConsistency(events: seq<Event>, r: RunId)
    requires OrderlyHistory(events) && r in After(events).runs && After(events).runs[r].published
    ensures var run := After(events).runs[r];
            && |run.steps| == |run.plan| && run.current <= |run.plan|
            && (forall i :: 0 <= i < run.current ==> Over(run.steps[i]))
            && (forall i :: run.current < i < |run.steps| ==> run.steps[i] == Pending)
            && (run.state == Succeeded ==> forall i :: 0 <= i < |run.steps| ==> Over(run.steps[i]))
            && (run.state != Running ==> NoneActive(run))
  {
    HistoryKeeps(events);
    hide Inv;
    AnyRun(After(events), r);
  }

  /** What is on disk is as consistent, and after a restart nothing claims to run. */
  lemma RestartIsConsistent(events: seq<Event>, k: Key)
    requires OrderlyHistory(events) && k in After(events).store
    ensures var s := Crash(After(events));
            && k in s.installs && s.installs[k] in s.runs
            && Consistent(s.runs[s.installs[k]]) && s.runs[s.installs[k]].state != Running
                && NoneActive(s.runs[s.installs[k]])
            && s.runs[s.installs[k]].steps == (if After(events).store[k].state == Running
                then Stopped(After(events).store[k].steps)
                                               else After(events).store[k].steps)
  {
    HistoryKeeps(events);
    InvStored(After(events), k);
    ReloadIsAtRest(After(events).store[k]);
  }

  /**
   And it is what was on disk: every record comes back and no other, a run that was over exactly as
   it ended, one that was running as failed with its active step errored, and nobody works on any.
   */
  lemma RestartTellsWhatHappened(s: Sys, k: Key)
    ensures var u := Crash(s);
            && (k in u.installs <==> k in s.store) && (k in u.store <==> k in s.store)
            && (k in s.store ==>
                  && u.installs[k] in u.runs && u.installs[k].key == k && u.store[k] == u.runs[u.installs[k]]
                  && var was, run := s.store[k], u.runs[u.installs[k]];
                     && run.state == (if was.state == Running then Broken else was.state)
                     && run.host == was.host && run.uninstall == was.uninstall && run.manual == was.manual
                     && run.plan == was.plan && run.current == was.current && |run.steps| == |was.steps|
                     && forall i :: 0 <= i < |run.steps| ==>
                          run.steps[i] == if was.state == Running && was.steps[i] == Active then Errored
                                          else was.steps[i])
            && u.calls == map[] && u.clients == map[] && u.plans == map[] && u.cancels == map[]
            && u.busy == {} && u.cancelReq == {}
  {
    var u := Crash(s);
    if k in s.store {
      assert u.installs[k] == RunId(k, s.next);
    }
  }

  lemma OwnFileStays(s: Sys, r: RunId)
    requires r in s.runs && r.key in s.store
    ensures var u := Cascade(s, r); u.runs == s.runs && r.key in u.store && u.store[r.key] == s.store[r.key]
  {
  }

  /** A section left every record as it was, or on disk. */
  ghost predicate Saved(s: Sys, u: Sys, r: RunId) {
    r in s.runs ==> r in u.runs && (u.runs[r] != s.runs[r] ==> r.key in u.store && u.store[r.key] == u.runs[r])
  }

  lemma EndSaves(s: Sys, t: nat, o: Outcome, q: RunId)
    requires t in s.calls && s.calls[t].run in s.runs
    ensures Saved(s, End(s, t, o), q)
  {
    hide Ended;
    hide Possible;
    var r := s.calls[t].run;
    if s.calls[t].at < |s.runs[r].steps| && s.calls[t].at < |s.calls[t].plan| {
      var run := Ended(s.runs[r], s.calls[t].at, s.calls[t].plan, o, s.calls[t].caller == AutoRunner);
      OwnFileStays(Save(Put(s, r, run), r), r);
    }
    hide Cascade;
  }

  lemma ConcludeSaves(s: Sys, t: nat, q: RunId)
    requires t in s.calls && s.calls[t].run in s.runs
    ensures Saved(s, Conclude(s, t), q)
  {
    var r := s.calls[t].run;
    OwnFileStays(Save(Put(s, r, s.runs[r].(state := Succeeded)), r), r);
    hide Cascade;
  }

  lemma LandSaves(s: Sys, t: nat, failed: bool, q: RunId)
    requires t in s.calls && s.calls[t].run in s.runs
    ensures Saved(s, LandNext(s, t, failed), q)
  {
    hide LandedRun;
  }

  lemma PublishSaves(s: Sys, t: nat, q: RunId)
    requires t in s.calls && s.calls[t].run in s.runs
    ensures Saved(s, Publish(s, t, true), q)
  {
    hide PublishedRun;
  }

  lemma BeginSaves(s: Sys, t: nat, q: RunId)
    requires t in s.calls && s.calls[t].run in s.runs
    ensures Saved(s, Begin(s, t), q)
  {
  }

  lemma AdvanceSaves(s: Sys, t: nat, q: RunId)
    requires t in s.calls && s.calls[t].run in s.runs
    ensures Saved(s, Advance(s, t), q)
  {
  }

  lemma TerminateSaves(s: Sys, t: nat, q: RunId)
    requires t in s.calls && s.calls[t].run in s.runs
    ensures Saved(s, Terminate(s, t), q)
  {
    hide Stopped;
  }

  /** The sections that move a run on: what they change in its record is on disk when they end. */
  lemma ChangesAreSaved(s: Sys, e: Event, r: RunId)
    requires r in s.runs
    requires || e.Begins? || e.Ends? || e.Advances? || e.Completes? || e.NextLands? || e.Terminates?
             || (e.Publishes? && e.saved)
    ensures var u := Step(s, e);
            r in u.runs && (u.runs[r] != s.runs[r] ==> r.key in u.store && u.store[r.key] == u.runs[r])
  {
    if e.t in s.calls && s.calls[e.t].run in s.runs {
      match e {
        case Begins(t) => BeginSaves(s, t, r);
        case Ends(t, o) => EndSaves(s, t, o, r);
        case Advances(t) => AdvanceSaves(s, t, r);
        case Completes(t) => ConcludeSaves(s, t, r);
        case NextLands(t) => if s.calls[t].pc.Landing? { LandSaves(s, t, s.calls[t].pc.failed, r); }
        case Terminates(t) => TerminateSaves(s, t, r);
        case Publishes(t, _) => PublishSaves(s, t, r);
      }
    }
    hide Begin;
    hide End;
    hide Advance;
    hide Conclude;
    hide Terminate;
    hide Publish;
    hide LandNext;
  }

  /**
   Uninstalling the App-Framework takes along, from memory and from disk, exactly what was installed
   on its cluster or its host; nothing else ever does, and no run's own record goes.
   */
  lemma CascadeTakesDependents(s: Sys, r: RunId, k: Key)
    requires r in s.runs && k in s.installs && s.installs[k] in s.runs
    requires forall j :: j in s.installs ==> s.installs[j].key == j
    ensures var u, run := Cascade(s, r), s.runs[r];
            && u == s.(installs := u.installs, store := u.store)
            && (k !in u.installs <==>
                  && run.uninstall && run.state == Succeeded && r.key.app == AppFw && k.app != AppFw
                  && (k.cluster == r.key.cluster || (run.host != "" && run.host == s.runs[s.installs[k]].host)))
            && (k in u.installs ==> u.installs[k] == s.installs[k])
            && (k in u.installs && k in s.store ==> k in u.store && u.store[k] == s.store[k])
            && (k !in u.installs ==> k !in u.store)
  {
  }

  // ------------------------------------------------------------------ ownership

  /**
   Clients. No client is closed twice, none is closed while a call still works on its run, and
   once nobody does, it has been closed exactly when the run is over or never got launched.
   */
  lemma ClosedExactlyOnce(events: seq<Event>, r: RunId)
    requires OrderlyHistory(events) && r in After(events).runs
    ensures var s := After(events);
            var run := s.runs[r];
            && run.closes <= 1
            && (!Idle(s, r) ==> run.closes == 0)
            && (Idle(s, r) ==> (run.closes == 1 <==> run.dialled && !(run.published && run.state == Running)))
  {
    HistoryKeeps(events);
    hide Inv;
    AnyRun(After(events), r);
  }

  /** Nothing differs but one run's record and the calls in flight. */
  predicate OnlyRun(s: Sys, u: Sys, r: RunId) {
    && u.installs == s.installs && u.clients == s.clients && u.plans == s.plans && u.cancels == s.cancels
    && u.busy == s.busy && u.cancelReq == s.cancelReq && u.store == s.store
    && forall q :: q in s.runs && q != r ==> q in u.runs && u.runs[q] == s.runs[q]
  }

  /**
   A late tail. Whatever run holds the key by the time an older run cleans up or rolls back, the
   older run prunes none of the key's entries and closes nobody's client but its own.
   */
  lemma LateTailTouchesNothing(events: seq<Event>, t: nat, e: Event)
    requires OrderlyHistory(events) && t in After(events).calls && !Holds(After(events), After(events).calls[t].run)
    requires e == CleansUp(t) || e == RollsBack(t) || e == DialFails(t)
    ensures var s := After(events);
            var u := Step(s, e);
            OnlyRun(s, u, s.calls[t].run)
  {
    hide Inv;
    hide Step;
    var s := After(events);
    HistoryKeeps(events);
    hide After;
    OwnClient(s, t);
    LateTail(s, t, e);
    hide OnlyRun;
    hide Holds;
  }

  lemma OwnClient(s: Sys, t: nat)
    requires Inv(s) && t in s.calls
    ensures s.calls[t].run in s.runs && (s.calls[t].client == None || s.calls[t].client == Some(s.calls[t].run))
  {
    hide Inv;
    CallAt(s, t);
    hide Claims;
    hide HolderFits;
  }

  lemma LateTail(s: Sys, t: nat, e: Event)
    requires e == CleansUp(t) || e == RollsBack(t) || e == DialFails(t)
    requires t in s.calls && s.calls[t].run in s.runs && !Holds(s, s.calls[t].run)
    requires s.calls[t].client == None || s.calls[t].client == Some(s.calls[t].run)
    ensures OnlyRun(s, Step(s, e), s.calls[t].run)
  {
    hide OnlyRun;
    hide Rollback;
    hide Clean;
    LateRollback(s, t);
    LateClean(s, t);
    NoChange(s, s.calls[t].run);
  }

  lemma NoChange(s: Sys, r: RunId)
    ensures OnlyRun(s, s, r)
  {
  }

  lemma LateRollback(s: Sys, t: nat)
    requires t in s.calls && s.calls[t].run in s.runs && !Holds(s, s.calls[t].run)
    requires s.calls[t].client == None || s.calls[t].client == Some(s.calls[t].run)
    ensures OnlyRun(s, Rollback(s, t), s.calls[t].run)
  {
  }

  lemma LateClean(s: Sys, t: nat)
    requires t in s.calls && s.calls[t].run in s.runs && !Holds(s, s.calls[t].run)
    requires s.calls[t].client == None || s.calls[t].client == Some(s.calls[t].run)
    ensures OnlyRun(s, Clean(s, t), s.calls[t].run)
  {
  }

  /** Whoever works on a run does so with that run's own client and plan. */
  lemma OwnClientOnly(events: seq<Event>, t: nat)
    requires OrderlyHistory(events) && t in After(events).calls
    ensures var call := After(events).calls[t];
            && call.run in After(events).runs
            && (call.client.Some? ==> call.client == Some(call.run))
            && (call.pc == Executing ==>
                call.client == Some(call.run) && call.plan == After(events).runs[call.run].plan)
  {
    HistoryKeeps(events);
    hide Inv;
    CallAt(After(events), t);
  }
}
