/**
 What an undisturbed run comes to: launched on a free key, with a client dialled and its steps saved,
 an automatic run plays its plan out by itself and a manual one with the operator's Nexts, and either
 ends as its steps did, saved, with its client closed and the key's entries pruned.
 */
module RunProgress {
  import opened Basics
  import opened RunPlans
  import opened RunManager

  /** The state of a run from a given one through a list of events. */
  function Play(s: Sys, events: seq<Event>): Sys
    decreases |events|
  {
    if events == [] then s else Step(Play(s, events[..|events| - 1]), events[|events| - 1])
  }

  lemma {:induction false} PlayBoth(s: Sys, a: seq<Event>, b: seq<Event>)
    ensures Play(s, a + b) == Play(Play(s, a), b)
    decreases |b|
  {
    hide Step;
    if b == [] {
      assert a + b == a;
    } else {
      PlayBoth(s, a, b[..|b| - 1]);
      assert (a + b)[..|a + b| - 1] == a + b[..|b| - 1];
    }
  }

  lemma PlayOne(s: Sys, e: Event)
    ensures Play(s, [e]) == Step(s, e)
  {
    assert [e][..0] == [];
  }

  // ------------------------------------------------------------- a run at rest or at work

  /** The run's record, in memory and on disk, and its key, client and plan. */
  ghost predicate Owns(s: Sys, r: RunId, run: Run) {
    && r in s.runs && s.runs[r] == run && Holds(s, r)
    && r.key in s.store && s.store[r.key] == run
    && r.key in s.clients && s.clients[r.key] == r && r.key in s.plans && s.plans[r.key] == run.plan
  }

  /** A call works on it, with its client and plan. */
  ghost predicate Works(s: Sys, t: nat, r: RunId, run: Run, c: Caller, at: nat, pc: Pc) {
    Owns(s, r, run) && t in s.calls && s.calls[t] == Call(c, r, Some(r), run.plan, at, pc)
  }

  /** A manual run waits for the operator's Next. */
  ghost predicate Waits(s: Sys, r: RunId, run: Run) {
    && Owns(s, r, run) && run.manual && run.state == Running && r.key !in s.busy && r.key !in s.cancelReq
  }

  /** Nobody works on it any more: its client has been closed once and its key's entries are gone. */
  ghost predicate Over(s: Sys, t: nat, r: RunId, run: Run) {
    && r in s.runs && s.runs[r] == run.(closes := run.closes + 1) && Holds(s, r)
    && r.key in s.store && s.store[r.key] == run
    && t !in s.calls && r.key !in s.clients && r.key !in s.plans && r.key !in s.cancels
    && r.key !in s.busy && r.key !in s.cancelReq
  }

  // --------------------------------------------------------------------- the sections

  lemma Launched(s: Sys, k: Key, host: string, uninstall: bool, manual: bool, plan: seq<Kind>)
    requires k in s.installs && s.installs[k] in s.runs ==> s.runs[s.installs[k]].state != Running
    requires manual ==> k !in s.busy && k !in s.cancelReq
    ensures var u := Step(Step(s, Reserves(k, host, uninstall, manual, plan)), Publishes(s.next, true));
            var r := RunId(k, s.next);
            var run := Run(host, uninstall, manual, plan, seq(|plan|, _ => Pending), 0, Running, true, true, 0,
                           false, 0);
            if manual then Waits(u, r, run) else Works(u, s.next, r, run, AutoRunner, 0, LoopTop)
  {
  }

  lemma LoopGoesOn(s: Sys, t: nat, r: RunId, run: Run, at: nat)
    requires Works(s, t, r, run, AutoRunner, at, LoopTop) && !run.interrupted
    ensures Works(Step(s, Loops(t)), t, r, run, AutoRunner, if run.current < |run.plan| then run.current else at,
                  if run.current < |run.plan| then Beginning else Finishing)
  {
  }

  lemma StepBegins(s: Sys, t: nat, r: RunId, run: Run, c: Caller, at: nat)
    requires Works(s, t, r, run, c, at, Beginning) && at < |run.steps|
    ensures var u := Step(s, Begins(t));
            Works(u, t, r, run.(steps := run.steps[at := Active]), c, at, Executing) && u.cancelReq == s.cancelReq
  {
  }

  lemma CascadeSparesOwn(s: Sys, r: RunId, run: Run)
    requires Owns(s, r, run)
    ensures Owns(Cascade(s, r), r, run) && Cascade(s, r).calls == s.calls
    ensures Cascade(s, r).busy == s.busy && Cascade(s, r).cancelReq == s.cancelReq
  {
  }

  lemma EndSection(s: Sys, t: nat, o: Outcome)
    requires AtPc(s, t, Executing)
    requires var r, i, plan := s.calls[t].run, s.calls[t].at, s.calls[t].plan;
             i < |s.runs[r].steps| && i < |plan| && Possible(plan[i], o)
    ensures var r, auto := s.calls[t].run, s.calls[t].caller == AutoRunner;
            var u := Save(Put(s, r, Ended(s.runs[r], s.calls[t].at, s.calls[t].plan, o, auto)), r);
            Step(s, Ends(t, o)) == if o == Failed then Go(u, t, if auto then Cleaning else Landing(true))
                                   else Go(Cascade(u, r), t, if auto then Advancing else Landing(false))
  {
    hide Ended;
    hide Cascade;
    hide Possible;
  }

  lemma WorksOn(s: Sys, t: nat, r: RunId, run: Run, c: Caller, at: nat, pc: Pc)
    requires Owns(s, r, run) && t in s.calls && s.calls[t].(pc := pc) == Call(c, r, Some(r), run.plan, at, pc)
    ensures Works(Go(s, t, pc), t, r, run, c, at, pc) && Go(s, t, pc).cancelReq == s.cancelReq
  {
  }

  lemma StepEnds(s: Sys, t: nat, r: RunId, run: Run, c: Caller, at: nat, o: Outcome)
    requires Works(s, t, r, run, c, at, Executing) && at < |run.steps| && at < |run.plan| && Possible(run.plan[at], o)
    requires c == AutoRunner || c == NextCall
    ensures var next := Ended(run, at, run.plan, o, c == AutoRunner);
            var pc := if c == NextCall then Landing(o == Failed) else if o == Failed then Cleaning else Advancing;
            var u := Step(s, Ends(t, o));
            Works(u, t, r, next, c, at, pc) && u.cancelReq == s.cancelReq
  {
    EndSection(s, t, o);
    var next := Ended(run, at, run.plan, o, c == AutoRunner);
    assert next.plan == run.plan;
    hide Step;
    hide Ended;
    hide Possible;
    var u := Save(Put(s, r, next), r);
    assert Owns(u, r, next) && u.calls == s.calls && u.cancelReq == s.cancelReq;
    CascadeSparesOwn(u, r, next);
    hide Cascade;
    hide Owns;
    var pc := if c == NextCall then Landing(o == Failed) else if o == Failed then Cleaning else Advancing;
    WorksOn(if o == Failed then u else Cascade(u, r), t, r, next, c, at, pc);
  }

  lemma RunnerAdvances(s: Sys, t: nat, r: RunId, run: Run, at: nat)
    requires Works(s, t, r, run, AutoRunner, at, Advancing)
    ensures if run.state == Running
            then Works(Step(s, Advances(t)), t, r, run.(current := run.current + 1), AutoRunner, at, LoopTop)
            else Works(Step(s, Advances(t)), t, r, run, AutoRunner, at, Cleaning)
  {
  }

  lemma RunnerCompletes(s: Sys, t: nat, r: RunId, run: Run, at: nat)
    requires Works(s, t, r, run, AutoRunner, at, Finishing)
    ensures Works(Step(s, Completes(t)), t, r, run.(state := Succeeded), AutoRunner, at, Cleaning)
  {
    var u := Save(Put(s, r, run.(state := Succeeded)), r);
    assert Owns(u, r, run.(state := Succeeded));
    CascadeSparesOwn(u, r, run.(state := Succeeded));
    hide Cascade;
  }

  lemma CallCleans(s: Sys, t: nat, r: RunId, run: Run, c: Caller, at: nat)
    requires Works(s, t, r, run, c, at, Cleaning)
    ensures Over(Step(s, CleansUp(t)), t, r, run)
  {
  }

  lemma NextBegins(s: Sys, r: RunId, run: Run)
    requires Waits(s, r, run) && run.current < |run.plan|
    ensures var u := Step(s, NextClaims(r.key));
            Works(u, s.next, r, run, NextCall, run.current, Beginning) && u.cancelReq == s.cancelReq
  {
  }

  lemma NextReturns(s: Sys, t: nat, r: RunId, run: Run, at: nat, failed: bool)
    requires Works(s, t, r, run, NextCall, at, Landing(failed)) && run.manual && r.key !in s.cancelReq
    requires failed ==> run.state != Running
    ensures var u := Step(s, NextLands(t));
            if run.state != Running then Works(u, t, r, run, NextCall, at, Cleaning)
            else if run.current + 1 < |run.plan|
            then Waits(u, r, run.(current := run.current + 1)) && t !in u.calls
            else Works(u, t, r, run.(current := run.current + 1, state := Succeeded), NextCall, at, Cleaning)
  {
  }

  // ------------------------------------------------------------------------- rounds

  /** What a step's outcome leaves in the record. */
  function Mark(o: Outcome): StepState {
    if o == Worked then Finished else if o == WasPresent then Skipped else Errored
  }

  /** The record after the current step: the run goes on, or is over. */
  function Played(run: Run, o: Outcome): Run
    requires run.current < |run.steps| && run.current < |run.plan|
  {
    var steps := run.steps[run.current := Mark(o)];
    if o == Failed then run.(steps := steps, state := Broken)
    else if run.plan[run.current] == Complete then run.(steps := steps, state := Succeeded)
    else if run.manual && run.current + 1 >= |run.plan| then
      run.(steps := steps, current := run.current + 1, state := Succeeded)
    else run.(steps := steps, current := run.current + 1)
  }

  /** In good order, with the current step still to come. */
  predicate InOrder(run: Run) {
    run.state == Running && !run.interrupted && |run.steps| == |run.plan| && run.current < |run.plan|
  }

  lemma PlayThree(s: Sys, a: Event, b: Event, c: Event)
    ensures Play(s, [a, b, c]) == Step(Step(Step(s, a), b), c)
  {
    hide Step;
    PlayOne(s, a);
    PlayOne(Step(s, a), b);
    PlayOne(Step(Step(s, a), b), c);
    PlayBoth(s, [a], [b]);
    PlayBoth(s, [a] + [b], [c]);
    assert [a, b, c] == [a] + [b] + [c];
  }

  /** The step itself, from its beginning to its end. */
  lemma StepRuns(s: Sys, t: nat, r: RunId, run: Run, c: Caller, o: Outcome)
    requires Works(s, t, r, run, c, run.current, Beginning) && InOrder(run) && Possible(run.plan[run.current], o)
    requires c == AutoRunner || c == NextCall
    ensures var u := Step(Step(s, Begins(t)), Ends(t, o));
            var next := run.(steps := run.steps[run.current := Mark(o)],
                             state := if o == Failed then Broken
                                      else if run.plan[run.current] == Complete then Succeeded else Running);
            var pc := if c == NextCall then Landing(o == Failed) else if o == Failed then Cleaning else Advancing;
            Works(u, t, r, next, c, run.current, pc) && u.cancelReq == s.cancelReq
  {
    var i := run.current;
    var begun := run.(steps := run.steps[i := Active]);
    StepBegins(s, t, r, run, c, i);
    StepEnds(Step(s, Begins(t)), t, r, begun, c, i, o);
    assert run.steps[i := Active][i := Mark(o)] == run.steps[i := Mark(o)];
    hide Step;
    hide Works;
    hide Possible;
  }

  lemma AutoRound(s: Sys, t: nat, r: RunId, run: Run, at: nat, o: Outcome) returns (events: seq<Event>)
    requires Works(s, t, r, run, AutoRunner, at, LoopTop) && InOrder(run) && !run.manual
    requires Possible(run.plan[run.current], o)
    ensures Works(Play(s, events), t, r, Played(run, o), AutoRunner, run.current,
                  if Played(run, o).state == Running then LoopTop else Cleaning)
  {
    hide Step;
    hide Play;
    hide Works;
    hide Possible;
    var i := run.current;
    var s1 := Step(s, Loops(t));
    LoopGoesOn(s, t, r, run, at);
    StepRuns(s1, t, r, run, AutoRunner, o);
    PlayThree(s, Loops(t), Begins(t), Ends(t, o));
    events := [Loops(t), Begins(t), Ends(t, o)];
    if o != Failed {
      var next := run.(steps := run.steps[i := Mark(o)],
                       state := if run.plan[i] == Complete then Succeeded else Running);
      var u := Play(s, events);
      RunnerAdvances(u, t, r, next, i);
      PlayBoth(s, events, [Advances(t)]);
      PlayOne(u, Advances(t));
      events := events + [Advances(t)];
    }
  }

  lemma NextRound(s: Sys, r: RunId, run: Run, o: Outcome) returns (events: seq<Event>)
    requires Waits(s, r, run) && InOrder(run) && Possible(run.plan[run.current], o)
    ensures if Played(run, o).state == Running then Waits(Play(s, events), r, Played(run, o))
            else Works(Play(s, events), s.next, r, Played(run, o), NextCall, run.current, Cleaning)
  {
    assert run.manual && r.key !in s.cancelReq;
    hide Step;
    hide Play;
    hide Works;
    hide Waits;
    hide Possible;
    var i, t := run.current, s.next;
    NextBegins(s, r, run);
    StepRuns(Step(s, NextClaims(r.key)), t, r, run, NextCall, o);
    var begun := [NextClaims(r.key), Begins(t), Ends(t, o)];
    PlayThree(s, NextClaims(r.key), Begins(t), Ends(t, o));
    var u := Play(s, begun);
    var next := run.(steps := run.steps[i := Mark(o)],
                     state := if o == Failed then Broken else if run.plan[i] == Complete then Succeeded else Running);
    NextReturns(u, t, r, next, i, o == Failed);
    PlayBoth(s, begun, [NextLands(t)]);
    PlayOne(u, NextLands(t));
    events := begun + [NextLands(t)];
  }

  // ----------------------------------------------------------------------- the theorem

  /** The first step that fails, or the length of the list. */
  function FirstFailed(outcomes: seq<Outcome>): (f: nat)
    ensures f <= |outcomes| && (f < |outcomes| ==> outcomes[f] == Failed)
    ensures forall i :: 0 <= i < f ==> outcomes[i] != Failed
  {
    if outcomes == [] || outcomes[0] == Failed then 0 else 1 + FirstFailed(outcomes[1..])
  }

  /** So far everything went as given, and nothing behind the current step has been touched. */
  ghost predicate SoFar(run: Run, outcomes: seq<Outcome>) {
    && |outcomes| == |run.plan| == |run.steps| && run.current <= FirstFailed(outcomes)
    && (forall i :: 0 <= i < run.current ==> run.steps[i] == Mark(outcomes[i]))
    && (forall i :: run.current <= i < |run.steps| ==> run.steps[i] == Pending)
  }

  /** The record of a run that is over, step by step. */
  ghost predicate AsItWent(run: Run, outcomes: seq<Outcome>) {
    var f := FirstFailed(outcomes);
    && |run.steps| == |outcomes|
    && run.state == (if f < |outcomes| then Broken else Succeeded)
    && forall i :: 0 <= i < |outcomes| ==> run.steps[i] == if i <= f then Mark(outcomes[i]) else Pending
  }

  lemma PlayedSoFar(run: Run, outcomes: seq<Outcome>)
    requires SoFar(run, outcomes) && InOrder(run) && Shaped(run.plan)
    ensures var next := Played(run, outcomes[run.current]);
            && next.plan == run.plan && next.manual == run.manual && next.interrupted == run.interrupted
            && next.closes == run.closes
            && (next.state == Running ==> SoFar(next, outcomes) && next.current == run.current + 1
                                          && (run.manual ==> InOrder(next)))
            && (next.state != Running ==> AsItWent(next, outcomes))
  {
    var i, f := run.current, FirstFailed(outcomes);
    assert outcomes[i] == Failed <==> i == f;
    assert run.plan[i] == Complete ==> i == |run.plan| - 1;
    hide FirstFailed;
  }

  /** An automatic run at the top of its loop. */
  lemma {:induction false} AutoPlaysOn(s: Sys, t: nat, r: RunId, run: Run, at: nat, outcomes: seq<Outcome>)
    returns (events: seq<Event>, end: Run)
    requires Works(s, t, r, run, AutoRunner, at, LoopTop) && !run.manual && run.state == Running && !run.interrupted
    requires SoFar(run, outcomes) && Shaped(run.plan)
    requires forall i :: 0 <= i < |outcomes| ==> Possible(run.plan[i], outcomes[i])
    ensures Over(Play(s, events), t, r, end) && AsItWent(end, outcomes) && end.closes == run.closes
    decreases |run.plan| - run.current
  {
    var last := CleansUp(t);
    hide Step;
    hide Play;
    hide Works;
    hide Over;
    if run.current >= |run.plan| {
      var e1, e2 := Loops(t), Completes(t);
      var s1 := Step(s, e1);
      var s2 := Step(s1, e2);
      end := run.(state := Succeeded);
      LoopGoesOn(s, t, r, run, at);
      RunnerCompletes(s1, t, r, run, at);
      CallCleans(s2, t, r, end, AutoRunner, at);
      PlayOne(s, e1);
      PlayBoth(s, [e1], [e2]);
      PlayOne(s1, e2);
      PlayBoth(s, [e1] + [e2], [last]);
      PlayOne(s2, last);
      events := [e1] + [e2] + [last];
      return;
    }
    var o := outcomes[run.current];
    PlayedSoFar(run, outcomes);
    var next := Played(run, o);
    hide Played;
    hide SoFar;
    hide AsItWent;
    var first := AutoRound(s, t, r, run, at, o);
    var u := Play(s, first);
    if next.state == Running {
      var rest: seq<Event>;
      rest, end := AutoPlaysOn(u, t, r, next, run.current, outcomes);
      PlayBoth(s, first, rest);
      events := first + rest;
    } else {
      end := next;
      CallCleans(u, t, r, next, AutoRunner, run.current);
      PlayBoth(s, first, [last]);
      PlayOne(u, last);
      events := first + [last];
    }
  }

  /** A manual run, with a Next for every step. */
  lemma {:induction false} NextsPlayOn(s: Sys, r: RunId, run: Run, outcomes: seq<Outcome>)
    returns (events: seq<Event>, end: Run, t: nat)
    requires Waits(s, r, run) && InOrder(run) && SoFar(run, outcomes) && Shaped(run.plan)
    requires forall i :: 0 <= i < |outcomes| ==> Possible(run.plan[i], outcomes[i])
    ensures Over(Play(s, events), t, r, end) && AsItWent(end, outcomes) && end.closes == run.closes
    decreases |run.plan| - run.current
  {
    hide Step;
    hide Play;
    hide Works;
    hide Over;
    var o := outcomes[run.current];
    PlayedSoFar(run, outcomes);
    assert run.manual;
    hide Waits;
    var next := Played(run, o);
    hide Played;
    hide SoFar;
    hide AsItWent;
    var first := NextRound(s, r, run, o);
    var u := Play(s, first);
    if next.state == Running {
      var rest: seq<Event>;
      rest, end, t := NextsPlayOn(u, r, next, outcomes);
      PlayBoth(s, first, rest);
      events := first + rest;
    } else {
      end, t := next, s.next;
      CallCleans(u, t, r, next, NextCall, run.current);
      PlayBoth(s, first, [CleansUp(t)]);
      PlayOne(u, CleansUp(t));
      events := first + [CleansUp(t)];
    }
  }

  /**
   A launch that is not disturbed lands. On a key nobody's run is running under, with any shaped plan
   and whatever its steps come to, there is a history in which the run, automatic or manual, ends
   succeeded if no step failed and else broken at the first that did. Its record says so step by step,
   on disk too; its client has been closed once; and the key's entries are gone.
   */
  lemma EveryLaunchLands(s: Sys, k: Key, host: string, uninstall: bool, manual: bool, plan: seq<Kind>,
                         outcomes: seq<Outcome>)
    returns (events: seq<Event>)
    requires k in s.installs && s.installs[k] in s.runs ==> s.runs[s.installs[k]].state != Running
    requires manual ==> k !in s.busy && k !in s.cancelReq
    requires Shaped(plan) && |outcomes| == |plan| && forall i :: 0 <= i < |plan| ==> Possible(plan[i], outcomes[i])
    ensures var u, r := Play(s, events), RunId(k, s.next);
            && r in u.runs && Holds(u, r) && AsItWent(u.runs[r], outcomes) && u.runs[r].closes == 1
            && k in u.store && AsItWent(u.store[k], outcomes)
            && k !in u.clients && k !in u.plans && k !in u.cancels && k !in u.busy && k !in u.cancelReq
  {
    var e1, e2 := Reserves(k, host, uninstall, manual, plan), Publishes(s.next, true);
    var r := RunId(k, s.next);
    var run := Run(host, uninstall, manual, plan, seq(|plan|, _ => Pending), 0, Running, true, true, 0, false, 0);
    var t := s.next;
    Launched(s, k, host, uninstall, manual, plan);
    PlayOne(s, e1);
    PlayBoth(s, [e1], [e2]);
    PlayOne(Step(s, e1), e2);
    var u := Play(s, [e1] + [e2]);
    hide Step;
    hide Play;
    hide Works;
    hide Waits;
    var rest: seq<Event>;
    var end: Run;
    if manual {
      rest, end, t := NextsPlayOn(u, r, run, outcomes);
    } else {
      rest, end := AutoPlaysOn(u, t, r, run, 0, outcomes);
    }
    PlayBoth(s, [e1] + [e2], rest);
    events := [e1] + [e2] + rest;
  }
}
