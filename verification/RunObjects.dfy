/**
 A run's record as the runners change it in place, step by step, and the automatic runner's loop
 over it. Each change is proved to be the one the run manager's critical sections make.
 */
module RunObjects {
  import opened Basics
  import opened RunPlans
  import opened RunManager
  import opened RunSafety

  class Install {
    const host: string
    const uninstall: bool
    const manual: bool
    const plan: seq<Kind>
    var steps: seq<StepState>
    var current: nat
    var state: RunState
    var published: bool
    var dialled: bool
    var closes: nat
    var interrupted: bool
    var cancelled: nat

    constructor (host: string, uninstall: bool, manual: bool, plan: seq<Kind>)
      ensures View() == Run(host, uninstall, manual, plan, [], 0, Running, false, false, 0, false, 0)
    {
      this.host, this.uninstall, this.manual, this.plan := host, uninstall, manual, plan;
      steps, current, state, published, dialled, closes, interrupted, cancelled := [], 0, Running, false, false, 0,
          false, 0;
    }

    ghost function View(): Run
      reads this
    {
      Run(host, uninstall, manual, plan, steps, current, state, published, dialled, closes, interrupted, cancelled)
    }

    method Publish(saved: bool)
      modifies this
      ensures View() == PublishedRun(old(View()), saved)
    {
      dialled := true;
      steps := [];
      for i := 0 to |plan|
        invariant View() == old(View()).(dialled := true, steps := seq(i, _ => Pending))
      {
        steps := steps + [Pending];
      }
      published := saved || published;
    }

    method BeginStep(i: nat)
      requires i < |steps|
      modifies this
      ensures View() == old(View()).(steps := old(steps)[i := Active])
    {
      steps := steps[i := Active];
    }

    /** Records how a step ended; false for a failure. */
    method EndStep(i: nat, outcome: Outcome, auto: bool) returns (ok: bool)
      requires i < |steps| && i < |plan| && Possible(plan[i], outcome)
      modifies this
      ensures ok <==> outcome != Failed
      ensures View() == Ended(old(View()), i, plan, outcome, auto)
    {
      if outcome == Failed {
        steps := steps[i := Errored];
        state := Broken;
        if auto && interrupted { state := Cancelled; }
        return false;
      }
      steps := steps[i := if outcome == WasPresent then Skipped else Finished];
      if plan[i] == Complete { state := Succeeded; }
      return true;
    }

    /** Lands a state and flags whatever step was active. */
    method Terminate(to: RunState)
      modifies this
      ensures View() == old(View()).(state := to, steps := Stopped(old(steps)))
    {
      state := to;
      for i := 0 to |steps|
        invariant View() == old(View()).(state := to, steps := steps) && |steps| == |old(steps)|
        invariant forall j :: 0 <= j < i ==> steps[j] == Stopped(old(steps))[j]
        invariant forall j :: i <= j < |steps| ==> steps[j] == old(steps)[j]
      {
        if steps[i] == Active { steps := steps[i := Errored]; }
      }
      assert steps == Stopped(old(steps));
    }

    /**
     The automatic runner, alone with its run: how each step ends is given, and where (if at all) its
     context is cancelled. It always lands the run, consistent, with no step active; the run has
     succeeded exactly if no step failed and the cancellation, if any, came too late for the loop to see.
     */
    method RunAll(outcomes: seq<Outcome>, cancelAt: Option<nat>)
      requires Consistent(View()) && Waiting(View()) && current == 0 && !interrupted && |outcomes| == |plan|
      requires forall i :: 0 <= i < |plan| ==> Possible(plan[i], outcomes[i])
      modifies this
      ensures Consistent(View()) && state != Running && NoneActive(View())
      ensures state == Succeeded <==>
          (forall i :: 0 <= i < |plan| ==> outcomes[i] != Failed) && !Interrupts(cancelAt, plan)
    {
      while true
        invariant Consistent(View()) && Waiting(View()) && Went(View(), outcomes)
        invariant interrupted <==> cancelAt.Some? && cancelAt.value < current
        decreases |plan| - current
      {
        if interrupted {
          Terminate(Cancelled);
          return;
        }
        if current >= |plan| { break; }
        var goes := Round(outcomes, cancelAt == Some(current));
        hide Consistent;
        if !goes { return; }
      }
      state := Succeeded;
    }

    /** One turn of the loop; false when it ended the run. */
    method Round(outcomes: seq<Outcome>, cancelled: bool) returns (goes: bool)
      requires Consistent(View()) && Waiting(View()) && Went(View(), outcomes) && current < |plan|
      requires Possible(plan[current], outcomes[current])
      modifies this
      ensures Consistent(View()) && interrupted == (old(interrupted) || cancelled)
      ensures goes <==> outcomes[old(current)] != Failed && plan[old(current)] != Complete
      ensures goes ==> Waiting(View()) && Went(View(), outcomes) && current == old(current) + 1
      ensures !goes ==> current == old(current) && state != Running && NoneActive(View())
      ensures !goes ==>
          (state == Succeeded <==> outcomes[current] != Failed) && (state == Succeeded ==> current == |plan| - 1)
    {
      hide Consistent;
      hide Went;
      hide Waiting;
      hide NoneActive;
      hide Ended;
      hide Possible;
      ghost var run := View();
      SameLengths(run, outcomes);
      var i := current;
      var o := outcomes[i];
      SteppedIsConsistent(run, o, cancelled);
      ghost var next := Stepped(run, o, cancelled);
      if o != Failed && plan[i] != Complete { SteppedGoesOn(run, outcomes, cancelled); }
      var ok := DoStep(i, o, cancelled);
      hide Stepped;
      if !ok || state != Running { return false; }
      current := current + 1;
      return true;
    }

    /** One step from beginning to end; a cancellation may come while it runs. */
    method DoStep(i: nat, o: Outcome, cancelled: bool) returns (ok: bool)
      requires i == current && i < |steps| && i < |plan| && Possible(plan[i], o)
      modifies this
      ensures View() == Stepped(old(View()), o, cancelled) && (ok <==> o != Failed)
    {
      hide Ended;
      hide Possible;
      BeginStep(i);
      if cancelled { interrupted := true; }
      ok := EndStep(i, o, true);
    }
  }

  /** The steps before the current one went as given, and none of them completed the run. */
  predicate Went(run: Run, outcomes: seq<Outcome>) {
    && |outcomes| == |run.plan| == |run.steps| && run.current <= |run.plan|
    && (forall i :: 0 <= i < run.current ==> outcomes[i] != Failed && run.plan[i] != Complete)
    && (forall i :: 0 <= i < run.current ==> run.steps[i] == if outcomes[i] == WasPresent then Skipped else Finished)
  }

  function Stepped(run: Run, o: Outcome, cancelled: bool): Run
    requires run.current < |run.steps| && run.current < |run.plan|
  {
    Ended(run.(steps := run.steps[run.current := Active], interrupted := run.interrupted || cancelled),
        run.current, run.plan, o, true)
  }

  lemma SameLengths(run: Run, outcomes: seq<Outcome>)
    requires Went(run, outcomes)
    ensures |outcomes| == |run.plan| == |run.steps|
  {
  }

  lemma SteppedIsConsistent(run: Run, o: Outcome, cancelled: bool)
    requires Consistent(run) && Waiting(run) && run.current < |run.plan|
    ensures var next := Stepped(run, o, cancelled);
            && Consistent(next) && NoneActive(next) && next.current == run.current
                && next.interrupted == (run.interrupted || cancelled)
            && next.state == (if o == Failed then if next.interrupted then Cancelled else Broken
                              else if run.plan[run.current] == Complete then Succeeded else Running)
            && (run.plan[run.current] == Complete ==> run.current == |run.plan| - 1)
  {
  }

  lemma SteppedGoesOn(run: Run, outcomes: seq<Outcome>, cancelled: bool)
    requires Consistent(run) && Waiting(run) && Went(run, outcomes) && run.current < |run.plan|
    requires outcomes[run.current] != Failed && run.plan[run.current] != Complete
    ensures var next := Stepped(run, outcomes[run.current], cancelled).(current := run.current + 1);
            Consistent(next) && Waiting(next) && Went(next, outcomes)
  {
  }

  /** A cancellation during a step is honoured at the top of the loop, unless that step completed the run. */
  predicate Interrupts(cancelAt: Option<nat>, plan: seq<Kind>) {
    cancelAt.Some? && cancelAt.value < |plan| && plan[cancelAt.value] != Complete
  }
}
