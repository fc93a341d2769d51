/** The enterprise runner's step plans, built by appending to a list under branches. */
module RunPlans {

  datatype Module = AppFw | Cmp | Advisor

  datatype Kind = Detect | Airgap | RunCommand | CopyAndRun | Framework | Complete

  /** What decides which steps a plan has. */
  datatype Options = Options(
    airgap: bool, appctlStaged: bool, extpack: bool, osImage: bool, keycloakStaged: bool, providerKey: bool)

  /** The shape the runner relies on: something to do, and nothing after a completing step. */
  predicate Shaped(plan: seq<Kind>) {
    plan != [] && forall i :: 0 <= i < |plan| - 1 ==> plan[i] != Complete
  }

  predicate Closes(plan: seq<Kind>) {
    plan != [] && plan[|plan| - 1] == Complete
  }

  /** Where a plan stands before its own module's steps. */
  predicate Begun(steps: seq<Kind>, airgap: bool, framework: bool) {
    && steps != [] && steps[0] == Detect && Complete !in steps
    && (Airgap in steps <==> airgap) && (Framework in steps <==> framework)
  }

  lemma CompletedLast(steps: seq<Kind>, airgap: bool, framework: bool)
    requires Begun(steps, airgap, framework)
    ensures var all := steps + [CopyAndRun, Complete];
            Shaped(all) && Closes(all) && all[0] == Detect && (Airgap in all <==> airgap)
                && (Framework in all <==> framework)
  {
  }

  /** An install ends with a completing step, except the App-Framework's own, which has none. */
  method BuildPlan(m: Module, o: Options) returns (steps: seq<Kind>)
    ensures Shaped(steps)
    ensures Closes(steps) <==> m != AppFw
    ensures steps[0] == Detect && (Airgap in steps <==> o.airgap) && (Framework in steps <==> m == AppFw || o.osImage)
  {
    steps := [Detect];
    if o.airgap {
      steps := steps + [Airgap];
    }
    assert Begun(steps, o.airgap, false);
    if o.appctlStaged {
      steps := steps + [CopyAndRun];
    }
    if (m == AppFw || o.osImage) && o.extpack {
      steps := steps + [CopyAndRun];
    } else if m == AppFw || o.osImage {
      steps := steps + [CopyAndRun, CopyAndRun, CopyAndRun];
    }
    assert Begun(steps, o.airgap, false);
    if m == AppFw || o.osImage {
      steps := steps + [Framework];
    }
    assert Begun(steps, o.airgap, m == AppFw || o.osImage);
    if m == Cmp {
      steps := steps + [CopyAndRun];
      if o.keycloakStaged {
        steps := steps + [CopyAndRun];
      }
      assert Begun(steps, o.airgap, o.osImage);
      CompletedLast(steps, o.airgap, o.osImage);
      steps := steps + [CopyAndRun, Complete];
    }
    if m == Advisor {
      steps := steps + [CopyAndRun];
      if o.providerKey {
        steps := steps + [CopyAndRun];
      }
      assert Begun(steps, o.airgap, o.osImage);
      CompletedLast(steps, o.airgap, o.osImage);
      steps := steps + [CopyAndRun, Complete];
    }
  }

  /** Every uninstall ends with a completing step, so a finished one is recorded by that step itself. */
  method BuildUninstallPlan(m: Module) returns (steps: seq<Kind>)
    ensures Shaped(steps) && Closes(steps) && steps[0] == Detect
  {
    steps := [Detect];
    match m {
      case Cmp => steps := steps + [CopyAndRun];
      case Advisor => steps := steps + [CopyAndRun, RunCommand];
      case AppFw => steps := steps + [RunCommand, RunCommand];
    }
    steps := steps + [Complete];
  }
}
