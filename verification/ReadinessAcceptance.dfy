/**
 What the readiness checker accepts (scripts/live-workflow/baidu-search.ts:317-361), in terms of the fields of the steps
 and of their positions.
 */
module ReadinessAcceptance {
  import opened Wrappers
  import opened JsonPatch
  import opened Readiness

  /** Into a branch of one step of the list. */
  datatype Turn = Turn(index: nat, branch: Branch)

  /** The list of steps at the end of a path; empty where there is none. */
  function ListAt(steps: seq<Json>, path: seq<Turn>): seq<Json>
    decreases |path|
  {
    if path == [] then steps
    else
      var t := path[0];
      if t.index < |steps| && steps[t.index].JObj? then ListAt(BranchSteps(steps[t.index].members, t.branch), path[1..])
      else []
  }

  predicate Acts(step: Json, action: string) {
    step.JObj? && "action" in step.members && step.members["action"] == JStr(action)
  }

  /** An extraction of all elements that match. */
  predicate ExtractsAll(step: Json) {
    Acts(step, "extract") && "multiple" in step.members && step.members["multiple"] == JBool(true)
  }

  /** A wait for a fixed time that no condition can skip. */
  predicate WaitsAnyway(step: Json) {
    Acts(step, "waitForTimeout") && ("condition" in step.members ==> step.members["condition"] == JNull)
  }

  function Identity(step: Json, selectors: Object): Option<Object>
    requires step.JObj?
  {
    if "target" in step.members then TargetIdentity(Some(step.members["target"]), selectors) else None
  }

  /** Some earlier step of the list waits for the target of step `i` to be visible, and between them there are fixed
      waits only. */
  predicate HasItsWait(steps: seq<Json>, i: nat, selectors: Object)
    requires i < |steps| && steps[i].JObj?
  {
    exists w | 0 <= w < i ::
      && Acts(steps[w], "waitForElementVisible")
      && Identity(steps[w], selectors).Some? && Identity(steps[w], selectors) == Identity(steps[i], selectors)
      && forall t | w < t < i :: WaitsAnyway(steps[t])
  }

  predicate EachHasItsWait(steps: seq<Json>, selectors: Object) {
    forall i | 0 <= i < |steps| && ExtractsAll(steps[i]) :: HasItsWait(steps, i, selectors)
  }

  /** The inner loop stops at the last step that is no fixed wait. */
  lemma {:induction false} StopsAt(steps: seq<Json>, i: int)
    requires -1 <= i < |steps|
    ensures forall t | ReadinessIndex(steps, i) < t <= i :: WaitsAnyway(steps[t])
    ensures ReadinessIndex(steps, i) >= 0 ==> !WaitsAnyway(steps[ReadinessIndex(steps, i)])
    decreases i + 1
  {
    if i >= 0 && steps[i].JObj? && PlainTimeout(steps[i].members) {
      StopsAt(steps, i - 1);
    }
  }

  lemma ReadyAtIs(steps: seq<Json>, i: nat, selectors: Object)
    requires i < |steps|
    ensures ReadyAt(steps, i, selectors) <==> (ExtractsAll(steps[i]) ==> HasItsWait(steps, i, selectors))
  {
    if ExtractsAll(steps[i]) {
      StopsAt(steps, i - 1);
      var r := ReadinessIndex(steps, i - 1);
      if HasItsWait(steps, i, selectors) {
        var w :| 0 <= w < i && Acts(steps[w], "waitForElementVisible")
            && Identity(steps[w], selectors).Some? && Identity(steps[w], selectors) == Identity(steps[i], selectors)
                 && forall t | w < t < i :: WaitsAnyway(steps[t]);
        ActionsDiffer(steps[w].members);
        assert !WaitsAnyway(steps[w]);
        assert r == w;
      }
    }
  }

  lemma {:induction false} AcceptedMeans(steps: seq<Json>, path: seq<Turn>, selectors: Object)
    requires Accepted(JArr(steps), selectors)
    ensures EachHasItsWait(ListAt(steps, path), selectors)
    decreases |path|
  {
    if path == [] {
      forall i | 0 <= i < |steps| && ExtractsAll(steps[i]) ensures HasItsWait(steps, i, selectors) {
        ReadyAtIs(steps, i, selectors);
        assert JArr(steps).items[i] == steps[i];
      }
    } else if path[0].index < |steps| && steps[path[0].index].JObj? {
      assert AcceptedStep(JArr(steps).items[path[0].index], selectors);
      BranchIsAccepted(steps[path[0].index].members, path[0].branch, selectors);
      AcceptedMeans(BranchSteps(steps[path[0].index].members, path[0].branch), path[1..], selectors);
    }
  }

  lemma BranchIsAccepted(o: Object, branch: Branch, selectors: Object)
    requires AcceptedStep(JObj(o), selectors)
    ensures Accepted(JArr(BranchSteps(o, branch)), selectors)
  {
    var held := Field(o, BranchName(branch));
    if branch.Case? {
      if held.Some? && held.value.JArr? && branch.k < |held.value.items| {
        assert AcceptedCase(held.value.items[branch.k], selectors);
      }
    } else if held.Some? {
      assert BranchName(branch) in BRANCHES by {
        assert BRANCHES[0] == "steps" && BRANCHES[1] == "then" && BRANCHES[2] == "else";
        assert BRANCHES[3] == "default" && BRANCHES[4] == "onOpen";
      }
      assert Accepted(o[BranchName(branch)], selectors);
    }
  }

  /** Wherever a path leads, each repeated extraction has its wait. */
  ghost predicate WaitedFor(steps: seq<Json>, selectors: Object) {
    forall path: seq<Turn> :: EachHasItsWait(ListAt(steps, path), selectors)
  }

  lemma InnerWaitedFor(steps: seq<Json>, i: nat, branch: Branch, selectors: Object)
    requires WaitedFor(steps, selectors) && i < |steps| && steps[i].JObj?
    ensures WaitedFor(BranchSteps(steps[i].members, branch), selectors)
  {
    var inner := BranchSteps(steps[i].members, branch);
    forall path: seq<Turn> ensures EachHasItsWait(ListAt(inner, path), selectors) {
      var longer := [Turn(i, branch)] + path;
      assert longer[1..] == path;
      assert ListAt(steps, longer) == ListAt(inner, path);
      assert EachHasItsWait(ListAt(steps, longer), selectors);
    }
  }

  function BranchOf(name: string): Branch {
    if name == "steps" then Steps
    else if name == "then" then Then
    else if name == "else" then Else
    else if name == "default" then Default
    else OnOpen
  }

  lemma {:induction false} WaitedForIsAccepted(v: Json, selectors: Object)
    requires v.JArr? && WaitedFor(v.items, selectors)
    ensures Accepted(v, selectors)
    decreases v, 1
  {
    forall i | 0 <= i < |v.items| ensures ReadyAt(v.items, i, selectors) && AcceptedStep(v.items[i], selectors) {
      ReadyAtIs(v.items, i, selectors);
      assert ListAt(v.items, []) == v.items;
      assert EachHasItsWait(ListAt(v.items, []), selectors);
      if v.items[i].JObj? {
        forall branch ensures WaitedFor(BranchSteps(v.items[i].members, branch), selectors) {
          InnerWaitedFor(v.items, i, branch, selectors);
        }
        StepIsAccepted(v.items[i], selectors);
      }
    }
  }

  lemma {:induction false} StepIsAccepted(step: Json, selectors: Object)
    requires step.JObj? && forall branch :: WaitedFor(BranchSteps(step.members, branch), selectors)
    ensures AcceptedStep(step, selectors)
    decreases step, 0
  {
    var o := step.members;
    forall name | name in BRANCHES && name in o ensures Accepted(o[name], selectors) {
      BranchNames(name);
      if o[name].JArr? {
        assert BranchSteps(o, BranchOf(name)) == o[name].items;
        WaitedForIsAccepted(o[name], selectors);
      }
    }
    if "cases" in o && o["cases"].JArr? {
      forall k | 0 <= k < |o["cases"].items| ensures AcceptedCase(o["cases"].items[k], selectors) {
        CaseIsAccepted(o, k, selectors);
      }
    }
  }

  lemma BranchNames(name: string)
    requires name in BRANCHES
    ensures BranchName(BranchOf(name)) == name && !BranchOf(name).Case?
  {
    assert BRANCHES[0] == "steps" && BRANCHES[1] == "then" && BRANCHES[2] == "else";
    assert BRANCHES[3] == "default" && BRANCHES[4] == "onOpen";
  }

  lemma {:induction false} CaseIsAccepted(o: Object, k: nat, selectors: Object)
    requires "cases" in o && o["cases"].JArr? && k < |o["cases"].items|
    requires forall branch :: WaitedFor(BranchSteps(o, branch), selectors)
    ensures AcceptedCase(o["cases"].items[k], selectors)
    decreases o["cases"], 0
  {
    var entry := o["cases"].items[k];
    if entry.JObj? && "steps" in entry.members && entry.members["steps"].JArr? {
      assert BranchSteps(o, Case(k)) == entry.members["steps"].items;
      WaitedForIsAccepted(entry.members["steps"], selectors);
    }
  }

  /** A list is accepted exactly when, in it and in every branch and case list to any depth, each repeated extraction
      has an earlier wait for its own target to be visible with nothing but fixed waits between them. */
  lemma AcceptedWhen(steps: seq<Json>, selectors: Object)
    ensures Accepted(JArr(steps), selectors) <==> WaitedFor(steps, selectors)
  {
    if Accepted(JArr(steps), selectors) {
      forall path: seq<Turn> ensures EachHasItsWait(ListAt(steps, path), selectors) {
        AcceptedMeans(steps, path, selectors);
      }
    }
    if WaitedFor(steps, selectors) {
      WaitedForIsAccepted(JArr(steps), selectors);
    }
  }

  /** A wait for a target, any fixed waits, and the repeated extraction of it are accepted. */
  lemma WaitThenExtractIsAccepted(wait: Json, pauses: seq<Json>, extract: Json, selectors: Object)
    requires Acts(wait, "waitForElementVisible") && ExtractsAll(extract) && forall p | p in pauses :: WaitsAnyway(p)
    requires Identity(wait, selectors).Some? && Identity(wait, selectors) == Identity(extract, selectors)
    requires forall s, branch | s in [wait] + pauses + [extract] && s.JObj? :: BranchSteps(s.members, branch) == []
    ensures Accepted(JArr([wait] + pauses + [extract]), selectors)
  {
    var steps := [wait] + pauses + [extract];
    ActionsDiffer(wait.members);
    forall j | 0 <= j < |pauses| ensures steps[j + 1] == pauses[j] && WaitsAnyway(pauses[j]) && !ExtractsAll(pauses[j]) {
      assert pauses[j] in pauses;
      ActionsDiffer(pauses[j].members);
    }
    assert steps[0] == wait && forall t | 0 < t < |steps| - 1 :: steps[t] == pauses[t - 1];
    assert |steps| - 1 > 0 && HasItsWait(steps, |steps| - 1, selectors);
    forall path: seq<Turn> ensures EachHasItsWait(ListAt(steps, path), selectors) {
      if path != [] && path[0].index < |steps| && steps[path[0].index].JObj? {
        assert steps[path[0].index] in steps;
        NothingBelow(path[1..]);
      }
    }
    AcceptedWhen(steps, selectors);
  }

  lemma NothingBelow(path: seq<Turn>)
    ensures ListAt([], path) == []
  {
  }
}
