/**
 The readiness checker of scripts/live-workflow/baidu-search.ts (lines 286-361): a repeated extraction may
 only follow a wait for its own target to be visible. Its meaning is given against the way
 src/scriptcat-engine/executor-utils.ts runs a list of steps.
 */
module Readiness {
  import opened Wrappers
  import opened JsonPatch

  // ---------- reading a step ----------

  predicate HasAction(o: Object, action: string) { Field(o, "action") == Some(JStr(action)) }

  predicate Absent(o: Object, key: string) { Field(o, key) in {None, Some(JNull)} }

  predicate Truthy(v: Option<Json>) {
    match v
    case None => false
    case Some(JNull) => false
    case Some(JBool(b)) => b
    case Some(JNum(n)) => n != 0.0
    case Some(JStr(s)) => s != ""
    case Some(_) => true
  }

  predicate RepeatedExtract(o: Object) { HasAction(o, "extract") && Field(o, "multiple") == Some(JBool(true)) }

  predicate PlainTimeout(o: Object) { HasAction(o, "waitForTimeout") && Absent(o, "condition") }

  predicate VisibleWait(o: Object) { HasAction(o, "waitForElementVisible") }

  // ---------- target identity ----------

  const IGNORED: set<string> := {"$ref", "visible", "timeout", "multiple"}

  function RefOf(target: Object): string {
    match Field(target, "$ref")
    case Some(JStr(ref)) => ref
    case _ => ""
  }

  /** `targetIdentity`; `None` is the empty string. Canonical text is represented by the value it spells. */
  function TargetIdentity(target: Option<Json>, selectors: Object): Option<Object> {
    match target
    case Some(JObj(own)) =>
      var ref := RefOf(own);
      (if ref == "" then Some(own - IGNORED)
       else
         match Field(selectors, ref)
         case Some(JObj(alias)) => Some((alias + own) - IGNORED)
         case _ => None)
    case _ => None
  }

  // ---------- the checker ----------

  /** Where the inner loop stops, going back from `i` over unconditional timeouts; -1 before the first step. */
  function ReadinessIndex(steps: seq<Json>, i: int): (r: int)
    requires -1 <= i < |steps|
    ensures -1 <= r <= i
    decreases i + 1
  {
    if i >= 0 && steps[i].JObj? && PlainTimeout(steps[i].members) then ReadinessIndex(steps, i - 1) else i
  }

  predicate ReadyFor(previous: Json, step: Object, selectors: Object) {
    && previous.JObj? && VisibleWait(previous.members)
    && TargetIdentity(Field(previous.members, "target"), selectors).Some?
    && TargetIdentity(Field(previous.members, "target"), selectors) == TargetIdentity(Field(step, "target"), selectors)
  }

  predicate ReadyAt(steps: seq<Json>, i: nat, selectors: Object)
    requires i < |steps|
  {
    steps[i].JObj? && RepeatedExtract(steps[i].members) ==>
      var r := ReadinessIndex(steps, i - 1);
      r >= 0 && ReadyFor(steps[r], steps[i].members, selectors)
  }

  const BRANCHES: seq<string> := ["steps", "then", "else", "default", "onOpen"]

  /** `assertRepeatedExtractionReadiness` passes. */
  predicate Accepted(v: Json, selectors: Object)
    decreases v, 1
  {
    match v
    case JArr(steps) =>
      forall i | 0 <= i < |steps| :: ReadyAt(steps, i, selectors) && AcceptedStep(steps[i], selectors)
    case _ => true
  }

  predicate AcceptedStep(step: Json, selectors: Object)
    decreases step, 0
  {
    match step
    case JObj(o) =>
      && (forall branch | branch in BRANCHES && branch in o :: Accepted(o[branch], selectors))
      && ("cases" in o && o["cases"].JArr? ==>
            forall k | 0 <= k < |o["cases"].items| :: AcceptedCase(o["cases"].items[k], selectors))
    case _ => true
  }

  predicate AcceptedCase(entry: Json, selectors: Object)
    decreases entry, 0
  {
    match entry
    case JObj(c) => "steps" in c ==> Accepted(c["steps"], selectors)
    case _ => true
  }

  // ---------- how a list of steps runs ----------

  datatype Branch = Steps | Then | Else | Default | OnOpen | Case(k: nat)

  /** How one step went: skipped by its condition, its action done or failed, or, for a step that holds others,
      the passes made over them. `goesOn` tells whether the next step is reached. */
  datatype StepRun =
    | Skipped
    | Done
    | Failed(goesOn: bool)
    | Inside(passes: seq<Pass>, goesOn: bool)

  /** One pass over a branch may stop anywhere. */
  datatype Pass = Pass(branch: Branch, runs: seq<StepRun>)

  datatype Event = Ran(step: Json, completed: bool)

  predicate FlowControl(o: Object) { HasAction(o, "if") || HasAction(o, "loop") || HasAction(o, "switch") || HasAction(o, "group") }

  predicate Container(o: Object) {
    FlowControl(o) || HasAction(o, "retry") || HasAction(o, "circuitBreaker") || HasAction(o, "requestHuman")
  }

  /** The branches that the handler of an action runs. */
  predicate Opens(o: Object, branch: Branch) {
    match branch
    case Steps => HasAction(o, "loop") || HasAction(o, "group") || HasAction(o, "retry")
    case Then => HasAction(o, "if") || HasAction(o, "requestHuman")
    case Else => HasAction(o, "if")
    case Default => HasAction(o, "switch")
    case OnOpen => HasAction(o, "circuitBreaker")
    case Case(_) => HasAction(o, "switch")
  }

  function BranchName(branch: Branch): string {
    match branch
    case Steps => "steps"
    case Then => "then"
    case Else => "else"
    case Default => "default"
    case OnOpen => "onOpen"
    case Case(_) => "cases"
  }

  /** The steps of a branch, when there is a list of them. */
  function BranchSteps(o: Object, branch: Branch): (r: seq<Json>) {
    var held := Field(o, BranchName(branch));
    match branch
    case Case(k) =>
      (match held
       case Some(JArr(cases)) =>
         if k < |cases| && cases[k].JObj? && "steps" in cases[k].members && cases[k].members["steps"].JArr?
         then cases[k].members["steps"].items else []
       case _ => [])
    case _ => if held.Some? && held.value.JArr? then held.value.items else []
  }

  /** A failed step lets the run go on. */
  predicate Recovers(o: Object) { Field(o, "onError") in {Some(JStr("continue")), Some(JStr("skip")), Some(JStr("requestHuman"))} }

  predicate GoesOn(r: StepRun) {
    match r
    case Skipped => true
    case Done => true
    case Failed(goesOn) => goesOn
    case Inside(_, goesOn) => goesOn
  }

  predicate StepRuns(step: Json, r: StepRun)
    decreases r
  {
    match step
    case JObj(o) =>
      (match r
       case Skipped => Truthy(Field(o, "condition")) && !FlowControl(o)
       case Done => !Container(o)
       case Failed(goesOn) => !Container(o) && goesOn == Recovers(o)
       case Inside(passes, _) =>
         Container(o) && forall p | 0 <= p < |passes| ::
           Opens(o, passes[p].branch) && ListRuns(BranchSteps(o, passes[p].branch), passes[p].runs))
    case _ => r == Failed(false)
  }

  /** The steps of a list run in order, each only when the one before let the run go on. */
  predicate ListRuns(steps: seq<Json>, runs: seq<StepRun>)
    decreases runs
  {
    && |runs| <= |steps|
    && (forall i | 0 <= i < |runs| :: StepRuns(steps[i], runs[i]))
    && (forall i | 0 <= i < |runs| - 1 :: GoesOn(runs[i]))
  }

  // ---------- traces ----------

  function StepEvents(step: Json, r: StepRun): seq<Event>
    decreases r
  {
    match r
    case Skipped => []
    case Done => [Ran(step, true)]
    case Failed(_) => [Ran(step, false)]
    case Inside(passes, _) => if step.JObj? then PassEvents(step.members, passes) else []
  }

  function PassEvents(o: Object, passes: seq<Pass>): seq<Event>
    decreases passes
  {
    if passes == [] then []
    else
      var last := passes[|passes| - 1];
      PassEvents(o, passes[..|passes| - 1]) + ListEvents(BranchSteps(o, last.branch), last.runs)
  }

  function ListEvents(steps: seq<Json>, runs: seq<StepRun>): seq<Event>
    decreases runs
  {
    if runs == [] || |runs| > |steps| then []
    else
      var n := |runs| - 1;
      ListEvents(steps, runs[..n]) + StepEvents(steps[n], runs[n])
  }

  /** The trace ends with a completed wait for this target and, after it, unconditional timeouts only. */
  predicate Ready(trace: seq<Event>, target: Option<Object>, selectors: Object) {
    trace != [] &&
    var last := trace[|trace| - 1];
    last.step.JObj? &&
    ((&& last.completed && VisibleWait(last.step.members)
      && target.Some? && TargetIdentity(Field(last.step.members, "target"), selectors) == target)
     || (PlainTimeout(last.step.members) && Ready(trace[..|trace| - 1], target, selectors)))
  }

  /** Every repeated extraction in the trace was reached ready. */
  predicate Guarded(trace: seq<Event>, selectors: Object) {
    trace == [] ||
    (var last := trace[|trace| - 1];
     && Guarded(trace[..|trace| - 1], selectors)
     && (last.step.JObj? && RepeatedExtract(last.step.members) ==>
           Ready(trace[..|trace| - 1], TargetIdentity(Field(last.step.members, "target"), selectors), selectors)))
  }

  // ---------- waits that hold ----------

  /** A wait that cannot be skipped and whose failure stops the list. */
  predicate Blocking(o: Object) { !Truthy(Field(o, "condition")) && !Recovers(o) }

  predicate WaitsHoldAt(steps: seq<Json>, i: nat)
    requires i < |steps|
  {
    steps[i].JObj? && RepeatedExtract(steps[i].members) ==>
      var r := ReadinessIndex(steps, i - 1);
      r >= 0 && steps[r].JObj? ==> Blocking(steps[r].members)
  }

  /** Every readiness wait that the checker relies on holds. */
  predicate WaitsHold(v: Json)
    decreases v, 1
  {
    match v
    case JArr(steps) => forall i | 0 <= i < |steps| :: WaitsHoldAt(steps, i) && WaitsHoldIn(steps[i])
    case _ => true
  }

  predicate WaitsHoldIn(step: Json)
    decreases step, 0
  {
    match step
    case JObj(o) =>
      && (forall branch | branch in BRANCHES && branch in o :: WaitsHold(o[branch]))
      && ("cases" in o && o["cases"].JArr? ==>
            forall k | 0 <= k < |o["cases"].items| :: WaitsHoldInCase(o["cases"].items[k]))
    case _ => true
  }

  predicate WaitsHoldInCase(entry: Json)
    decreases entry, 0
  {
    match entry
    case JObj(c) => "steps" in c ==> WaitsHold(c["steps"])
    case _ => true
  }

  // ---------- traces put together ----------

  lemma {:induction false} ReadyAfter(first: seq<Event>, second: seq<Event>, target: Option<Object>, selectors: Object)
    requires Ready(second, target, selectors)
    ensures Ready(first + second, target, selectors)
    decreases |second|
  {
    var n := |second| - 1;
    assert (first + second)[..|first + second| - 1] == first + second[..n];
    var last := second[n];
    if !(last.completed && VisibleWait(last.step.members)
         && target.Some? && TargetIdentity(Field(last.step.members, "target"), selectors) == target) {
      ReadyAfter(first, second[..n], target, selectors);
    }
  }

  /** Guarded traces one after the other are guarded. */
  lemma {:induction false} GuardedConcat(first: seq<Event>, second: seq<Event>, selectors: Object)
    requires Guarded(first, selectors) && Guarded(second, selectors)
    ensures Guarded(first + second, selectors)
    decreases |second|
  {
    if second == [] {
      assert first + second == first;
    } else {
      var n := |second| - 1;
      assert (first + second)[..|first + second| - 1] == first + second[..n];
      GuardedConcat(first, second[..n], selectors);
      var last := second[n];
      if last.step.JObj? && RepeatedExtract(last.step.members) {
        ReadyAfter(first, second[..n], TargetIdentity(Field(last.step.members, "target"), selectors), selectors);
      }
    }
  }

  lemma ListEventsStep(steps: seq<Json>, runs: seq<StepRun>, i: nat)
    requires i < |runs| <= |steps|
    ensures ListEvents(steps, runs[..i + 1]) == ListEvents(steps, runs[..i]) + StepEvents(steps[i], runs[i])
  {
    assert runs[..i + 1][..i] == runs[..i];
  }

  lemma ActionsDiffer(o: Object)
    ensures VisibleWait(o) || PlainTimeout(o) || RepeatedExtract(o) ==> !Container(o)
    ensures VisibleWait(o) ==> !PlainTimeout(o)
  {
    assert "waitForElementVisible"[7] != "waitForTimeout"[7];
    assert "extract"[0] == 'e' && "waitForTimeout"[0] == 'w' && "waitForElementVisible"[0] == 'w';
    assert "if"[0] == 'i' && "loop"[0] == 'l' && "switch"[0] == 's' && "group"[0] == 'g';
    assert "retry"[0] == 'r' && "circuitBreaker"[0] == 'c' && "requestHuman"[0] == 'r';
  }

  /** Once the steps before `i` have run and gone on, the trace ends with the wait that the checker found. */
  lemma {:induction false} WaitPrecedes(steps: seq<Json>, runs: seq<StepRun>, i: nat, target: Option<Object>,
      selectors: Object)
    requires i <= |runs| <= |steps|
    requires forall j | 0 <= j < i :: StepRuns(steps[j], runs[j]) && GoesOn(runs[j])
    requires
      var r := ReadinessIndex(steps, i - 1);
      && r >= 0 && steps[r].JObj? && VisibleWait(steps[r].members) && Blocking(steps[r].members)
      && target.Some? && TargetIdentity(Field(steps[r].members, "target"), selectors) == target
    ensures Ready(ListEvents(steps, runs[..i]), target, selectors)
    decreases i
  {
    var last := i - 1;
    var o := steps[last].members;
    ActionsDiffer(o);
    ListEventsStep(steps, runs, last);
    var trace := ListEvents(steps, runs[..last]);
    assert StepRuns(steps[last], runs[last]) && GoesOn(runs[last]);
    if PlainTimeout(o) {
      WaitPrecedes(steps, runs, last, target, selectors);
      assert StepEvents(steps[last], runs[last]) == [Ran(steps[last], runs[last].Done?)];
      assert (trace + [Ran(steps[last], runs[last].Done?)])[..|trace|] == trace;
    } else {
      assert StepEvents(steps[last], runs[last]) == [Ran(steps[last], true)];
    }
  }

  // ---------- the checker is sound ----------

  lemma BranchIsChecked(o: Object, branch: Branch, selectors: Object)
    requires AcceptedStep(JObj(o), selectors) && WaitsHoldIn(JObj(o))
    ensures Accepted(JArr(BranchSteps(o, branch)), selectors) && WaitsHold(JArr(BranchSteps(o, branch)))
  {
    var held := Field(o, BranchName(branch));
    if branch.Case? {
      if held.Some? && held.value.JArr? && branch.k < |held.value.items| {
        var entry := held.value.items[branch.k];
        assert AcceptedCase(entry, selectors) && WaitsHoldInCase(entry);
      }
    } else {
      assert BranchName(branch) in BRANCHES by {
        assert BRANCHES[0] == "steps" && BRANCHES[1] == "then" && BRANCHES[2] == "else";
        assert BRANCHES[3] == "default" && BRANCHES[4] == "onOpen";
      }
      if held.Some? {
        assert Accepted(o[BranchName(branch)], selectors) && WaitsHold(o[BranchName(branch)]);
      }
    }
  }

  ghost predicate PassGuarded(o: Object, pass: Pass, selectors: Object) {
    Guarded(ListEvents(BranchSteps(o, pass.branch), pass.runs), selectors)
  }

  lemma {:induction false} PassesAreGuarded(o: Object, passes: seq<Pass>, selectors: Object)
    requires forall pass | pass in passes :: PassGuarded(o, pass, selectors)
    ensures Guarded(PassEvents(o, passes), selectors)
    decreases |passes|
  {
    if passes != [] {
      var last := passes[|passes| - 1];
      var before := PassEvents(o, passes[..|passes| - 1]);
      assert last in passes && PassGuarded(o, last, selectors);
      PassesAreGuarded(o, passes[..|passes| - 1], selectors);
      GuardedConcat(before, ListEvents(BranchSteps(o, last.branch), last.runs), selectors);
    }
  }

  lemma {:induction false} PassIsGuarded(o: Object, pass: Pass, selectors: Object)
    requires AcceptedStep(JObj(o), selectors) && WaitsHoldIn(JObj(o)) && ListRuns(BranchSteps(o, pass.branch), pass.runs)
    ensures PassGuarded(o, pass, selectors)
    decreases pass
  {
    BranchIsChecked(o, pass.branch, selectors);
    CheckedListIsGuarded(BranchSteps(o, pass.branch), pass.runs, selectors);
  }

  /** The events of one step: its own, or those of the passes inside it. */
  lemma {:induction false} StepIsGuarded(before: seq<Event>, step: Json, r: StepRun, selectors: Object)
    requires Guarded(before, selectors) && StepRuns(step, r) && AcceptedStep(step, selectors) && WaitsHoldIn(step)
    requires step.JObj? && RepeatedExtract(step.members)
             ==> Ready(before, TargetIdentity(Field(step.members, "target"), selectors), selectors)
    ensures Guarded(before + StepEvents(step, r), selectors)
    decreases r
  {
    match r
    case Skipped => assert before + [] == before;
    case Inside(passes, _) =>
      forall pass | pass in passes ensures PassGuarded(step.members, pass, selectors) {
        var p :| 0 <= p < |passes| && passes[p] == pass;
        PassIsGuarded(step.members, passes[p], selectors);
      }
      PassesAreGuarded(step.members, passes, selectors);
      GuardedConcat(before, StepEvents(step, r), selectors);
    case _ => assert (before + StepEvents(step, r))[..|before|] == before;
  }

  /** If the checker accepts a list and the waits it relies on hold, then however the list runs, whatever branches,
      cases and numbers of passes are taken and wherever they stop, each repeated extraction comes after a completed
      wait for its own target to be visible, with unconditional timeouts at most in between. */
  lemma {:induction false} CheckedListIsGuarded(steps: seq<Json>, runs: seq<StepRun>, selectors: Object)
    requires Accepted(JArr(steps), selectors) && WaitsHold(JArr(steps)) && ListRuns(steps, runs)
    ensures Guarded(ListEvents(steps, runs), selectors)
    decreases runs
  {
    if runs != [] {
      var n := |runs| - 1;
      var before := ListEvents(steps, runs[..n]);
      CheckedListIsGuarded(steps, runs[..n], selectors);
      assert JArr(steps).items[n] == steps[n];
      assert ReadyAt(steps, n, selectors) && AcceptedStep(steps[n], selectors);
      assert WaitsHoldAt(steps, n) && WaitsHoldIn(steps[n]);
      if steps[n].JObj? && RepeatedExtract(steps[n].members) {
        WaitPrecedes(steps, runs, n, TargetIdentity(Field(steps[n].members, "target"), selectors), selectors);
      }
      StepIsGuarded(before, steps[n], runs[n], selectors);
    }
  }

  // ---------- what guarded means ----------

  lemma {:induction false} ReadyMeans(trace: seq<Event>, target: Option<Object>, selectors: Object) returns (j: nat)
    requires Ready(trace, target, selectors)
    ensures j < |trace| && trace[j].completed && trace[j].step.JObj? && VisibleWait(trace[j].step.members)
    ensures target.Some? && TargetIdentity(Field(trace[j].step.members, "target"), selectors) == target
    ensures forall l | j < l < |trace| :: trace[l].step.JObj? && PlainTimeout(trace[l].step.members)
    decreases |trace|
  {
    var last := trace[|trace| - 1];
    if last.completed && VisibleWait(last.step.members)
       && target.Some? && TargetIdentity(Field(last.step.members, "target"), selectors) == target {
      j := |trace| - 1;
    } else {
      j := ReadyMeans(trace[..|trace| - 1], target, selectors);
    }
  }

  lemma {:induction false} GuardedAt(trace: seq<Event>, k: nat, selectors: Object)
    requires Guarded(trace, selectors) && k < |trace|
    requires trace[k].step.JObj? && RepeatedExtract(trace[k].step.members)
    ensures Ready(trace[..k], TargetIdentity(Field(trace[k].step.members, "target"), selectors), selectors)
    decreases |trace|
  {
    if k < |trace| - 1 {
      assert trace[..|trace| - 1][..k] == trace[..k];
      GuardedAt(trace[..|trace| - 1], k, selectors);
    }
  }

  /** Soundness, read at one extraction of a trace. */
  lemma ExtractionIsReady(steps: seq<Json>, runs: seq<StepRun>, selectors: Object, k: nat) returns (j: nat)
    requires Accepted(JArr(steps), selectors) && WaitsHold(JArr(steps)) && ListRuns(steps, runs)
    requires k < |ListEvents(steps, runs)|
    requires
      var extract := ListEvents(steps, runs)[k].step;
      extract.JObj? && RepeatedExtract(extract.members)
    ensures
      var trace := ListEvents(steps, runs);
      && j < k && trace[j].completed && trace[j].step.JObj? && VisibleWait(trace[j].step.members)
      && TargetIdentity(Field(trace[j].step.members, "target"), selectors).Some?
      && TargetIdentity(Field(trace[j].step.members, "target"), selectors)
         == TargetIdentity(Field(trace[k].step.members, "target"), selectors)
      && forall l | j < l < k :: trace[l].step.JObj? && PlainTimeout(trace[l].step.members)
  {
    var trace := ListEvents(steps, runs);
    CheckedListIsGuarded(steps, runs, selectors);
    GuardedAt(trace, k, selectors);
    j := ReadyMeans(trace[..k], TargetIdentity(Field(trace[k].step.members, "target"), selectors), selectors);
  }

  // ---------- the condition on waits is exact ----------

  predicate PlainTimeouts(steps: seq<Json>) { forall i | 0 <= i < |steps| :: steps[i].JObj? && PlainTimeout(steps[i].members) }

  /** The shape the checker asks for: a wait, unconditional timeouts, the extraction. */
  predicate Segment(wait: Object, timeouts: seq<Json>, extract: Object, selectors: Object) {
    PlainTimeouts(timeouts) && RepeatedExtract(extract) && ReadyFor(JObj(wait), extract, selectors)
  }

  function Dones(n: nat): (r: seq<StepRun>)
    ensures |r| == n && forall i | 0 <= i < n :: r[i] == Done
  {
    seq(n, i requires 0 <= i < n => Done)
  }

  /** The run in which the wait does not hold. */
  function SlippedRun(wait: Object, timeouts: seq<Json>): seq<StepRun> {
    [if Truthy(Field(wait, "condition")) then Skipped else Failed(true)] + Dones(|timeouts|) + [Done]
  }

  lemma SlippedRuns(wait: Object, timeouts: seq<Json>, extract: Object, selectors: Object)
    requires Segment(wait, timeouts, extract, selectors) && !Blocking(wait)
    ensures ListRuns([JObj(wait)] + timeouts + [JObj(extract)], SlippedRun(wait, timeouts))
  {
    var steps, runs := [JObj(wait)] + timeouts + [JObj(extract)], SlippedRun(wait, timeouts);
    ActionsDiffer(wait);
    ActionsDiffer(extract);
    forall i | 0 <= i < |runs| ensures StepRuns(steps[i], runs[i]) {
      if 0 < i < |runs| - 1 {
        assert steps[i] == timeouts[i - 1];
        ActionsDiffer(timeouts[i - 1].members);
      }
    }
  }

  lemma {:induction false} SlippedIsNotReady(wait: Object, timeouts: seq<Json>, extract: Object, n: nat,
      target: Option<Object>, selectors: Object)
    requires Segment(wait, timeouts, extract, selectors) && n <= |timeouts|
    ensures !Ready(ListEvents([JObj(wait)] + timeouts + [JObj(extract)], SlippedRun(wait, timeouts)[..n + 1]), target, selectors)
  {
    var steps, runs := [JObj(wait)] + timeouts + [JObj(extract)], SlippedRun(wait, timeouts);
    ListEventsStep(steps, runs, n);
    if n == 0 {
      SlippedWait(wait, target, selectors);
      assert ListEvents(steps, runs[..0]) == [];
      assert [] + StepEvents(steps[0], runs[0]) == StepEvents(steps[0], runs[0]);
    } else {
      SlippedIsNotReady(wait, timeouts, extract, n - 1, target, selectors);
      assert steps[n] == timeouts[n - 1] && runs[n] == Done;
      TimeoutKeepsUnready(ListEvents(steps, runs[..n]), timeouts[n - 1], target, selectors);
    }
  }

  lemma SlippedWait(wait: Object, target: Option<Object>, selectors: Object)
    requires VisibleWait(wait)
    ensures
      var r := if Truthy(Field(wait, "condition")) then Skipped else Failed(true);
      !Ready(StepEvents(JObj(wait), r), target, selectors)
  {
    ActionsDiffer(wait);
    assert [Ran(JObj(wait), false)][..0] == [];
  }

  lemma TimeoutKeepsUnready(before: seq<Event>, step: Json, target: Option<Object>, selectors: Object)
    requires !Ready(before, target, selectors) && step.JObj? && PlainTimeout(step.members)
    ensures !Ready(before + [Ran(step, true)], target, selectors)
  {
    ActionsDiffer(step.members);
    assert (before + [Ran(step, true)])[..|before|] == before;
  }

  lemma SlippedIsUnguarded(wait: Object, timeouts: seq<Json>, extract: Object, selectors: Object)
    requires Segment(wait, timeouts, extract, selectors)
    ensures !Guarded(ListEvents([JObj(wait)] + timeouts + [JObj(extract)], SlippedRun(wait, timeouts)), selectors)
  {
    var steps, runs := [JObj(wait)] + timeouts + [JObj(extract)], SlippedRun(wait, timeouts);
    var n := |timeouts| + 1;
    SlippedIsNotReady(wait, timeouts, extract, |timeouts|, TargetIdentity(Field(extract, "target"), selectors), selectors);
    ListEventsStep(steps, runs, n);
    assert runs[..n + 1] == runs && steps[n] == JObj(extract) && runs[n] == Done;
    UnreadyIsUnguarded(ListEvents(steps, runs[..n]), extract, selectors);
  }

  lemma UnreadyIsUnguarded(before: seq<Event>, extract: Object, selectors: Object)
    requires RepeatedExtract(extract)
    requires !Ready(before, TargetIdentity(Field(extract, "target"), selectors), selectors)
    ensures !Guarded(before + [Ran(JObj(extract), true)], selectors)
  {
    assert (before + [Ran(JObj(extract), true)])[..|before|] == before;
  }

  lemma SegmentIndex(wait: Object, timeouts: seq<Json>, extract: Object, selectors: Object, i: nat)
    requires Segment(wait, timeouts, extract, selectors) && i <= |timeouts|
    ensures ReadinessIndex([JObj(wait)] + timeouts + [JObj(extract)], i) == 0
    decreases i
  {
    ActionsDiffer(wait);
    if i > 0 {
      assert ([JObj(wait)] + timeouts + [JObj(extract)])[i] == timeouts[i - 1];
      SegmentIndex(wait, timeouts, extract, selectors, i - 1);
    }
  }

  lemma {:induction false} SegmentIsGuarded(wait: Object, timeouts: seq<Json>, extract: Object, runs: seq<StepRun>,
      selectors: Object)
    requires Segment(wait, timeouts, extract, selectors) && Blocking(wait)
    requires ListRuns([JObj(wait)] + timeouts + [JObj(extract)], runs)
    ensures Guarded(ListEvents([JObj(wait)] + timeouts + [JObj(extract)], runs), selectors)
    decreases |runs|
  {
    var steps := [JObj(wait)] + timeouts + [JObj(extract)];
    if runs != [] {
      var n := |runs| - 1;
      var before := ListEvents(steps, runs[..n]);
      SegmentIsGuarded(wait, timeouts, extract, runs[..n], selectors);
      ActionsDiffer(steps[n].members);
      if n == |timeouts| + 1 {
        SegmentIndex(wait, timeouts, extract, selectors, |timeouts|);
        WaitPrecedes(steps, runs, n, TargetIdentity(Field(extract, "target"), selectors), selectors);
      } else {
        WaitIsNoExtract(steps[n].members);
      }
      LeafIsGuarded(before, steps[n], runs[n], selectors);
    }
  }

  lemma WaitIsNoExtract(o: Object)
    ensures VisibleWait(o) || PlainTimeout(o) ==> !RepeatedExtract(o)
  {
    assert "waitForElementVisible"[0] != "extract"[0] && "waitForTimeout"[0] != "extract"[0];
  }

  lemma LeafIsGuarded(before: seq<Event>, step: Json, r: StepRun, selectors: Object)
    requires Guarded(before, selectors) && StepRuns(step, r) && step.JObj? && !Container(step.members)
    requires RepeatedExtract(step.members)
             ==> Ready(before, TargetIdentity(Field(step.members, "target"), selectors), selectors)
    ensures Guarded(before + StepEvents(step, r), selectors)
  {
    if r.Skipped? {
      assert before + [] == before;
    } else {
      assert (before + StepEvents(step, r))[..|before|] == before;
    }
  }

  /** For a segment that the checker accepts, every run is guarded exactly when the wait is unconditional and
      stops the list when it fails. The checker looks at neither. */
  lemma SegmentIsSoundWhenWaitHolds(wait: Object, timeouts: seq<Json>, extract: Object, selectors: Object)
    requires Segment(wait, timeouts, extract, selectors)
    ensures
      var steps := [JObj(wait)] + timeouts + [JObj(extract)];
      Blocking(wait) <==> forall runs: seq<StepRun> | ListRuns(steps, runs) :: Guarded(ListEvents(steps, runs), selectors)
  {
    var steps := [JObj(wait)] + timeouts + [JObj(extract)];
    if Blocking(wait) {
      forall runs: seq<StepRun> | ListRuns(steps, runs) ensures Guarded(ListEvents(steps, runs), selectors) {
        SegmentIsGuarded(wait, timeouts, extract, runs, selectors);
      }
    } else {
      SlippedRuns(wait, timeouts, extract, selectors);
      SlippedIsUnguarded(wait, timeouts, extract, selectors);
    }
  }

  // ---------- a whole tree: exactly when every run is guarded ----------

  /** Whether a trace is ready for the target after one more event. */
  predicate ReadyNext(event: Event, target: Option<Object>, selectors: Object, ready: bool) {
    event.step.JObj? &&
    ((&& event.completed && VisibleWait(event.step.members)
      && target.Some? && TargetIdentity(Field(event.step.members, "target"), selectors) == target)
     || (PlainTimeout(event.step.members) && ready))
  }

  predicate ReadyThen(events: seq<Event>, target: Option<Object>, selectors: Object, ready: bool) {
    if events == [] then ready
    else ReadyNext(events[|events| - 1], target, selectors, ReadyThen(events[..|events| - 1], target, selectors, ready))
  }

  predicate ExtractsFor(step: Json, target: Option<Object>, selectors: Object) {
    step.JObj? && RepeatedExtract(step.members) && TargetIdentity(Field(step.members, "target"), selectors) == target
  }

  /** Some repeated extraction of this target is reached while the trace is not ready for it. */
  predicate Caught(events: seq<Event>, target: Option<Object>, selectors: Object, ready: bool) {
    events != [] &&
    (var init, last := events[..|events| - 1], events[|events| - 1];
     || Caught(init, target, selectors, ready)
     || (ExtractsFor(last.step, target, selectors) && !ReadyThen(init, target, selectors, ready)))
  }

  lemma {:induction false} ThenConcat(first: seq<Event>, second: seq<Event>, target: Option<Object>, selectors: Object,
      ready: bool)
    ensures ReadyThen(first + second, target, selectors, ready)
            == ReadyThen(second, target, selectors, ReadyThen(first, target, selectors, ready))
    ensures Caught(first + second, target, selectors, ready)
            <==> || Caught(first, target, selectors, ready)
                 || Caught(second, target, selectors, ReadyThen(first, target, selectors, ready))
    decreases |second|
  {
    if second == [] {
      assert first + second == first;
    } else {
      var n := |second| - 1;
      assert (first + second)[..|first + second| - 1] == first + second[..n];
      ThenConcat(first, second[..n], target, selectors, ready);
    }
  }

  lemma {:induction false} ReadyIsThen(trace: seq<Event>, target: Option<Object>, selectors: Object)
    ensures Ready(trace, target, selectors) == ReadyThen(trace, target, selectors, false)
    decreases |trace|
  {
    if trace != [] {
      ReadyIsThen(trace[..|trace| - 1], target, selectors);
    }
  }

  lemma {:induction false} GuardedCatchesNone(trace: seq<Event>, target: Option<Object>, selectors: Object)
    requires Guarded(trace, selectors)
    ensures !Caught(trace, target, selectors, false)
    decreases |trace|
  {
    if trace != [] {
      GuardedCatchesNone(trace[..|trace| - 1], target, selectors);
      ReadyIsThen(trace[..|trace| - 1], target, selectors);
    }
  }

  lemma {:induction false} UnguardedCatches(trace: seq<Event>, selectors: Object) returns (target: Option<Object>)
    requires !Guarded(trace, selectors)
    ensures Caught(trace, target, selectors, false)
    decreases |trace|
  {
    var init, last := trace[..|trace| - 1], trace[|trace| - 1];
    if Guarded(init, selectors) {
      target := TargetIdentity(Field(last.step.members, "target"), selectors);
      ReadyIsThen(init, target, selectors);
    } else {
      target := UnguardedCatches(init, selectors);
    }
  }

  // What one step, or the steps of a list, can make of readiness for a target. The steps are part of `whole`.

  ghost predicate Within(list: seq<Json>, whole: Json) { forall i | 0 <= i < |list| :: list[i] < whole }

  lemma BranchWithin(o: Object, branch: Branch)
    ensures Within(BranchSteps(o, branch), JObj(o))
  {
  }

  /** A run of the step can lead from `from` to `to`; `on` tells whether the next step is reached. */
  ghost predicate StepTo(step: Json, target: Option<Object>, selectors: Object, from: bool, to: bool, on: bool)
    decreases step, 3
  {
    match step
    case JObj(o) =>
      || (Truthy(Field(o, "condition")) && !FlowControl(o) && to == from && on)
      || (!Container(o) && on && to == ReadyNext(Ran(step, true), target, selectors, from))
      || (!Container(o) && on == Recovers(o) && to == ReadyNext(Ran(step, false), target, selectors, from))
      || (Container(o) && PassesTo(o, target, selectors, from, to))
    case _ => !on && !to
  }

  /** Some passes over the branches that a step opens can; of more than one, the one that changes readiness is enough. */
  ghost predicate PassesTo(o: Object, target: Option<Object>, selectors: Object, from: bool, to: bool)
    decreases JObj(o), 2
  {
    from == to ||
    exists branch ::
      && Opens(o, branch)
      && (BranchWithin(o, branch); PrefixTo(BranchSteps(o, branch), JObj(o), target, selectors, from, to))
  }

  /** Some first steps of the list can. */
  ghost predicate PrefixTo(list: seq<Json>, whole: Json, target: Option<Object>, selectors: Object, from: bool, to: bool)
    requires Within(list, whole)
    decreases whole, 1
  {
    from == to ||
    exists n: nat, mid: bool, on: bool | n < |list| ::
      ThroughTo(list, n, whole, target, selectors, from, mid) && StepTo(list[n], target, selectors, mid, to, on)
  }

  /** The first `n` steps of the list can, and step `n` is reached. */
  ghost predicate ThroughTo(list: seq<Json>, n: nat, whole: Json, target: Option<Object>, selectors: Object, from: bool,
      to: bool)
    requires Within(list, whole) && n <= |list|
    decreases whole, 0, n
  {
    if n == 0 then from == to
    else
      || (ThroughTo(list, n - 1, whole, target, selectors, from, true)
          && StepTo(list[n - 1], target, selectors, true, to, true))
      || (ThroughTo(list, n - 1, whole, target, selectors, from, false)
          && StepTo(list[n - 1], target, selectors, false, to, true))
  }

  /** A run of the step can reach an extraction of the target unready. */
  ghost predicate StepCatches(step: Json, target: Option<Object>, selectors: Object, from: bool)
    decreases step, 3
  {
    match step
    case JObj(o) =>
      if Container(o) then
        exists branch, mid: bool ::
          && Opens(o, branch) && PassesTo(o, target, selectors, from, mid)
          && (BranchWithin(o, branch); PrefixCatches(BranchSteps(o, branch), JObj(o), target, selectors, mid))
      else ExtractsFor(step, target, selectors) && !from
    case _ => false
  }

  ghost predicate PrefixCatches(list: seq<Json>, whole: Json, target: Option<Object>, selectors: Object, from: bool)
    requires Within(list, whole)
    decreases whole, 1
  {
    exists n: nat, mid: bool | n < |list| ::
      ThroughTo(list, n, whole, target, selectors, from, mid) && StepCatches(list[n], target, selectors, mid)
  }

  // ---------- what every run does is possible ----------

  lemma {:induction false} PassesChain(o: Object, branch: Branch, target: Option<Object>, selectors: Object, from: bool,
      mid: bool, to: bool)
    requires PassesTo(o, target, selectors, from, mid) && Opens(o, branch)
    requires Within(BranchSteps(o, branch), JObj(o))
    requires PrefixTo(BranchSteps(o, branch), JObj(o), target, selectors, mid, to)
    ensures PassesTo(o, target, selectors, from, to)
  {
  }

  lemma {:induction false} StepIsPossible(step: Json, r: StepRun, target: Option<Object>, selectors: Object, from: bool)
    requires StepRuns(step, r)
    ensures StepTo(step, target, selectors, from, ReadyThen(StepEvents(step, r), target, selectors, from), GoesOn(r))
    ensures Caught(StepEvents(step, r), target, selectors, from) ==> StepCatches(step, target, selectors, from)
    decreases r, 1
  {
    match r
    case Skipped =>
    case Done => OneEvent(Ran(step, true), target, selectors, from);
    case Failed(_) => OneEvent(Ran(step, false), target, selectors, from);
    case Inside(passes, _) =>
      if step.JObj? {
        PassesArePossible(step.members, passes, target, selectors, from);
      }
  }

  lemma OneEvent(event: Event, target: Option<Object>, selectors: Object, ready: bool)
    ensures ReadyThen([event], target, selectors, ready) == ReadyNext(event, target, selectors, ready)
    ensures Caught([event], target, selectors, ready) <==> ExtractsFor(event.step, target, selectors) && !ready
  {
    assert [event][..0] == [];
  }

  lemma {:induction false} PassesArePossible(o: Object, passes: seq<Pass>, target: Option<Object>, selectors: Object,
      from: bool)
    requires forall p | 0 <= p < |passes| ::
               Opens(o, passes[p].branch) && ListRuns(BranchSteps(o, passes[p].branch), passes[p].runs)
    ensures PassesTo(o, target, selectors, from, ReadyThen(PassEvents(o, passes), target, selectors, from))
    ensures Container(o) && Caught(PassEvents(o, passes), target, selectors, from)
            ==> StepCatches(JObj(o), target, selectors, from)
    decreases passes
  {
    if passes != [] {
      var n := |passes| - 1;
      var branch, runs := passes[n].branch, passes[n].runs;
      var list := BranchSteps(o, branch);
      PassesArePossible(o, passes[..n], target, selectors, from);
      BranchWithin(o, branch);
      var before := PassEvents(o, passes[..n]);
      var mid := ReadyThen(before, target, selectors, from);
      ListIsPossible(list, JObj(o), runs, target, selectors, mid);
      ThenConcat(before, ListEvents(list, runs), target, selectors, from);
      PassesChain(o, branch, target, selectors, from, mid, ReadyThen(ListEvents(list, runs), target, selectors, mid));
    }
  }

  lemma {:induction false} ListGoesThrough(list: seq<Json>, whole: Json, runs: seq<StepRun>, target: Option<Object>,
      selectors: Object, from: bool)
    requires Within(list, whole) && |runs| <= |list|
    requires forall i | 0 <= i < |runs| :: StepRuns(list[i], runs[i]) && GoesOn(runs[i])
    ensures ThroughTo(list, |runs|, whole, target, selectors, from,
                      ReadyThen(ListEvents(list, runs), target, selectors, from))
    decreases runs
  {
    if runs != [] {
      var n := |runs| - 1;
      ListGoesThrough(list, whole, runs[..n], target, selectors, from);
      var before := ListEvents(list, runs[..n]);
      var mid := ReadyThen(before, target, selectors, from);
      StepIsPossible(list[n], runs[n], target, selectors, mid);
      ThenConcat(before, StepEvents(list[n], runs[n]), target, selectors, from);
    }
  }

  lemma LastIsPossible(list: seq<Json>, n: nat, whole: Json, events: seq<Event>, on: bool, target: Option<Object>,
      selectors: Object, from: bool, mid: bool)
    requires Within(list, whole) && n < |list| && ThroughTo(list, n, whole, target, selectors, from, mid)
    requires StepTo(list[n], target, selectors, mid, ReadyThen(events, target, selectors, mid), on)
    requires Caught(events, target, selectors, mid) ==> StepCatches(list[n], target, selectors, mid)
    ensures PrefixTo(list, whole, target, selectors, from, ReadyThen(events, target, selectors, mid))
    ensures Caught(events, target, selectors, mid) ==> PrefixCatches(list, whole, target, selectors, from)
  {
  }

  lemma RunsSplit(list: seq<Json>, runs: seq<StepRun>, n: nat)
    requires ListRuns(list, runs) && |runs| == n + 1
    ensures ListRuns(list, runs[..n]) && n < |list| && StepRuns(list[n], runs[n])
    ensures forall i | 0 <= i < n :: StepRuns(list[i], runs[..n][i]) && GoesOn(runs[..n][i])
  {
  }

  lemma TraceSplits(list: seq<Json>, runs: seq<StepRun>, n: nat, target: Option<Object>, selectors: Object, from: bool)
    requires |runs| == n + 1 <= |list|
    ensures
      var all, before, events := ListEvents(list, runs), ListEvents(list, runs[..n]), StepEvents(list[n], runs[n]);
      var mid := ReadyThen(before, target, selectors, from);
      && ReadyThen(all, target, selectors, from) == ReadyThen(events, target, selectors, mid)
      && (Caught(all, target, selectors, from)
          <==> Caught(before, target, selectors, from) || Caught(events, target, selectors, mid))
  {
    ThenConcat(ListEvents(list, runs[..n]), StepEvents(list[n], runs[n]), target, selectors, from);
  }

  lemma {:induction false} ListIsPossible(list: seq<Json>, whole: Json, runs: seq<StepRun>, target: Option<Object>,
      selectors: Object, from: bool)
    requires Within(list, whole) && ListRuns(list, runs)
    ensures PrefixTo(list, whole, target, selectors, from, ReadyThen(ListEvents(list, runs), target, selectors, from))
    ensures Caught(ListEvents(list, runs), target, selectors, from)
            ==> PrefixCatches(list, whole, target, selectors, from)
    decreases runs, 1
  {
    if runs != [] {
      var n := |runs| - 1;
      RunsSplit(list, runs, n);
      ListIsPossible(list, whole, runs[..n], target, selectors, from);
      OneStepIsPossible(list, whole, runs, n, target, selectors, from);
      TraceSplits(list, runs, n, target, selectors, from);
    }
  }

  lemma {:induction false} OneStepIsPossible(list: seq<Json>, whole: Json, runs: seq<StepRun>, n: nat,
      target: Option<Object>, selectors: Object, from: bool)
    requires Within(list, whole) && |runs| == n + 1 <= |list| && StepRuns(list[n], runs[n])
    requires forall i | 0 <= i < n :: StepRuns(list[i], runs[..n][i]) && GoesOn(runs[..n][i])
    ensures
      var mid, events := ReadyThen(ListEvents(list, runs[..n]), target, selectors, from), StepEvents(list[n], runs[n]);
      && PrefixTo(list, whole, target, selectors, from, ReadyThen(events, target, selectors, mid))
      && (Caught(events, target, selectors, mid) ==> PrefixCatches(list, whole, target, selectors, from))
    decreases runs, 0
  {
    var mid := ReadyThen(ListEvents(list, runs[..n]), target, selectors, from);
    ListGoesThrough(list, whole, runs[..n], target, selectors, from);
    StepIsPossible(list[n], runs[n], target, selectors, mid);
    LastIsPossible(list, n, whole, StepEvents(list[n], runs[n]), GoesOn(runs[n]), target, selectors, from, mid);
  }

  // ---------- what is possible, some run does ----------

  lemma {:induction false} StepRunExists(step: Json, target: Option<Object>, selectors: Object, from: bool, to: bool,
      on: bool) returns (r: StepRun)
    requires StepTo(step, target, selectors, from, to, on)
    ensures StepRuns(step, r) && GoesOn(r) == on && ReadyThen(StepEvents(step, r), target, selectors, from) == to
    decreases step, 3
  {
    OneEvent(Ran(step, true), target, selectors, from);
    OneEvent(Ran(step, false), target, selectors, from);
    if !step.JObj? {
      r := Failed(false);
    } else if Container(step.members) && PassesTo(step.members, target, selectors, from, to) {
      var passes := PassesExist(step.members, target, selectors, from, to);
      r := Inside(passes, on);
    } else if Truthy(Field(step.members, "condition")) && !FlowControl(step.members) && to == from && on {
      r := Skipped;
    } else if on && to == ReadyNext(Ran(step, true), target, selectors, from) {
      r := Done;
    } else {
      r := Failed(on);
    }
  }

  lemma {:induction false} PassesExist(o: Object, target: Option<Object>, selectors: Object, from: bool, to: bool)
      returns (passes: seq<Pass>)
    requires PassesTo(o, target, selectors, from, to)
    ensures forall p | 0 <= p < |passes| ::
              Opens(o, passes[p].branch) && ListRuns(BranchSteps(o, passes[p].branch), passes[p].runs)
    ensures ReadyThen(PassEvents(o, passes), target, selectors, from) == to
    decreases JObj(o), 2
  {
    if from == to {
      passes := [];
    } else {
      var branch :| Opens(o, branch)
        && (BranchWithin(o, branch); PrefixTo(BranchSteps(o, branch), JObj(o), target, selectors, from, to));
      BranchWithin(o, branch);
      var runs := PrefixRunExists(BranchSteps(o, branch), JObj(o), target, selectors, from, to);
      passes := [Pass(branch, runs)];
      OnePass(o, branch, runs);
    }
  }

  lemma OnePassMore(o: Object, passes: seq<Pass>, branch: Branch, runs: seq<StepRun>)
    requires Opens(o, branch) && ListRuns(BranchSteps(o, branch), runs)
    requires forall p | 0 <= p < |passes| ::
               Opens(o, passes[p].branch) && ListRuns(BranchSteps(o, passes[p].branch), passes[p].runs)
    ensures
      var all := passes + [Pass(branch, runs)];
      && (forall p | 0 <= p < |all| ::
            Opens(o, all[p].branch) && ListRuns(BranchSteps(o, all[p].branch), all[p].runs))
      && PassEvents(o, all) == PassEvents(o, passes) + ListEvents(BranchSteps(o, branch), runs)
  {
    assert (passes + [Pass(branch, runs)])[..|passes|] == passes;
  }

  lemma OnePass(o: Object, branch: Branch, runs: seq<StepRun>)
    ensures PassEvents(o, [Pass(branch, runs)]) == ListEvents(BranchSteps(o, branch), runs)
  {
    assert [Pass(branch, runs)][..0] == [];
  }

  lemma {:induction false} PrefixRunExists(list: seq<Json>, whole: Json, target: Option<Object>, selectors: Object,
      from: bool, to: bool) returns (runs: seq<StepRun>)
    requires Within(list, whole) && PrefixTo(list, whole, target, selectors, from, to)
    ensures ListRuns(list, runs) && ReadyThen(ListEvents(list, runs), target, selectors, from) == to
    decreases whole, 1
  {
    if from == to {
      runs := [];
    } else {
      var n: nat, mid: bool, on: bool :| n < |list| && ThroughTo(list, n, whole, target, selectors, from, mid)
        && StepTo(list[n], target, selectors, mid, to, on);
      var before := ThroughRunExists(list, n, whole, target, selectors, from, mid);
      var r := StepRunExists(list[n], target, selectors, mid, to, on);
      OneRunMore(list, before, r, target, selectors, from);
      runs := before + [r];
    }
  }

  lemma OneRunMore(list: seq<Json>, runs: seq<StepRun>, r: StepRun, target: Option<Object>, selectors: Object, from: bool)
    requires |runs| < |list| && StepRuns(list[|runs|], r)
    requires forall i | 0 <= i < |runs| :: StepRuns(list[i], runs[i]) && GoesOn(runs[i])
    ensures
      var before, events := ListEvents(list, runs), StepEvents(list[|runs|], r);
      var mid := ReadyThen(before, target, selectors, from);
      && ListRuns(list, runs + [r])
      && ListEvents(list, runs + [r]) == before + events
      && ReadyThen(before + events, target, selectors, from) == ReadyThen(events, target, selectors, mid)
      && (Caught(events, target, selectors, mid) ==> Caught(before + events, target, selectors, from))
  {
    assert (runs + [r])[..|runs|] == runs;
    ThenConcat(ListEvents(list, runs), StepEvents(list[|runs|], r), target, selectors, from);
  }

  lemma {:induction false} ThroughRunExists(list: seq<Json>, n: nat, whole: Json, target: Option<Object>,
      selectors: Object, from: bool, to: bool) returns (runs: seq<StepRun>)
    requires Within(list, whole) && n <= |list| && ThroughTo(list, n, whole, target, selectors, from, to)
    ensures |runs| == n && forall i | 0 <= i < n :: StepRuns(list[i], runs[i]) && GoesOn(runs[i])
    ensures ReadyThen(ListEvents(list, runs), target, selectors, from) == to
    decreases whole, 0, n
  {
    if n == 0 {
      runs := [];
    } else {
      var mid := ThroughTo(list, n - 1, whole, target, selectors, from, true)
        && StepTo(list[n - 1], target, selectors, true, to, true);
      var before := ThroughRunExists(list, n - 1, whole, target, selectors, from, mid);
      var r := StepRunExists(list[n - 1], target, selectors, mid, to, true);
      OneRunMore(list, before, r, target, selectors, from);
      runs := before + [r];
    }
  }

  lemma {:induction false} StepCatchExists(step: Json, target: Option<Object>, selectors: Object, from: bool)
      returns (r: StepRun)
    requires StepCatches(step, target, selectors, from)
    ensures StepRuns(step, r) && Caught(StepEvents(step, r), target, selectors, from)
    decreases step, 3
  {
    var o := step.members;
    if Container(o) {
      var branch, mid: bool :| Opens(o, branch) && PassesTo(o, target, selectors, from, mid)
        && (BranchWithin(o, branch); PrefixCatches(BranchSteps(o, branch), JObj(o), target, selectors, mid));
      BranchWithin(o, branch);
      var passes := PassesExist(o, target, selectors, from, mid);
      var runs := PrefixCatchExists(BranchSteps(o, branch), JObj(o), target, selectors, mid);
      OnePassMore(o, passes, branch, runs);
      ThenConcat(PassEvents(o, passes), ListEvents(BranchSteps(o, branch), runs), target, selectors, from);
      r := Inside(passes + [Pass(branch, runs)], true);
    } else {
      OneEvent(Ran(step, true), target, selectors, from);
      r := Done;
    }
  }

  lemma {:induction false} PrefixCatchExists(list: seq<Json>, whole: Json, target: Option<Object>, selectors: Object,
      from: bool) returns (runs: seq<StepRun>)
    requires Within(list, whole) && PrefixCatches(list, whole, target, selectors, from)
    ensures ListRuns(list, runs) && Caught(ListEvents(list, runs), target, selectors, from)
    decreases whole, 1
  {
    var n: nat, mid: bool :| n < |list| && ThroughTo(list, n, whole, target, selectors, from, mid)
      && StepCatches(list[n], target, selectors, mid);
    var before := ThroughRunExists(list, n, whole, target, selectors, from, mid);
    var r := StepCatchExists(list[n], target, selectors, mid);
    OneRunMore(list, before, r, target, selectors, from);
    runs := before + [r];
  }

  ghost predicate AllGuarded(steps: seq<Json>, selectors: Object) {
    forall runs: seq<StepRun> | ListRuns(steps, runs) :: Guarded(ListEvents(steps, runs), selectors)
  }

  lemma CatchIsUnguarded(steps: seq<Json>, target: Option<Object>, selectors: Object)
    requires PrefixCatches(steps, JArr(steps), target, selectors, false)
    ensures !AllGuarded(steps, selectors)
  {
    var runs := PrefixCatchExists(steps, JArr(steps), target, selectors, false);
    if Guarded(ListEvents(steps, runs), selectors) {
      GuardedCatchesNone(ListEvents(steps, runs), target, selectors);
    }
  }

  /** Of any list of steps, accepted or not, with branches, cases and passes to any depth: every run is guarded
      exactly when following, step by step, whether the trace can be ready for a target never meets an extraction
      of it unready. */
  lemma ListIsGuardedWhen(steps: seq<Json>, selectors: Object)
    ensures
      AllGuarded(steps, selectors)
      <==> forall target: Option<Object> :: !PrefixCatches(steps, JArr(steps), target, selectors, false)
  {
    if AllGuarded(steps, selectors) {
      forall target: Option<Object> ensures !PrefixCatches(steps, JArr(steps), target, selectors, false) {
        if PrefixCatches(steps, JArr(steps), target, selectors, false) {
          CatchIsUnguarded(steps, target, selectors);
        }
      }
    } else {
      var runs: seq<StepRun> :| ListRuns(steps, runs) && !Guarded(ListEvents(steps, runs), selectors);
      var target := UnguardedCatches(ListEvents(steps, runs), selectors);
      ListIsPossible(steps, JArr(steps), runs, target, selectors, false);
      assert PrefixCatches(steps, JArr(steps), target, selectors, false);
    }
  }

  // ---------- identity is what the engine resolves ----------

  /** `resolveSelectorAlias` for a reference that is not blank. */
  function Resolve(target: Object, selectors: Object): Option<Object> {
    var ref := RefOf(target);
    if ref == "" then Some(target)
    else
      match Field(selectors, ref)
      case Some(JObj(alias)) => Some((alias + target) - {"$ref"})
      case _ => None
  }

  /** Targets with the same identity are resolved by the engine to the same target, but for visibility, timeout and
      multiplicity. */
  lemma IdentityIsResolution(a: Object, b: Object, selectors: Object)
    requires TargetIdentity(Some(JObj(a)), selectors).Some?
    ensures
      TargetIdentity(Some(JObj(a)), selectors) == TargetIdentity(Some(JObj(b)), selectors)
      <==> && Resolve(b, selectors).Some?
           && Resolve(a, selectors).value - {"$ref", "visible", "timeout", "multiple"}
              == Resolve(b, selectors).value - {"$ref", "visible", "timeout", "multiple"}
  {
    ResolvedLess(a, selectors);
    ResolvedLess(b, selectors);
  }

  lemma ResolvedLess(target: Object, selectors: Object)
    ensures TargetIdentity(Some(JObj(target)), selectors)
            == match Resolve(target, selectors) case None => None case Some(o) => Some(o - IGNORED)
  {
    match Field(selectors, RefOf(target))
    case Some(JObj(alias)) => assert (alias + target) - IGNORED == ((alias + target) - {"$ref"}) - IGNORED;
    case _ =>
  }

  // ---------- every executed step is inspected ----------

  /** `o` is one of `actionObjects(v)`. */
  predicate ActionObject(v: Json, o: Object) {
    match v
    case JArr(items) => exists i | 0 <= i < |items| :: ActionObject(items[i], o)
    case JObj(members) =>
      || (members == o && Field(o, "action").Some? && Field(o, "action").value.JStr?)
      || exists k | k in members :: ActionObject(members[k], o)
    case _ => false
  }

  lemma BranchInside(o: Object, branch: Branch, found: Object)
    requires ActionObject(JArr(BranchSteps(o, branch)), found)
    ensures ActionObject(JObj(o), found)
  {
    var name := BranchName(branch);
    assert name in o;
    if branch.Case? {
      var entry := o[name].items[branch.k];
      assert ActionObject(entry.members["steps"], found);
      assert ActionObject(entry, found);
      assert ActionObject(o[name], found);
    } else {
      assert ActionObject(o[name], found);
    }
  }

  lemma {:induction false} PassIsInside(o: Object, passes: seq<Pass>, event: Event)
    requires event in PassEvents(o, passes) && event.step.JObj?
    requires Field(event.step.members, "action").Some? && Field(event.step.members, "action").value.JStr?
    requires forall p | 0 <= p < |passes| :: ListRuns(BranchSteps(o, passes[p].branch), passes[p].runs)
    ensures ActionObject(JObj(o), event.step.members)
    decreases passes
  {
    var n := |passes| - 1;
    if event in PassEvents(o, passes[..n]) {
      PassIsInside(o, passes[..n], event);
    } else {
      ExecutedIsInspected(BranchSteps(o, passes[n].branch), passes[n].runs, event);
      BranchInside(o, passes[n].branch, event.step.members);
    }
  }

  /** A step that any run executes is among the objects that the rule's assertions inspect. */
  lemma {:induction false} ExecutedIsInspected(steps: seq<Json>, runs: seq<StepRun>, event: Event)
    requires ListRuns(steps, runs) && event in ListEvents(steps, runs) && event.step.JObj?
    requires Field(event.step.members, "action").Some? && Field(event.step.members, "action").value.JStr?
    ensures ActionObject(JArr(steps), event.step.members)
    decreases runs
  {
    var n := |runs| - 1;
    if event in ListEvents(steps, runs[..n]) {
      ExecutedIsInspected(steps, runs[..n], event);
    } else {
      assert StepRuns(steps[n], runs[n]);
      if runs[n].Inside? {
        PassIsInside(steps[n].members, runs[n].passes, event);
      }
      assert ActionObject(JArr(steps).items[n], event.step.members);
    }
  }

  // ---------- the checker's own form ----------

  /** The inner loop: back over unconditional timeouts. */
  method FindReadiness(list: seq<Json>, index: nat) returns (readinessIndex: int)
    requires index < |list|
    ensures readinessIndex == ReadinessIndex(list, index - 1)
  {
    readinessIndex := index - 1;
    while readinessIndex >= 0 && list[readinessIndex].JObj? && PlainTimeout(list[readinessIndex].members)
      invariant -1 <= readinessIndex < index
      invariant ReadinessIndex(list, readinessIndex) == ReadinessIndex(list, index - 1)
    {
      readinessIndex := readinessIndex - 1;
    }
  }

  /** `assertRepeatedExtractionReadiness`; `false` where it throws. */
  method AssertRepeatedExtractionReadiness(steps: Json, selectors: Object) returns (ok: bool)
    ensures ok <==> Accepted(steps, selectors)
    decreases steps, 1
  {
    if !steps.JArr? {
      return true;
    }
    var list := steps.items;
    var index := 0;
    while index < |list|
      invariant index <= |list|
      invariant forall i | 0 <= i < index :: ReadyAt(list, i, selectors) && AcceptedStep(list[i], selectors)
    {
      if list[index].JObj? && RepeatedExtract(list[index].members) {
        var readinessIndex := FindReadiness(list, index);
        if readinessIndex < 0 || !ReadyFor(list[readinessIndex], list[index].members, selectors) {
          return false;
        }
      }
      var inner := AssertStepReadiness(list[index], selectors);
      if !inner {
        return false;
      }
      index := index + 1;
    }
    ok := true;
  }

  /** The part of the loop's body that looks inside a step. */
  method AssertStepReadiness(step: Json, selectors: Object) returns (ok: bool)
    ensures ok <==> AcceptedStep(step, selectors)
    decreases step, 0
  {
    if !step.JObj? {
      return true;
    }
    var o := step.members;
    var b := 0;
    while b < |BRANCHES|
      invariant b <= |BRANCHES|
      invariant forall i | 0 <= i < b && BRANCHES[i] in o :: Accepted(o[BRANCHES[i]], selectors)
    {
      if BRANCHES[b] in o {
        var inner := AssertRepeatedExtractionReadiness(o[BRANCHES[b]], selectors);
        if !inner {
          assert BRANCHES[b] in BRANCHES;
          return false;
        }
      }
      b := b + 1;
    }
    assert forall branch | branch in BRANCHES && branch in o :: Accepted(o[branch], selectors);
    if "cases" in o && o["cases"].JArr? {
      var cases := o["cases"].items;
      var k := 0;
      while k < |cases|
        invariant k <= |cases|
        invariant forall i | 0 <= i < k :: AcceptedCase(cases[i], selectors)
      {
        if cases[k].JObj? && "steps" in cases[k].members {
          var inner := AssertRepeatedExtractionReadiness(cases[k].members["steps"], selectors);
          if !inner {
            assert !AcceptedCase(cases[k], selectors);
            return false;
          }
        }
        k := k + 1;
      }
    }
    ok := true;
  }
}
