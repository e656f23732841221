/**
 What becomes of every event that is offered to the recorder's queue (extension/src/content.ts:410-415, 1442-1469,
 1690-1721, 2064-2107): it is told from the events themselves and the ends of their captures alone.
 */
module EventTurns {
  import opened SequenceNumbers
  import opened Wrappers
  import opened EventLinking

  /** What the page has done since the recording began or was imported: the tasks it offered, in order, each with the
      capture begun for it, and how many events overtook the queue. */
  datatype Tally = Tally(tasks: seq<Task>, overtakes: nat)

  const FIRST := Tally([Task(0, InitialSnapshot, None)], 0)

  function Noted(st: State, step: Step, offered: Tally): Tally {
    var capture := Some(Key(st.next, st.era));
    match step
    case Enqueue(navigate) =>
      var task := Task(|offered.tasks|, if navigate then Navigate else Action, if st.snapshotting then capture else None);
      offered.(tasks := offered.tasks + [task])
    case BeginInitial =>
      if offered.tasks == [] then offered
      else offered.(tasks := [offered.tasks[0].(capture := capture)] + offered.tasks[1..])
    case Overtake => offered.(overtakes := offered.overtakes + 1)
    case Import(_, _) => Tally([], 0)
    case _ => offered
  }

  function Offers(st: State, steps: seq<Step>, offered: Tally): Tally
    requires Orderly(st, steps)
    decreases |steps|
  {
    if steps == [] then offered else Offers(Apply(st, steps[0]), steps[1..], Noted(st, steps[0], offered))
  }

  // ---------- what a turn should leave ----------

  predicate Completed(st: State, task: Task) { task.capture.Some? && Has(st, task.capture.value, Done) }

  /** Once it has had its turn, a navigation is in the recording whatever became of its capture; an action is when it
      waited for none, or its capture completed. */
  predicate Lasts(st: State, task: Task) {
    match task.kind
    case InitialSnapshot => false
    case Navigate => true
    case Action => task.capture.None? || Completed(st, task)
  }

  /** The snapshot it is recorded with: its own, if it arrived, for a navigation in time. */
  function LinkOf(st: State, task: Task): Option<Key> {
    if Completed(st, task) && !(task.kind.Navigate? && task.capture.value in st.timedOut) then task.capture else None
  }

  function Lasting(st: State, tasks: seq<Task>): seq<nat> {
    if tasks == [] then []
    else
      var last := tasks[|tasks| - 1];
      Lasting(st, tasks[..|tasks| - 1]) + if Lasts(st, last) then [last.id] else []
  }

  function Overtaken(events: seq<Ev>): nat {
    if events == [] then 0
    else Overtaken(events[..|events| - 1]) + if events[|events| - 1].origin.Overtaking? then 1 else 0
  }

  lemma LastingAppended(st: State, tasks: seq<Task>, task: Task)
    ensures Lasting(st, tasks + [task]) == Lasting(st, tasks) + if Lasts(st, task) then [task.id] else []
  {
    assert (tasks + [task])[..|tasks|] == tasks;
  }

  lemma OvertakenAppended(events: seq<Ev>, ev: Ev)
    ensures Overtaken(events + [ev]) == Overtaken(events) + if ev.origin.Overtaking? then 1 else 0
  {
    assert (events + [ev])[..|events|] == events;
  }

  /** The ends of captures known in one state are the same in the other. */
  ghost predicate Later(st: State, next: State) {
    && (forall c: Key | Has(st, c, Done) :: Has(next, c, Done))
    && (forall c: Key | Has(st, c, Failed) :: Has(next, c, Failed))
    && (forall c: Key | c in st.timedOut :: c in next.timedOut)
    && (forall c: Key | c in next.timedOut && c !in st.timedOut :: !Has(st, c, Done) && !Has(st, c, Failed))
  }

  predicate SameEnd(st: State, next: State, task: Task) {
    Lasts(next, task) == Lasts(st, task) && (!task.kind.InitialSnapshot? ==> LinkOf(next, task) == LinkOf(st, task))
  }

  lemma {:induction false} LastingSame(st: State, next: State, tasks: seq<Task>)
    requires forall t | t in tasks :: SameEnd(st, next, t)
    ensures Lasting(next, tasks) == Lasting(st, tasks)
  {
    if tasks != [] {
      LastingSame(st, next, tasks[..|tasks| - 1]);
      assert SameEnd(st, next, tasks[|tasks| - 1]);
    }
  }

  // ---------- the invariant ----------

  /** The tasks that have had their turn. */
  function Turned(st: State, offered: Tally): seq<Task>
    requires |st.queue| <= |offered.tasks|
  {
    offered.tasks[..|offered.tasks| - |st.queue|]
  }

  /** The end of a task is known for good. */
  predicate Over(st: State, task: Task) {
    || task.kind.InitialSnapshot? || task.capture.None?
    || Has(st, task.capture.value, Done) || Has(st, task.capture.value, Failed)
    || (task.kind.Navigate? && task.capture.value in st.timedOut)
  }

  /** Those still waiting are the rest of what was offered. */
  predicate Accounted(st: State, offered: Tally) {
    && |st.queue| <= |offered.tasks| && |st.fates| == |offered.tasks| - |st.queue|
    && st.queue == offered.tasks[|st.fates|..]
    && (forall i | 0 <= i < |offered.tasks| :: offered.tasks[i].id == i)
    && (forall i | 0 < i < |offered.tasks| :: !offered.tasks[i].kind.InitialSnapshot?)
    && (forall t | t in Turned(st, offered) :: Over(st, t))
  }

  predicate RecordedAs(st: State, turned: seq<Task>, e: Ev) {
    && e.origin.Queued? && e.origin.id < |turned| && !turned[e.origin.id].kind.InitialSnapshot?
    && e.link == LinkOf(st, turned[e.origin.id])
  }

  /** What is recorded is what lasts, each with its own snapshot. */
  predicate Kept(st: State, offered: Tally)
    requires |st.queue| <= |offered.tasks|
  {
    && QueuedIds(st.events) == Lasting(st, Turned(st, offered))
    && (forall e | e in st.events && e.origin.Queued? ::
          RecordedAs(st, Turned(st, offered), e))
    && Overtaken(st.events) == offered.overtakes
  }

  ghost predicate Told(st: State, offered: Tally) { Inv(st) && Accounted(st, offered) && Kept(st, offered) }

  // ---------- steps that are nobody's turn ----------

  lemma StepIsLater(st: State, step: Step)
    requires Numbered(st) && Enabled(st, step) && !step.Import?
    ensures Later(st, Apply(st, step))
  {
    var next := Apply(st, step);
    if step.RunHead? {
      PerformIs(st, st.queue[0]);
    } else if step.RunStale? {
      PerformIs(st, st.stale[0]);
    } else if step.Enqueue? || step.BeginInitial? {
      assert !Known(st, NewKey(st));
    }
  }

  lemma OverStays(st: State, next: State, task: Task)
    requires Later(st, next) && Over(st, task)
    ensures Over(next, task) && SameEnd(st, next, task)
  {
    if task.capture.Some? {
      var c := task.capture.value;
      assert Has(st, c, Failed) ==> !Has(next, c, Done);
    }
  }

  /** A step that gives no task its turn and records none. */
  lemma OthersKeep(st: State, next: State, offered: Tally, after: Tally)
    requires Accounted(st, offered) && Kept(st, offered) && Later(st, next)
    requires next.events == st.events && next.fates == st.fates && after.overtakes == offered.overtakes
    requires |next.queue| <= |after.tasks| && |after.tasks| - |next.queue| == |st.fates|
    requires next.queue == after.tasks[|st.fates|..] && Turned(next, after) == Turned(st, offered)
    requires forall i | 0 <= i < |after.tasks| :: after.tasks[i].id == i
    requires forall i | 0 < i < |after.tasks| :: !after.tasks[i].kind.InitialSnapshot?
    ensures Accounted(next, after) && Kept(next, after)
  {
    var done := Turned(st, offered);
    forall t | t in done ensures Over(next, t) && SameEnd(st, next, t) {
      OverStays(st, next, t);
    }
    LastingSame(st, next, done);
    forall e | e in next.events && e.origin.Queued? ensures RecordedAs(next, done, e) {
      assert RecordedAs(st, done, e) && done[e.origin.id] in done;
      assert SameEnd(st, next, done[e.origin.id]);
    }
  }

  lemma EnqueueTold(st: State, navigate: bool, offered: Tally)
    requires Accounted(st, offered) && Kept(st, offered) && Numbered(st)
    ensures Accounted(OnEnqueue(st, if navigate then Navigate else Action), Noted(st, Enqueue(navigate), offered))
    ensures Kept(OnEnqueue(st, if navigate then Navigate else Action), Noted(st, Enqueue(navigate), offered))
  {
    var next, after := OnEnqueue(st, if navigate then Navigate else Action), Noted(st, Enqueue(navigate), offered);
    StepIsLater(st, Enqueue(navigate));
    OthersKeep(st, next, offered, after);
  }

  lemma BeginInitialTold(st: State, offered: Tally)
    requires Accounted(st, offered) && Kept(st, offered) && Numbered(st) && Enabled(st, BeginInitial)
    ensures Accounted(OnBeginInitial(st), Noted(st, BeginInitial, offered))
    ensures Kept(OnBeginInitial(st), Noted(st, BeginInitial, offered))
  {
    var next, after := OnBeginInitial(st), Noted(st, BeginInitial, offered);
    StepIsLater(st, BeginInitial);
    assert st.queue[0] == offered.tasks[|st.fates|];
    assert |st.fates| == 0;
    assert Turned(next, after) == [] == Turned(st, offered);
    OthersKeep(st, next, offered, after);
  }

  /** One event more that did not go through the queue. */
  lemma OvertakerKept(st: State, next: State, done: seq<Task>, ev: Ev)
    requires QueuedIds(st.events) == Lasting(st, done) && next.events == st.events + [ev] && ev.origin.Overtaking?
    requires forall e | e in st.events && e.origin.Queued? :: RecordedAs(st, done, e)
    requires forall t | t in done :: SameEnd(st, next, t)
    ensures QueuedIds(next.events) == Lasting(next, done) && Overtaken(next.events) == Overtaken(st.events) + 1
    ensures forall e | e in next.events && e.origin.Queued? :: RecordedAs(next, done, e)
  {
    LastingSame(st, next, done);
    QueuedAppended(st.events, ev);
    OvertakenAppended(st.events, ev);
    assert QueuedIds(st.events) + [] == QueuedIds(st.events);
    forall e | e in next.events && e.origin.Queued? ensures RecordedAs(next, done, e) {
      assert RecordedAs(st, done, e) && done[e.origin.id] in done && SameEnd(st, next, done[e.origin.id]);
    }
  }

  lemma OvertakeTold(st: State, offered: Tally)
    requires Accounted(st, offered) && Kept(st, offered) && Numbered(st)
    ensures Accounted(OnOvertake(st), Noted(st, Overtake, offered)) && Kept(OnOvertake(st), Noted(st, Overtake, offered))
  {
    var next, done := OnOvertake(st), Turned(st, offered);
    StepIsLater(st, Overtake);
    forall t | t in done ensures Over(next, t) && SameEnd(st, next, t) {
      OverStays(st, next, t);
    }
    OvertakerKept(st, next, done, Ev(Overtaking, if st.snapshotting then Some(NewKey(st)) else None));
  }

  // ---------- a turn ----------

  /** What the turn of the head comes to, in terms of what it waited for. */
  lemma HeadRecords(st: State)
    requires Inv(st) && Enabled(st, RunHead)
    ensures
      var task, next := st.queue[0], OnRunHead(st);
      && Later(st, next)
      && if next.poisoned then next == st.(poisoned := true, troubled := true)
         else
           && Over(st, task) && next.queue == st.queue[1..] && |next.fates| == |st.fates| + 1
           && next.events
              == st.events + if Lasts(st, task) then [Ev(Queued(task.id), LinkOf(st, task))] else []
  {
    StepIsLater(st, RunHead);
    HeadIs(st);
    assert st.queue[0] in st.queue;
  }

  lemma TurnAccounted(st: State, next: State, offered: Tally)
    requires Accounted(st, offered) && Later(st, next) && st.queue != []
    requires Over(st, st.queue[0]) && next.queue == st.queue[1..] && |next.fates| == |st.fates| + 1
    ensures Accounted(next, offered) && Turned(next, offered) == Turned(st, offered) + [st.queue[0]]
    ensures forall t | t in Turned(next, offered) :: SameEnd(st, next, t)
  {
    var more := Turned(next, offered);
    assert st.queue[0] == offered.tasks[|st.fates|] && more == Turned(st, offered) + [st.queue[0]];
    forall t | t in more ensures Over(next, t) && SameEnd(st, next, t) {
      OverStays(st, next, t);
    }
  }

  /** One event more, as its task asks for, or none. */
  lemma TurnKept(st: State, next: State, done: seq<Task>, task: Task)
    requires QueuedIds(st.events) == Lasting(st, done) && task.id == |done|
    requires forall e | e in st.events && e.origin.Queued? :: RecordedAs(st, done, e)
    requires next.events == st.events + if Lasts(st, task) then [Ev(Queued(task.id), LinkOf(st, task))] else []
    requires forall t | t in done + [task] :: SameEnd(st, next, t)
    ensures QueuedIds(next.events) == Lasting(next, done + [task]) && Overtaken(next.events) == Overtaken(st.events)
    ensures forall e | e in next.events && e.origin.Queued? :: RecordedAs(next, done + [task], e)
  {
    var more, ev := done + [task], Ev(Queued(task.id), LinkOf(st, task));
    LastingSame(st, next, more);
    LastingAppended(st, done, task);
    QueuedAppended(st.events, ev);
    OvertakenAppended(st.events, ev);
    assert st.events + [] == st.events && QueuedIds(st.events) + [] == QueuedIds(st.events);
    forall e | e in next.events && e.origin.Queued? ensures RecordedAs(next, more, e) {
      if e in st.events {
        assert RecordedAs(st, done, e) && more[e.origin.id] == done[e.origin.id];
      } else {
        assert e == ev && more[e.origin.id] == task;
      }
      assert more[e.origin.id] in more && SameEnd(st, next, more[e.origin.id]);
    }
  }

  lemma HeadTold(st: State, offered: Tally)
    requires Told(st, offered) && Enabled(st, RunHead)
    ensures Accounted(OnRunHead(st), offered) && Kept(OnRunHead(st), offered)
  {
    var next := OnRunHead(st);
    HeadRecords(st);
    if next.poisoned {
      OthersKeep(st, next, offered, offered);
    } else {
      TurnAccounted(st, next, offered);
      assert st.queue[0] == offered.tasks[|st.fates|];
      TurnKept(st, next, Turned(st, offered), st.queue[0]);
    }
  }

  // ---------- every run ----------

  lemma ImportTold(st: State, events: seq<Ev>, shots: seq<Shot>)
    requires Importable(events, shots)
    ensures Accounted(OnImport(st, events, shots), Tally([], 0)) && Kept(OnImport(st, events, shots), Tally([], 0))
  {
    ImportedHasNoQueued(events);
    NoneOvertook(events);
  }

  lemma {:induction false} NoneOvertook(events: seq<Ev>)
    requires forall e | e in events :: e.origin == Imported
    ensures Overtaken(events) == 0
  {
    if events != [] {
      NoneOvertook(events[..|events| - 1]);
    }
  }

  lemma CaptureEndTold(st: State, step: Step, offered: Tally)
    requires Accounted(st, offered) && Kept(st, offered) && Numbered(st)
    requires Enabled(st, step) && (step.Complete? || step.Fail? || step.TimeOut?)
    ensures Accounted(Apply(st, step), offered) && Kept(Apply(st, step), offered)
  {
    StepIsLater(st, step);
    OthersKeep(st, Apply(st, step), offered, offered);
  }

  lemma StepTold(st: State, step: Step, offered: Tally)
    requires Told(st, offered) && Enabled(st, step)
    ensures Accounted(Apply(st, step), Noted(st, step, offered)) && Kept(Apply(st, step), Noted(st, step, offered))
  {
    match step
    case Enqueue(navigate) => EnqueueTold(st, navigate, offered);
    case BeginInitial => BeginInitialTold(st, offered);
    case RunHead => HeadTold(st, offered);
    case Overtake => OvertakeTold(st, offered);
    case Import(events, shots) => ImportTold(st, events, shots);
    case RunStale =>
    case Complete(_) => CaptureEndTold(st, step, offered);
    case Fail(_) => CaptureEndTold(st, step, offered);
    case TimeOut(_) => CaptureEndTold(st, step, offered);
  }

  lemma {:induction false} RunTold(st: State, steps: seq<Step>, offered: Tally)
    requires Told(st, offered) && Orderly(st, steps)
    ensures Told(Run(st, steps), Offers(st, steps, offered))
    decreases |steps|
  {
    if steps != [] {
      StepKeeps(st, steps[0]);
      StepTold(st, steps[0], offered);
      RunTold(Apply(st, steps[0]), steps[1..], Noted(st, steps[0], offered));
    }
  }

  lemma {:induction false} LastingAre(st: State, tasks: seq<Task>)
    requires forall i | 0 <= i < |tasks| :: tasks[i].id == i
    ensures forall k: nat :: k in Lasting(st, tasks) <==> k < |tasks| && Lasts(st, tasks[k])
    ensures forall i, j | 0 <= i < j < |Lasting(st, tasks)| :: Lasting(st, tasks)[i] < Lasting(st, tasks)[j]
  {
    if tasks != [] {
      var init := Lasting(st, tasks[..|tasks| - 1]);
      LastingAre(st, tasks[..|tasks| - 1]);
      assert forall i | 0 <= i < |init| :: init[i] in init;
    }
  }

  lemma KeptMeans(st: State, offered: Tally)
    requires Accounted(st, offered) && Kept(st, offered)
    ensures forall k: nat :: k in QueuedIds(st.events)
                             <==> k < |offered.tasks| - |st.queue| && Lasts(st, offered.tasks[k])
    ensures forall i, j | 0 <= i < j < |QueuedIds(st.events)| :: QueuedIds(st.events)[i] < QueuedIds(st.events)[j]
    ensures forall e | e in st.events && e.origin.Queued? ::
              e.origin.id < |offered.tasks| && e.link == LinkOf(st, offered.tasks[e.origin.id])
  {
    LastingAre(st, Turned(st, offered));
    forall e | e in st.events && e.origin.Queued?
      ensures e.origin.id < |offered.tasks| && e.link == LinkOf(st, offered.tasks[e.origin.id])
    {
      assert RecordedAs(st, Turned(st, offered), e);
    }
  }

  lemma TheRunIsTold(snapshotting: bool, steps: seq<Step>)
    requires Orderly(Started(snapshotting), steps)
    ensures
      var st, offered := Run(Started(snapshotting), steps), Offers(Started(snapshotting), steps, FIRST);
      Accounted(st, offered) && Kept(st, offered)
  {
    RunTold(Started(snapshotting), steps, FIRST);
  }

  /** In every run: what is recorded of the queue is, in the order of the offers and each once, exactly the tasks that
      have had their turn and last, a navigation always, an action when it waited for no capture or for one that
      completed. Each is recorded with its own snapshot, if that arrived. The others are still waiting, in order, and
      every event that overtook the queue is recorded. */
  lemma EveryTurnIsTaken(snapshotting: bool, steps: seq<Step>)
    requires Orderly(Started(snapshotting), steps)
    ensures
      var st, offered := Run(Started(snapshotting), steps), Offers(Started(snapshotting), steps, FIRST);
      && |st.queue| <= |offered.tasks| && st.queue == offered.tasks[|offered.tasks| - |st.queue|..]
      && (forall k: nat :: k in QueuedIds(st.events)
                           <==> k < |offered.tasks| - |st.queue| && Lasts(st, offered.tasks[k]))
      && (forall i, j | 0 <= i < j < |QueuedIds(st.events)| :: QueuedIds(st.events)[i] < QueuedIds(st.events)[j])
      && (forall e | e in st.events && e.origin.Queued? ::
            e.origin.id < |offered.tasks| && e.link == LinkOf(st, offered.tasks[e.origin.id]))
      && Overtaken(st.events) == offered.overtakes
  {
    TheRunIsTold(snapshotting, steps);
    KeptMeans(Run(Started(snapshotting), steps), Offers(Started(snapshotting), steps, FIRST));
  }

  /** Captures take consecutive numbers: one for each event offered or recorded at once, and one for the initial
      snapshot, and none for anything else; an import goes on above the numbers it brings. */
  lemma NumbersAdvance(st: State, step: Step)
    requires Enabled(st, step)
    ensures
      var next := Apply(st, step);
      match step
      case Enqueue(_) => next.next == if st.snapshotting then st.next + 1 else st.next
      case Overtake => next.next == if st.snapshotting then st.next + 1 else st.next
      case BeginInitial => next.next == st.next + 1
      case Import(_, shots) =>
        && (forall s | s in shots :: s.key.number < next.next)
        && (next.next == 0 || exists s | s in shots :: s.key.number == next.next - 1)
      case _ => next.next == st.next
  {
    match step
    case RunHead => PerformIs(st, st.queue[0]);
    case RunStale => PerformIs(st, st.stale[0]);
    case Import(_, shots) => HighestNumber(shots);
    case _ =>
  }

  lemma HighestNumber(shots: seq<Shot>)
    ensures forall s | s in shots :: s.key.number < NextSequence(shots)
    ensures NextSequence(shots) == 0 || exists s | s in shots :: s.key.number == NextSequence(shots) - 1
  {
    ShotsAreBelow(shots);
    NextIsAttained(Numbers(shots));
    if NextSequence(shots) > 0 {
      var i :| 0 <= i < |shots| && Numbers(shots)[i] == NextSequence(shots) - 1;
      assert shots[i] in shots && shots[i].key.number == NextSequence(shots) - 1;
    }
  }

  /** An imported recording starts with its own events and snapshots and a queue that works, whatever became of the one
      before; the tasks of that one are left to run. */
  lemma ImportStartsAfresh(st: State, events: seq<Ev>, shots: seq<Shot>)
    ensures
      var next := OnImport(st, events, shots);
      && next.events == events && next.shots == shots && next.queue == [] && !next.poisoned
      && next.stale == Tasks(st) && next.captures == st.captures && next.timedOut == st.timedOut
      && next.snapshotting == st.snapshotting && next.era > st.era
  {
  }

  // ---------- draining ----------

  lemma DrainStep(st: State)
    requires Inv(st) && Enabled(st, RunHead) && !OnRunHead(st).poisoned
    ensures
      var next := OnRunHead(st);
      && QueuedIds(next.events) == QueuedIds(st.events) + (if Lasts(st, st.queue[0]) then [st.queue[0].id] else [])
      && forall tasks :: next.captures == st.captures ==> Lasting(next, tasks) == Lasting(st, tasks)
  {
    HeadRecords(st);
    QueuedAppended(st.events, Ev(Queued(st.queue[0].id), LinkOf(st, st.queue[0])));
    assert st.events + [] == st.events && QueuedIds(st.events) + [] == QueuedIds(st.events);
    forall tasks | OnRunHead(st).captures == st.captures ensures Lasting(OnRunHead(st), tasks) == Lasting(st, tasks) {
      LastingFrom(st, OnRunHead(st), tasks);
    }
  }

  lemma {:induction false} LastingFrom(st: State, next: State, tasks: seq<Task>)
    requires next.captures == st.captures
    ensures Lasting(next, tasks) == Lasting(st, tasks)
  {
    if tasks != [] {
      LastingFrom(st, next, tasks[..|tasks| - 1]);
    }
  }

  /** The queue is empty, and what was waiting is recorded if it lasts. */
  predicate Drained(st: State, end: State) {
    && end.queue == [] && end.captures == st.captures
    && QueuedIds(end.events) == QueuedIds(st.events) + Lasting(st, st.queue)
  }

  lemma DrainedOneMore(st: State, next: State, end: State)
    requires st.queue != [] && next.queue == st.queue[1..] && next.captures == st.captures && Drained(next, end)
    requires QueuedIds(next.events) == QueuedIds(st.events) + if Lasts(st, st.queue[0]) then [st.queue[0].id] else []
    requires Lasting(next, next.queue) == Lasting(st, next.queue)
    ensures Drained(st, end)
  {
    LastingFirst(st, st.queue);
  }

  /** Once every capture is decided, awaiting the queue empties it and records, in order, every waiting navigation and
      every waiting action whose capture did not fail. */
  lemma {:induction false} AwaitingEmptiesTheQueue(st: State)
    requires Inv(st) && !st.poisoned && AllSettled(st)
    ensures Orderly(st, Heads(|st.queue|)) && Drained(st, Run(st, Heads(|st.queue|)))
    decreases |st.queue|
  {
    if st.queue == [] {
      assert QueuedIds(st.events) + [] == QueuedIds(st.events);
    } else {
      SettledStep(st);
      DrainStep(st);
      var next := Apply(st, RunHead);
      AwaitingEmptiesTheQueue(next);
      HeadsStep(st, |next.queue|);
      DrainedOneMore(st, next, Run(next, Heads(|next.queue|)));
    }
  }

  lemma {:induction false} LastingFirst(st: State, tasks: seq<Task>)
    requires tasks != []
    ensures Lasting(st, tasks) == (if Lasts(st, tasks[0]) then [tasks[0].id] else []) + Lasting(st, tasks[1..])
  {
    var n := |tasks| - 1;
    if n == 0 {
      assert tasks[..n] == [] && tasks[1..] == [];
    } else {
      LastingFirst(st, tasks[..n]);
      assert tasks[1..][..n - 1] == tasks[..n][1..];
    }
  }
}
