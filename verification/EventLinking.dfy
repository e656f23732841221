/**
 How recorded events and the snapshots taken before them find each other (extension/src/content.ts:350-361,
 592-615, 1204-1226, 1442-1477, 1690-1721, 1811-1835, 2064-2130, 2132-2214): captures run concurrently, events
 wait for theirs in a queue, events that may navigate away overtake the queue, and a recording can be replaced by
 an imported one while all this goes on.
 */
module EventLinking {
  import opened SequenceNumbers
  import opened Wrappers

  /** The initial snapshot is a task of the queue too. */
  datatype Kind = InitialSnapshot | Action | Navigate

  /** A capture: the sequence number it took, and the recording it was taken for. A document counts the recordings
      it has held; eras below zero belong to other documents. The program looks at the number alone. */
  datatype Key = Key(number: nat, era: int)

  /** `id` counts the tasks offered to the queue. */
  datatype Task = Task(id: nat, kind: Kind, capture: Option<Key>)

  datatype Origin = Queued(id: nat) | Overtaking | Imported

  /** A recorded event; `link` is the capture it was recorded with, which the program does not keep. */
  datatype Ev = Ev(origin: Origin, link: Option<Key>)

  datatype Shot = Shot(key: Key, action: Option<nat>)

  datatype Progress = Running | Done | Failed

  /** `beforeAction`: only such snapshots are linked. */
  datatype Capture = Capture(beforeAction: bool, progress: Progress)

  datatype Fate = Recorded | Dropped | Passed

  datatype State = State(
    snapshotting: bool,
    events: seq<Ev>,
    shots: seq<Shot>,
    next: nat,
    era: nat,
    queue: seq<Task>,
    stale: seq<Task>,
    poisoned: bool,
    captures: map<Key, Capture>,
    timedOut: set<Key>,
    fates: seq<Fate>,
    troubled: bool)

  /** `start`: the first task of the queue takes the initial snapshot. */
  function Started(snapshotting: bool): State {
    State(snapshotting, [], [], 0, 0, [Task(0, InitialSnapshot, None)], [], false, map[], {}, [], false)
  }

  // ---------- pieces ----------

  /** The number of the next task. */
  function Offered(st: State): nat { |st.fates| + |st.queue| }

  function NewKey(st: State): Key { Key(st.next, st.era) }

  function BeginCapture(st: State, beforeAction: bool): State {
    st.(captures := st.captures[NewKey(st) := Capture(beforeAction, Running)], next := st.next + 1)
  }

  predicate Has(st: State, c: Key, progress: Progress) { c in st.captures && st.captures[c].progress == progress }

  /** `linkSnapshotToNextEvent`: the first stored snapshot with this sequence number gets the index. */
  function Link(shots: seq<Shot>, number: nat, index: nat): (r: seq<Shot>)
    ensures |r| == |shots|
  {
    if shots == [] then []
    else if shots[0].key.number == number then [shots[0].(action := Some(index))] + shots[1..]
    else [shots[0]] + Link(shots[1..], number, index)
  }

  /** What a task waits for has been decided. */
  predicate Settled(st: State, task: Task) {
    match task.capture
    case None => !task.kind.InitialSnapshot?
    case Some(c) => Has(st, c, Done) || Has(st, c, Failed) || (task.kind.Navigate? && c in st.timedOut)
  }

  /** The capture arrived, in time where there is a limit. */
  predicate Arrived(st: State, task: Task) {
    task.capture.Some? && Has(st, task.capture.value, Done)
    && !(task.kind.Navigate? && task.capture.value in st.timedOut)
  }

  /** The task records an event together with its snapshot. */
  predicate LinksOne(st: State, task: Task) {
    !task.kind.InitialSnapshot? && Arrived(st, task) && st.captures[task.capture.value].beforeAction
  }

  function Record(st: State, ev: Ev): State { st.(events := st.events + [ev]) }

  /** The body of a task, on whatever recording is current. */
  function Perform(st: State, task: Task): State {
    match task.kind
    case InitialSnapshot => if Arrived(st, task) then st else st.(poisoned := true)
    case _ =>
      if task.capture.None? then Record(st, Ev(Queued(task.id), None))
      else if Arrived(st, task) then
        var c := task.capture.value;
        if st.captures[c].beforeAction then
          Record(st.(shots := Link(st.shots, c.number, |st.events|)), Ev(Queued(task.id), Some(c)))
        else Record(st, Ev(Queued(task.id), None))
      else if task.kind.Navigate? then Record(st, Ev(Queued(task.id), None))
      else st
  }

  function FateOf(st: State, task: Task): Fate {
    if task.kind.InitialSnapshot? then Passed
    else if task.capture.None? || Arrived(st, task) || task.kind.Navigate? then Recorded
    else Dropped
  }

  // ---------- steps ----------

  datatype Step =
    | Enqueue(navigate: bool)
    | BeginInitial
    | Complete(capture: Key)
    | Fail(capture: Key)
    | TimeOut(capture: Key)
    | RunHead
    | Overtake
    | Import(events: seq<Ev>, shots: seq<Shot>)
    | RunStale

  /** A recording that can be imported: its own links are right. */
  predicate Importable(events: seq<Ev>, shots: seq<Shot>) {
    && Unique(shots)
    && (forall e | e in events :: e.origin == Imported)
    && LinksTrue(events, shots)
  }

  /** Sequence numbers are not repeated. */
  predicate Unique(shots: seq<Shot>) {
    forall i, j | 0 <= i < j < |shots| :: shots[i].key.number != shots[j].key.number
  }

  /** A snapshot names an event exactly when the event was recorded with that snapshot's capture. */
  predicate LinksTrue(events: seq<Ev>, shots: seq<Shot>) { ShotsNameTheirs(events, shots) && EventsNamed(events, shots) }

  predicate ShotsNameTheirs(events: seq<Ev>, shots: seq<Shot>) {
    forall s | s in shots && s.action.Some? :: s.action.value < |events|
        && events[s.action.value].link == Some(s.key)
  }

  predicate EventsNamed(events: seq<Ev>, shots: seq<Shot>) {
    forall k | 0 <= k < |events| && events[k].link.Some? :: Shot(events[k].link.value, Some(k)) in shots
  }

  /** The tasks that have not had their turn, those left from replaced recordings first. */
  function Tasks(st: State): seq<Task> { st.stale + st.queue }

  predicate Enabled(st: State, step: Step) {
    match step
    case BeginInitial => st.queue != [] && !st.poisoned && st.queue[0].kind.InitialSnapshot?
        && st.queue[0].capture.None?
    case Complete(c) => Has(st, c, Running)
    case Fail(c) => Has(st, c, Running)
    case TimeOut(c) =>
      Has(st, c, Running) && exists task | task in Tasks(st) :: task.kind.Navigate? && task.capture == Some(c)
    case RunHead => st.queue != [] && !st.poisoned && Settled(st, st.queue[0])
    case Import(events, shots) => Importable(events, shots)
    case RunStale => st.stale != [] && Settled(st, st.stale[0])
    case _ => true
  }

  function Numbers(shots: seq<Shot>): (r: seq<int>)
    ensures |r| == |shots|
  {
    seq(|shots|, i requires 0 <= i < |shots| => shots[i].key.number)
  }

  function NextSequence(shots: seq<Shot>): nat { NextNumber(Numbers(shots)) }

  function OnEnqueue(st: State, kind: Kind): State {
    var id := Offered(st);
    if st.snapshotting then BeginCapture(st, true).(queue := st.queue + [Task(id, kind, Some(NewKey(st)))])
    else st.(queue := st.queue + [Task(id, kind, None)])
  }

  function OnOvertake(st: State): State {
    if st.snapshotting then
      Record(st.(shots := st.shots + [Shot(NewKey(st), Some(|st.events|))], next := st.next + 1),
             Ev(Overtaking, Some(NewKey(st))))
    else Record(st, Ev(Overtaking, None))
  }

  function OnBeginInitial(st: State): State
    requires st.queue != []
  {
    BeginCapture(st, false).(queue := [st.queue[0].(capture := Some(NewKey(st)))] + st.queue[1..])
  }

  function OnComplete(st: State, c: Key): State
    requires c in st.captures
  {
    st.(captures := st.captures[c := st.captures[c].(progress := Done)], shots := st.shots + [Shot(c, None)])
  }

  function OnFail(st: State, c: Key): State
    requires c in st.captures
  {
    st.(captures := st.captures[c := st.captures[c].(progress := Failed)], troubled := true)
  }

  function OnRunHead(st: State): State
    requires st.queue != []
  {
    var task := st.queue[0];
    var done := Perform(st, task);
    if done.poisoned then done.(troubled := true)
    else done.(queue := st.queue[1..], fates := st.fates + [FateOf(st, task)])
  }

  function OnRunStale(st: State): State
    requires st.stale != []
  {
    Perform(st, st.stale[0]).(stale := st.stale[1..], poisoned := st.poisoned)
  }

  function OnImport(st: State, events: seq<Ev>, shots: seq<Shot>): State {
    st.(events := events, shots := shots, next := NextSequence(shots), era := st.era + 1, queue := [], stale := Tasks(st),
        poisoned := false, fates := [])
  }

  function Apply(st: State, step: Step): State
    requires Enabled(st, step)
  {
    match step
    case Enqueue(navigate) => OnEnqueue(st, if navigate then Navigate else Action)
    case BeginInitial => OnBeginInitial(st)
    case Complete(c) => OnComplete(st, c)
    case Fail(c) => OnFail(st, c)
    case TimeOut(c) => st.(timedOut := st.timedOut + {c}, troubled := true)
    case RunHead => OnRunHead(st)
    case Overtake => OnOvertake(st)
    case Import(events, shots) => OnImport(st, events, shots)
    case RunStale => OnRunStale(st)
  }

  // ---------- snapshots and events in order ----------

  predicate Stored(shots: seq<Shot>, number: nat) { exists s | s in shots :: s.key.number == number }

  /** The capture has been taken. */
  predicate Known(st: State, c: Key) { c.era < st.era || (c.era == st.era && c.number < st.next) }

  /** Numbers are handed out above those stored, and a running capture has one of its own. */
  ghost predicate Numbered(st: State) {
    && Unique(st.shots)
    && (forall s | s in st.shots :: s.key.number < st.next)
    && (forall c | c in st.captures :: Known(st, c))
    && (forall c: Key | Has(st, c, Running) :: c.number < st.next && !Stored(st.shots, c.number))
    && (forall c: Key, d: Key | Has(st, c, Running) && Has(st, d, Running) && c != d :: c.number != d.number)
  }

  /** No two tasks wait for the same capture. */
  predicate OwnCaptures(tasks: seq<Task>) {
    forall i, j | 0 <= i < j < |tasks| && tasks[i].capture.Some? :: tasks[i].capture != tasks[j].capture
  }

  /** A task that will link its snapshot finds it stored and unclaimed. */
  predicate Waiting(st: State, task: Task) {
    && (task.capture.Some? ==> task.capture.value in st.captures)
    && (LinksOne(st, task) ==> Shot(task.capture.value, None) in st.shots)
  }

  predicate Tasked(st: State) { OwnCaptures(Tasks(st)) && forall task | task in Tasks(st) :: Waiting(st, task) }

  ghost predicate InOrder(st: State) { Numbered(st) && Tasked(st) && LinksTrue(st.events, st.shots) }

  // ---------- linking ----------

  lemma OneShot(shots: seq<Shot>, a: Shot, b: Shot)
    requires Unique(shots) && a in shots && b in shots && a.key.number == b.key.number
    ensures a == b
  {
    var i :| 0 <= i < |shots| && shots[i] == a;
    var j :| 0 <= j < |shots| && shots[j] == b;
  }

  lemma {:induction false} LinkIs(shots: seq<Shot>, number: nat, index: nat)
    requires Unique(shots)
    ensures forall i | 0 <= i < |shots| ::
              Link(shots, number, index)[i]
              == if shots[i].key.number == number then shots[i].(action := Some(index)) else shots[i]
  {
    if shots != [] {
      LinkIs(shots[1..], number, index);
    }
  }

  /** The snapshot of that number is claimed, whoever's it is; the others stay. */
  lemma LinkedShots(shots: seq<Shot>, number: nat, index: nat)
    requires Unique(shots)
    ensures Unique(Link(shots, number, index))
    ensures forall s :: s in Link(shots, number, index)
                        <==> || (s in shots && s.key.number != number)
                             || (s.key.number == number && s.action == Some(index) && Holds(shots, s.key))
  {
    LinkIs(shots, number, index);
    var linked := Link(shots, number, index);
    forall s ensures s in linked
                     <==> || (s in shots && s.key.number != number)
                          || (s.key.number == number && s.action == Some(index) && Holds(shots, s.key)) {
      if s in linked {
        var i :| 0 <= i < |linked| && linked[i] == s;
        assert shots[i] in shots;
      }
      if s in shots && s.key.number != number {
        var i :| 0 <= i < |shots| && shots[i] == s;
        assert linked[i] == s;
      }
      if s.key.number == number && s.action == Some(index) && Holds(shots, s.key) {
        var t :| t in shots && t.key == s.key;
        var i :| 0 <= i < |shots| && shots[i] == t;
        assert linked[i] == s;
      }
    }
  }

  predicate Holds(shots: seq<Shot>, c: Key) { exists s | s in shots :: s.key == c }

  /** Linking capture `c` to the event recorded next keeps the links true exactly when its own snapshot is stored and
      unclaimed; otherwise an event is left without its snapshot. */
  lemma LinkKeepsTrueWhen(events: seq<Ev>, shots: seq<Shot>, c: Key, origin: Origin)
    requires LinksTrue(events, shots) && Unique(shots)
    ensures
      var more, linked := events + [Ev(origin, Some(c))], Link(shots, c.number, |events|);
      if Shot(c, None) in shots then LinksTrue(more, linked) else !EventsNamed(more, linked)
  {
    LinkedShots(shots, c.number, |events|);
    if Shot(c, None) in shots {
      LinkKeepsTrue(events, shots, c, origin);
    } else {
      LinkBreaks(events, shots, c, origin);
    }
  }

  lemma LinkKeepsTrue(events: seq<Ev>, shots: seq<Shot>, c: Key, origin: Origin)
    requires LinksTrue(events, shots) && Unique(shots) && Shot(c, None) in shots
    ensures LinksTrue(events + [Ev(origin, Some(c))], Link(shots, c.number, |events|))
  {
    LinkedName(events, shots, c, origin);
    LinkedNamed(events, shots, c, origin);
  }

  lemma LinkedName(events: seq<Ev>, shots: seq<Shot>, c: Key, origin: Origin)
    requires ShotsNameTheirs(events, shots) && Unique(shots) && Shot(c, None) in shots
    ensures ShotsNameTheirs(events + [Ev(origin, Some(c))], Link(shots, c.number, |events|))
  {
    var more, linked := events + [Ev(origin, Some(c))], Link(shots, c.number, |events|);
    LinkedShots(shots, c.number, |events|);
    forall s | s in linked && s.action.Some?
      ensures s.action.value < |more| && more[s.action.value].link == Some(s.key) {
      if s.key.number == c.number {
        var t :| t in shots && t.key == s.key;
        OneShot(shots, t, Shot(c, None));
      }
    }
  }

  lemma LinkedNamedAt(events: seq<Ev>, shots: seq<Shot>, c: Key, k: nat)
    requires EventsNamed(events, shots) && Unique(shots) && Shot(c, None) in shots
    requires k < |events| && events[k].link.Some?
    ensures Shot(events[k].link.value, Some(k)) in Link(shots, c.number, |events|)
  {
    LinkedShots(shots, c.number, |events|);
    ClaimedIsOther(shots, Shot(events[k].link.value, Some(k)), c);
  }

  lemma LinkedLast(shots: seq<Shot>, c: Key, index: nat)
    requires Unique(shots) && Shot(c, None) in shots
    ensures Shot(c, Some(index)) in Link(shots, c.number, index)
  {
    LinkedShots(shots, c.number, index);
  }

  lemma OneMoreNamed(events: seq<Ev>, linked: seq<Shot>, c: Key, origin: Origin)
    requires forall k: nat | k < |events| && events[k].link.Some? :: Shot(events[k].link.value, Some(k)) in linked
    requires Shot(c, Some(|events|)) in linked
    ensures EventsNamed(events + [Ev(origin, Some(c))], linked)
  {
  }

  lemma LinkedNamed(events: seq<Ev>, shots: seq<Shot>, c: Key, origin: Origin)
    requires EventsNamed(events, shots) && Unique(shots) && Shot(c, None) in shots
    ensures EventsNamed(events + [Ev(origin, Some(c))], Link(shots, c.number, |events|))
  {
    forall k: nat | k < |events| && events[k].link.Some?
      ensures Shot(events[k].link.value, Some(k)) in Link(shots, c.number, |events|)
    {
      LinkedNamedAt(events, shots, c, k);
    }
    LinkedLast(shots, c, |events|);
    OneMoreNamed(events, Link(shots, c.number, |events|), c, origin);
  }

  lemma ClaimedIsOther(shots: seq<Shot>, s: Shot, c: Key)
    requires Unique(shots) && s in shots && s != Shot(c, None) && Shot(c, None) in shots
    ensures s.key.number != c.number
  {
    if s.key.number == c.number {
      OneShot(shots, s, Shot(c, None));
    }
  }

  lemma LinkBreaks(events: seq<Ev>, shots: seq<Shot>, c: Key, origin: Origin)
    requires LinksTrue(events, shots) && Unique(shots) && Shot(c, None) !in shots
    ensures !EventsNamed(events + [Ev(origin, Some(c))], Link(shots, c.number, |events|))
  {
    var more, linked := events + [Ev(origin, Some(c))], Link(shots, c.number, |events|);
    LinkedShots(shots, c.number, |events|);
    if Holds(shots, c) {
      var s :| s in shots && s.key == c;
      var k := s.action.value;
      assert events[k].link == Some(c) && more[k] == events[k];
      assert Shot(c, Some(k)) !in linked;
    } else {
      assert more[|events|].link == Some(c);
      assert Shot(c, Some(|events|)) !in linked;
    }
  }

  lemma UnlinkedLinks(events: seq<Ev>, shots: seq<Shot>, ev: Ev)
    requires LinksTrue(events, shots) && ev.link.None?
    ensures LinksTrue(events + [ev], shots)
  {
  }

  // ---------- numbers stay in order ----------

  lemma BeginKeepsNumbers(st: State, beforeAction: bool)
    requires Numbered(st)
    ensures Numbered(BeginCapture(st, beforeAction))
  {
    var next := BeginCapture(st, beforeAction);
    forall c: Key | Has(next, c, Running) ensures c.number < next.next && !Stored(next.shots, c.number) {
      assert c == NewKey(st) || Has(st, c, Running);
    }
    forall c: Key, d: Key | Has(next, c, Running) && Has(next, d, Running) && c != d ensures c.number != d.number {
      assert c == NewKey(st) || Has(st, c, Running);
      assert d == NewKey(st) || Has(st, d, Running);
    }
  }

  lemma CompleteKeepsNumbers(st: State, done: Key)
    requires Numbered(st) && Has(st, done, Running)
    ensures Numbered(OnComplete(st, done))
  {
    var next := OnComplete(st, done);
    forall c: Key | Has(next, c, Running) ensures c.number < next.next && !Stored(next.shots, c.number) {
      assert c != done && Has(st, c, Running);
    }
    forall i, j | 0 <= i < j < |next.shots| ensures next.shots[i].key.number != next.shots[j].key.number {
      assert st.shots[i] in st.shots;
    }
    forall c: Key, d: Key | Has(next, c, Running) && Has(next, d, Running) && c != d ensures c.number != d.number {
      assert Has(st, c, Running) && Has(st, d, Running);
    }
  }

  lemma OvertakeKeepsNumbers(st: State)
    requires Numbered(st)
    ensures Numbered(OnOvertake(st))
  {
    var next := OnOvertake(st);
    forall i, j | 0 <= i < j < |next.shots| ensures next.shots[i].key.number != next.shots[j].key.number {
      assert st.shots[i] in st.shots;
    }
    forall c: Key | Has(next, c, Running) ensures c.number < next.next && !Stored(next.shots, c.number) {
      assert Has(st, c, Running);
    }
    forall c: Key, d: Key | Has(next, c, Running) && Has(next, d, Running) && c != d ensures c.number != d.number {
      assert Has(st, c, Running) && Has(st, d, Running);
    }
  }

  predicate SameNumbers(a: seq<Shot>, b: seq<Shot>) {
    |a| == |b| && forall i | 0 <= i < |a| :: a[i].key.number == b[i].key.number
  }

  lemma {:induction false} LinkKeepsNumbers(shots: seq<Shot>, number: nat, index: nat)
    ensures SameNumbers(shots, Link(shots, number, index))
  {
    if shots != [] && shots[0].key.number != number {
      LinkKeepsNumbers(shots[1..], number, index);
    }
  }

  lemma SameNumbersOk(st: State, next: State)
    requires Numbered(st) && SameNumbers(st.shots, next.shots) && next.next == st.next && next.era == st.era
    requires next.captures.Keys == st.captures.Keys && forall c: Key | Has(next, c, Running) :: Has(st, c, Running)
    ensures Numbered(next)
  {
    forall s | s in next.shots ensures Stored(st.shots, s.key.number) {
      var i :| 0 <= i < |next.shots| && next.shots[i] == s;
      assert st.shots[i] in st.shots;
    }
    forall c: Key | Has(next, c, Running) ensures c.number < next.next && !Stored(next.shots, c.number) {
      assert Has(st, c, Running);
    }
    forall c: Key, d: Key | Has(next, c, Running) && Has(next, d, Running) && c != d ensures c.number != d.number {
      assert Has(st, c, Running) && Has(st, d, Running);
    }
  }

  /** What the turn of a task changes. */
  lemma PerformIs(st: State, task: Task)
    ensures
      var next := Perform(st, task);
      && next == st.(events := next.events, shots := next.shots, poisoned := next.poisoned)
      && SameNumbers(st.shots, next.shots)
      && (if LinksOne(st, task) then
            && next.events == st.events + [Ev(Queued(task.id), task.capture)]
            && next.shots == Link(st.shots, task.capture.value.number, |st.events|)
          else next.shots == st.shots && next.events in {st.events, st.events + [Ev(Queued(task.id), None)]})
  {
    if LinksOne(st, task) {
      LinkKeepsNumbers(st.shots, task.capture.value.number, |st.events|);
    }
  }

  lemma StepKeepsNumbers(st: State, step: Step)
    requires Numbered(st) && Enabled(st, step) && !step.Import?
    ensures Numbered(Apply(st, step))
  {
    match step
    case Enqueue(_) =>
      if st.snapshotting {
        BeginKeepsNumbers(st, true);
        SameNumbersOk(BeginCapture(st, true), Apply(st, step));
      } else {
        SameNumbersOk(st, Apply(st, step));
      }
    case BeginInitial =>
      BeginKeepsNumbers(st, false);
      SameNumbersOk(BeginCapture(st, false), Apply(st, step));
    case Complete(c) => CompleteKeepsNumbers(st, c);
    case Fail(_) => SameNumbersOk(st, Apply(st, step));
    case TimeOut(_) => SameNumbersOk(st, Apply(st, step));
    case RunHead =>
      PerformIs(st, st.queue[0]);
      SameNumbersOk(st, Apply(st, step));
    case Overtake => OvertakeKeepsNumbers(st);
    case RunStale =>
      PerformIs(st, st.stale[0]);
      SameNumbersOk(st, Apply(st, step));
  }

  // ---------- links stay true ----------

  /** The turn of a task that finds its snapshot unclaimed, or links none. */
  lemma TurnKeepsLinks(st: State, task: Task)
    requires LinksTrue(st.events, st.shots) && Unique(st.shots) && Waiting(st, task)
    ensures LinksTrue(Perform(st, task).events, Perform(st, task).shots)
  {
    PerformIs(st, task);
    if LinksOne(st, task) {
      LinkKeepsTrue(st.events, st.shots, task.capture.value, Queued(task.id));
    } else {
      UnlinkedLinks(st.events, st.shots, Ev(Queued(task.id), None));
    }
  }

  lemma OvertakeKeepsLinks(st: State)
    requires LinksTrue(st.events, st.shots)
    ensures LinksTrue(OnOvertake(st).events, OnOvertake(st).shots)
  {
    var next := OnOvertake(st);
    if st.snapshotting {
      var shot := Shot(NewKey(st), Some(|st.events|));
      assert shot in next.shots && forall s | s in st.shots :: s in next.shots;
    }
  }

  lemma CompleteKeepsLinks(st: State, c: Key)
    requires LinksTrue(st.events, st.shots) && c in st.captures
    ensures LinksTrue(OnComplete(st, c).events, OnComplete(st, c).shots)
  {
    assert forall s | s in st.shots :: s in OnComplete(st, c).shots;
  }

  lemma StepKeepsLinks(st: State, step: Step)
    requires InOrder(st) && Enabled(st, step) && !step.Import?
    ensures LinksTrue(Apply(st, step).events, Apply(st, step).shots)
  {
    match step
    case Complete(c) => CompleteKeepsLinks(st, c);
    case RunHead =>
      assert st.queue[0] in Tasks(st);
      TurnKeepsLinks(st, st.queue[0]);
    case Overtake => OvertakeKeepsLinks(st);
    case RunStale =>
      assert st.stale[0] in Tasks(st);
      TurnKeepsLinks(st, st.stale[0]);
    case Enqueue(_) =>
    case BeginInitial =>
    case Fail(_) =>
    case TimeOut(_) =>
  }

  // ---------- tasks keep waiting for their own ----------

  lemma BegunWaiting(st: State, task: Task, beforeAction: bool)
    requires Waiting(st, task) && Numbered(st)
    ensures Waiting(BeginCapture(st, beforeAction), task)
    ensures task.capture != Some(NewKey(st))
  {
  }

  lemma EnqueueTasked(st: State, kind: Kind)
    requires Tasked(st) && Numbered(st)
    ensures Tasked(OnEnqueue(st, kind))
  {
    var next := OnEnqueue(st, kind);
    var task := next.queue[|st.queue|];
    assert Tasks(next) == Tasks(st) + [task];
    forall t | t in Tasks(st) ensures Waiting(next, t) && t.capture != Some(NewKey(st)) {
      BegunWaiting(st, t, true);
      assert Waiting(BeginCapture(st, true), t);
    }
    assert Waiting(next, task);
    OneMoreOwn(Tasks(st), task);
  }

  lemma OneMoreOwn(tasks: seq<Task>, task: Task)
    requires OwnCaptures(tasks) && (task.capture.Some? ==> forall t | t in tasks :: t.capture != task.capture)
    ensures OwnCaptures(tasks + [task])
  {
    var all := tasks + [task];
    forall i, j | 0 <= i < j < |all| && all[i].capture.Some? ensures all[i].capture != all[j].capture {
      assert all[i] == tasks[i] && tasks[i] in tasks;
    }
  }

  lemma BeginInitialTasked(st: State)
    requires Tasked(st) && Numbered(st) && Enabled(st, BeginInitial)
    ensures Tasked(OnBeginInitial(st))
  {
    var next, n := OnBeginInitial(st), |st.stale|;
    var task := st.queue[0].(capture := Some(NewKey(st)));
    assert Tasks(next) == Tasks(st)[n := task];
    forall t | t in Tasks(next) ensures Waiting(next, t) {
      if t in Tasks(st) {
        BegunWaiting(st, t, false);
        assert Waiting(BeginCapture(st, false), t);
      } else {
        assert t == task;
      }
    }
    var all := Tasks(next);
    forall i, j | 0 <= i < j < |all| && all[i].capture.Some? ensures all[i].capture != all[j].capture {
      assert Tasks(st)[i] in Tasks(st) && Tasks(st)[j] in Tasks(st);
      BegunWaiting(st, Tasks(st)[i], false);
      BegunWaiting(st, Tasks(st)[j], false);
    }
  }

  lemma CompleteTasked(st: State, c: Key)
    requires Tasked(st) && Has(st, c, Running)
    ensures Tasked(OnComplete(st, c))
  {
    var next := OnComplete(st, c);
    assert Tasks(next) == Tasks(st);
    assert Shot(c, None) in next.shots && forall s | s in st.shots :: s in next.shots;
    forall t | t in Tasks(next) ensures Waiting(next, t) {
      assert Waiting(st, t);
      assert LinksOne(next, t) && t.capture != Some(c) ==> LinksOne(st, t);
    }
  }

  lemma FailTasked(st: State, c: Key)
    requires Tasked(st) && Has(st, c, Running)
    ensures Tasked(OnFail(st, c))
  {
    var next := OnFail(st, c);
    assert Tasks(next) == Tasks(st);
    forall t | t in Tasks(next) ensures Waiting(next, t) {
      assert Waiting(st, t);
      assert LinksOne(next, t) ==> LinksOne(st, t);
    }
  }

  lemma TimeOutTasked(st: State, c: Key)
    requires Tasked(st) && Enabled(st, TimeOut(c))
    ensures Tasked(Apply(st, TimeOut(c)))
  {
    var next := Apply(st, TimeOut(c));
    assert Tasks(next) == Tasks(st);
    forall t | t in Tasks(next) ensures Waiting(next, t) {
      assert Waiting(st, t);
      assert LinksOne(next, t) ==> LinksOne(st, t);
    }
  }

  lemma OvertakeTasked(st: State)
    requires Tasked(st)
    ensures Tasked(OnOvertake(st))
  {
    var next := OnOvertake(st);
    assert Tasks(next) == Tasks(st);
    assert forall s | s in st.shots :: s in next.shots;
    forall t | t in Tasks(next) ensures Waiting(next, t) {
      assert Waiting(st, t);
    }
  }

  /** The turn of another task does not claim the snapshot this one waits for. */
  lemma OtherWaits(st: State, task: Task, other: Task)
    requires Unique(st.shots) && Waiting(st, task) && Waiting(st, other)
    requires task.capture.Some? ==> other.capture != task.capture
    ensures Waiting(Perform(st, task), other)
  {
    PerformIs(st, task);
    if LinksOne(st, task) && LinksOne(st, other) {
      LinkedShots(st.shots, task.capture.value.number, |st.events|);
      ClaimedIsOther(st.shots, Shot(other.capture.value, None), task.capture.value);
    }
  }

  /** All tasks but the one that had its turn. */
  lemma TurnTasked(st: State, next: State, i: nat)
    requires Tasked(st) && Unique(st.shots) && i < |Tasks(st)| && Tasks(next) == Tasks(st)[..i] + Tasks(st)[i + 1..]
    requires
      var done := Perform(st, Tasks(st)[i]);
      next.captures == done.captures && next.timedOut == done.timedOut && next.shots == done.shots
    ensures Tasked(next)
  {
    var task, all, rest := Tasks(st)[i], Tasks(st), Tasks(next);
    forall j | 0 <= j < |rest| ensures Waiting(next, rest[j]) {
      var k := if j < i then j else j + 1;
      assert rest[j] == all[k] && all[k] in all && task in all;
      OtherWaits(st, task, all[k]);
      assert Waiting(Perform(st, task), rest[j]);
    }
    forall j, k | 0 <= j < k < |rest| && rest[j].capture.Some? ensures rest[j].capture != rest[k].capture {
      assert rest[j] == all[if j < i then j else j + 1] && rest[k] == all[if k < i then k else k + 1];
    }
  }

  lemma HeadTasked(st: State)
    requires Tasked(st) && Unique(st.shots) && Enabled(st, RunHead)
    ensures Tasked(OnRunHead(st))
  {
    var next, n := OnRunHead(st), |st.stale|;
    PerformIs(st, st.queue[0]);
    if next.poisoned {
      assert Tasks(next) == Tasks(st);
      forall t | t in Tasks(next) ensures Waiting(next, t) {
        assert Waiting(st, t);
      }
    } else {
      assert Tasks(st)[n] == st.queue[0];
      assert Tasks(next) == Tasks(st)[..n] + Tasks(st)[n + 1..];
      TurnTasked(st, next, n);
    }
  }

  lemma StaleTasked(st: State)
    requires Tasked(st) && Unique(st.shots) && st.stale != []
    ensures Tasked(OnRunStale(st))
  {
    PerformIs(st, st.stale[0]);
    assert Tasks(st)[0] == st.stale[0];
    assert Tasks(OnRunStale(st)) == Tasks(st)[..0] + Tasks(st)[1..];
    TurnTasked(st, OnRunStale(st), 0);
  }

  lemma StepKeepsTasked(st: State, step: Step)
    requires InOrder(st) && Enabled(st, step) && !step.Import?
    ensures Tasked(Apply(st, step))
  {
    match step
    case Enqueue(navigate) => EnqueueTasked(st, if navigate then Navigate else Action);
    case BeginInitial => BeginInitialTasked(st);
    case Complete(c) => CompleteTasked(st, c);
    case Fail(c) => FailTasked(st, c);
    case TimeOut(c) => TimeOutTasked(st, c);
    case RunHead => HeadTasked(st);
    case Overtake => OvertakeTasked(st);
    case RunStale => StaleTasked(st);
  }

  /** Every step of one recording, leftover tasks of replaced ones included, keeps the order. */
  lemma StepKeepsOrder(st: State, step: Step)
    requires InOrder(st) && Enabled(st, step) && !step.Import?
    ensures InOrder(Apply(st, step))
  {
    StepKeepsNumbers(st, step);
    StepKeepsTasked(st, step);
    StepKeepsLinks(st, step);
  }

  // ---------- an import ----------

  lemma ShotsAreBelow(shots: seq<Shot>)
    ensures forall s | s in shots :: s.key.number < NextSequence(shots)
  {
    NextIsAbove(Numbers(shots));
    forall s | s in shots ensures s.key.number in Numbers(shots) {
      var i :| 0 <= i < |shots| && shots[i] == s;
      assert Numbers(shots)[i] == s.key.number;
    }
  }

  /** A running capture can complete into the imported recording without repeating a number. */
  ghost predicate RunningFit(st: State, shots: seq<Shot>) {
    && (forall c: Key | Has(st, c, Running) :: c.number < NextSequence(shots) && !Stored(shots, c.number))
    && (forall c: Key, d: Key | Has(st, c, Running) && Has(st, d, Running) && c != d :: c.number != d.number)
  }

  /** A leftover task that is to link a capture finds that very capture, unclaimed, in the imported recording. */
  predicate LeftoversFit(st: State, shots: seq<Shot>) {
    forall task | task in Tasks(st) && LinksOne(st, task) :: Shot(task.capture.value, None) in shots
  }

  /** Every task under way has begun its capture, which is its own. */
  predicate Begun(st: State) {
    && OwnCaptures(Tasks(st))
    && (forall c | c in st.captures :: Known(st, c))
    && forall task | task in Tasks(st) ::
         (task.kind.InitialSnapshot? ==> task.capture.Some?) && (task.capture.Some? ==> task.capture.value in st.captures)
  }

  lemma ImportNumbered(st: State, events: seq<Ev>, shots: seq<Shot>)
    requires Unique(shots) && forall c | c in st.captures :: Known(st, c)
    ensures Numbered(OnImport(st, events, shots)) <==> RunningFit(st, shots)
  {
    var next := OnImport(st, events, shots);
    ShotsAreBelow(shots);
    assert forall c: Key :: Has(next, c, Running) == Has(st, c, Running);
  }

  lemma ImportTasked(st: State, events: seq<Ev>, shots: seq<Shot>)
    requires OwnCaptures(Tasks(st))
    requires forall task | task in Tasks(st) && task.capture.Some? :: task.capture.value in st.captures
    requires LeftoversFit(st, shots)
    ensures Tasked(OnImport(st, events, shots))
  {
    var next := OnImport(st, events, shots);
    assert Tasks(next) == Tasks(st);
    assert forall task :: LinksOne(next, task) == LinksOne(st, task);
  }

  /** Nothing of the recording that is replaced is still under way. */
  predicate Calm(st: State) { Tasks(st) == [] && forall c | c in st.captures :: !Has(st, c, Running) }

  // ---------- the whole invariant ----------

  function QueuedIds(events: seq<Ev>): seq<nat> {
    if events == [] then []
    else
      var last := events[|events| - 1];
      QueuedIds(events[..|events| - 1]) + if last.origin.Queued? then [last.origin.id] else []
  }

  /** The tasks that were recorded, in the order they were offered. */
  function RecordedIds(fates: seq<Fate>): seq<nat> {
    if fates == [] then []
    else RecordedIds(fates[..|fates| - 1]) + if fates[|fates| - 1].Recorded? then [|fates| - 1] else []
  }

  /** The queue is first in, first out. */
  predicate Fifo(st: State) {
    && st.stale == []
    && (forall i | 0 <= i < |st.queue| :: st.queue[i].id == |st.fates| + i)
    && QueuedIds(st.events) == RecordedIds(st.fates)
  }

  /** Without trouble nothing is dropped and every event of this document has its snapshot. */
  predicate Untroubled(st: State) {
    && (forall task | task in st.queue && !task.kind.InitialSnapshot? :: task.capture.Some? == st.snapshotting)
    && (forall task | task in st.queue && task.capture.Some? ::
          task.capture.value in st.captures
          && st.captures[task.capture.value].beforeAction == !task.kind.InitialSnapshot?)
    && (!st.troubled ==>
          && (forall f | f in st.fates :: f != Dropped)
          && (st.snapshotting ==> forall e | e in st.events :: e.origin == Imported || e.link.Some?)
          && !st.poisoned && st.timedOut == {}
          && (forall task | task in st.queue && task.capture.Some? :: !Has(st, task.capture.value, Failed)))
  }

  ghost predicate Inv(st: State) { InOrder(st) && Fifo(st) && Untroubled(st) }

  lemma QueuedAppended(events: seq<Ev>, ev: Ev)
    ensures QueuedIds(events + [ev]) == QueuedIds(events) + if ev.origin.Queued? then [ev.origin.id] else []
  {
    assert (events + [ev])[..|events|] == events;
  }

  lemma FateAppended(fates: seq<Fate>, fate: Fate)
    ensures RecordedIds(fates + [fate]) == RecordedIds(fates) + if fate.Recorded? then [|fates|] else []
  {
    assert (fates + [fate])[..|fates|] == fates;
  }

  /** What the turn of the head comes to. */
  lemma HeadIs(st: State)
    requires Enabled(st, RunHead)
    ensures
      var task, next := st.queue[0], OnRunHead(st);
      if next.poisoned then next == st.(poisoned := true, troubled := true)
      else
        var ev := Ev(Queued(task.id), if LinksOne(st, task) then task.capture else None);
        next == st.(events := st.events + if FateOf(st, task).Recorded? then [ev] else [],
                    shots := next.shots, queue := st.queue[1..], fates := st.fates + [FateOf(st, task)])
  {
    assert st.events + [] == st.events;
  }

  lemma HeadFifo(st: State)
    requires Fifo(st) && Enabled(st, RunHead)
    ensures Fifo(OnRunHead(st))
  {
    var task, next := st.queue[0], OnRunHead(st);
    HeadIs(st);
    if !next.poisoned {
      FateAppended(st.fates, FateOf(st, task));
      QueuedAppended(st.events, Ev(Queued(task.id), if LinksOne(st, task) then task.capture else None));
      assert st.events + [] == st.events && QueuedIds(st.events) + [] == QueuedIds(st.events);
      forall i | 0 <= i < |next.queue| ensures next.queue[i].id == |next.fates| + i {
        assert st.queue[i + 1].id == |st.fates| + i + 1;
      }
    }
  }

  lemma StepKeepsFifo(st: State, step: Step)
    requires Fifo(st) && Enabled(st, step) && !step.Import?
    ensures Fifo(Apply(st, step))
  {
    if step.RunHead? {
      HeadFifo(st);
    } else if step.Overtake? {
      OvertakeFifo(st);
    } else if step.Enqueue? {
      EnqueueFifo(st, if step.navigate then Navigate else Action);
    }
  }

  lemma OvertakeFifo(st: State)
    requires Fifo(st)
    ensures Fifo(OnOvertake(st))
  {
    QueuedAppended(st.events, Ev(Overtaking, if st.snapshotting then Some(NewKey(st)) else None));
  }

  lemma EnqueueFifo(st: State, kind: Kind)
    requires Fifo(st)
    ensures Fifo(OnEnqueue(st, kind))
  {
  }

  lemma HeadUntroubled(st: State)
    requires Untroubled(st) && Enabled(st, RunHead)
    ensures Untroubled(OnRunHead(st))
  {
    var task, next := st.queue[0], OnRunHead(st);
    HeadIs(st);
    assert task in st.queue && forall t | t in next.queue :: t in st.queue;
  }

  lemma LongerUntroubled(st: State, kind: Kind)
    requires Untroubled(st) && !kind.InitialSnapshot? && Numbered(st)
    ensures Untroubled(OnEnqueue(st, kind))
  {
    var next := OnEnqueue(st, kind);
    forall t | t in next.queue && t.capture.Some?
      ensures t == next.queue[|st.queue|] || (t in st.queue && Known(st, t.capture.value)) {
    }
  }

  lemma BegunUntroubled(st: State)
    requires Untroubled(st) && Enabled(st, BeginInitial) && Numbered(st)
    ensures Untroubled(OnBeginInitial(st))
  {
    var next := OnBeginInitial(st);
    forall t | t in next.queue && t.capture.Some?
      ensures t == next.queue[0] || (t in st.queue && Known(st, t.capture.value)) {
    }
  }

  lemma StepKeepsUntroubled(st: State, step: Step)
    requires Untroubled(st) && Numbered(st) && st.stale == [] && Enabled(st, step) && !step.Import?
    ensures Untroubled(Apply(st, step))
  {
    if step.RunHead? {
      HeadUntroubled(st);
    } else if step.Enqueue? {
      LongerUntroubled(st, if step.navigate then Navigate else Action);
    } else if step.BeginInitial? {
      BegunUntroubled(st);
    }
  }

  lemma {:induction false} ImportedHasNoQueued(events: seq<Ev>)
    requires forall e | e in events :: e.origin == Imported
    ensures QueuedIds(events) == []
  {
    if events != [] {
      ImportedHasNoQueued(events[..|events| - 1]);
    }
  }

  lemma ImportKeeps(st: State, events: seq<Ev>, shots: seq<Shot>)
    requires Inv(st) && Calm(st) && Importable(events, shots)
    ensures Inv(OnImport(st, events, shots))
  {
    forall c: Key ensures !Has(st, c, Running) {
    }
    ImportNumbered(st, events, shots);
    ImportTasked(st, events, shots);
    ImportedHasNoQueued(events);
  }

  lemma StepKeeps(st: State, step: Step)
    requires Inv(st) && Enabled(st, step) && (step.Import? ==> Calm(st))
    ensures Inv(Apply(st, step))
  {
    if step.Import? {
      ImportKeeps(st, step.events, step.shots);
    } else {
      StepKeepsOrder(st, step);
      StepKeepsFifo(st, step);
      StepKeepsUntroubled(st, step);
    }
  }

  // ---------- every run ----------

  /** Each step is possible, and a recording is imported only when nothing of the old one is under way. */
  predicate Orderly(st: State, steps: seq<Step>)
    decreases |steps|
  {
    steps == [] ||
    (Enabled(st, steps[0]) && (steps[0].Import? ==> Calm(st)) && Orderly(Apply(st, steps[0]), steps[1..]))
  }

  function Run(st: State, steps: seq<Step>): State
    requires Orderly(st, steps)
    decreases |steps|
  {
    if steps == [] then st else Run(Apply(st, steps[0]), steps[1..])
  }

  lemma {:induction false} RunKeeps(st: State, steps: seq<Step>)
    requires Inv(st) && Orderly(st, steps)
    ensures Inv(Run(st, steps))
    decreases |steps|
  {
    if steps != [] {
      StepKeeps(st, steps[0]);
      RunKeeps(Apply(st, steps[0]), steps[1..]);
    }
  }

  /** In every interleaving: an index names a recorded event, and the event recorded with that very snapshot; no
      two snapshots claim one event; and an event recorded with a snapshot is claimed by it. */
  lemma SnapshotsNameTheirEvents(snapshotting: bool, steps: seq<Step>)
    requires Orderly(Started(snapshotting), steps)
    ensures
      var st := Run(Started(snapshotting), steps);
      && (forall s | s in st.shots && s.action.Some? ::
            s.action.value < |st.events| && st.events[s.action.value].link == Some(s.key))
      && (forall i, j | 0 <= i < j < |st.shots| && st.shots[i].action.Some? :: st.shots[i].action != st.shots[j].action)
      && (forall k | 0 <= k < |st.events| && st.events[k].link.Some? :: Shot(st.events[k].link.value, Some(k)) in st.shots)
  {
    RunKeeps(Started(snapshotting), steps);
    var st := Run(Started(snapshotting), steps);
    forall i, j | 0 <= i < j < |st.shots| && st.shots[i].action.Some? ensures st.shots[i].action != st.shots[j].action {
      assert st.shots[i] in st.shots && st.shots[j] in st.shots;
    }
  }

  /** Events that went through the queue are recorded in the order they were offered, none twice; what is neither
      recorded nor dropped is still waiting, in that order. */
  lemma QueueIsFirstInFirstOut(snapshotting: bool, steps: seq<Step>)
    requires Orderly(Started(snapshotting), steps)
    ensures
      var st := Run(Started(snapshotting), steps);
      && QueuedIds(st.events) == RecordedIds(st.fates)
      && forall i | 0 <= i < |st.queue| :: st.queue[i].id == |st.fates| + i
  {
    RunKeeps(Started(snapshotting), steps);
  }

  lemma {:induction false} RecordedIdsAre(fates: seq<Fate>)
    ensures forall i, j | 0 <= i < j < |RecordedIds(fates)| :: RecordedIds(fates)[i] < RecordedIds(fates)[j]
    ensures forall n: nat :: n in RecordedIds(fates) <==> n < |fates| && fates[n] == Recorded
  {
    if fates != [] {
      var init := RecordedIds(fates[..|fates| - 1]);
      RecordedIdsAre(fates[..|fates| - 1]);
      assert forall i | 0 <= i < |init| :: init[i] in init;
    }
  }

  /** When no capture fails or times out, no event is dropped and each one recorded here is claimed. */
  lemma AllSucceedAllClaimed(steps: seq<Step>, k: nat)
    requires Orderly(Started(true), steps) && forall step | step in steps :: !step.Fail? && !step.TimeOut?
    ensures
      var st := Run(Started(true), steps);
      && Dropped !in st.fates && !st.poisoned
      && (k < |st.events| && st.events[k].origin != Imported
          ==> st.events[k].link.Some? && Shot(st.events[k].link.value, Some(k)) in st.shots)
  {
    RunKeeps(Started(true), steps);
    NoTrouble(Started(true), steps);
    var st := Run(Started(true), steps);
    if k < |st.events| {
      assert st.events[k] in st.events;
    }
  }

  lemma {:induction false} NoTrouble(st: State, steps: seq<Step>)
    requires Inv(st) && !st.troubled && Orderly(st, steps)
    requires forall step | step in steps :: !step.Fail? && !step.TimeOut?
    ensures !Run(st, steps).troubled && Run(st, steps).snapshotting == st.snapshotting
    decreases |steps|
  {
    if steps != [] {
      assert steps[0] in steps;
      StepKeeps(st, steps[0]);
      if steps[0].RunHead? && st.queue[0].kind.InitialSnapshot? {
        assert st.queue[0] in st.queue && Arrived(st, st.queue[0]);
      }
      NoTrouble(Apply(st, steps[0]), steps[1..]);
    }
  }

  // ---------- draining ----------

  function Heads(n: nat): seq<Step> { if n == 0 then [] else [RunHead] + Heads(n - 1) }

  /** Every waiting task is an event whose capture is decided. */
  predicate AllSettled(st: State) { forall task | task in st.queue :: Settled(st, task) && !task.kind.InitialSnapshot? }

  lemma HeadLeavesCaptures(st: State)
    requires Enabled(st, RunHead) && !st.queue[0].kind.InitialSnapshot?
    ensures
      var next := Apply(st, RunHead);
      && next.captures == st.captures && next.timedOut == st.timedOut && next.poisoned == st.poisoned
      && next.queue == st.queue[1..] && next.fates == st.fates + [FateOf(st, st.queue[0])]
  {
  }

  lemma SettledStays(st: State, next: State)
    requires AllSettled(st) && st.queue != [] && next.queue == st.queue[1..]
    requires next.captures == st.captures && next.timedOut == st.timedOut
    ensures AllSettled(next)
  {
    forall task | task in next.queue ensures Settled(next, task) && !task.kind.InitialSnapshot? {
      assert task in st.queue && Settled(st, task);
    }
  }

  lemma SettledStep(st: State)
    requires Inv(st) && !st.poisoned && AllSettled(st) && st.queue != []
    ensures Enabled(st, RunHead)
    ensures
      var next := Apply(st, RunHead);
      && Inv(next) && !next.poisoned && AllSettled(next)
      && next.captures == st.captures && next.timedOut == st.timedOut
      && next.queue == st.queue[1..] && next.fates == st.fates + [FateOf(st, st.queue[0])]
  {
    assert st.queue[0] in st.queue;
    StepKeeps(st, RunHead);
    HeadLeavesCaptures(st);
    SettledStays(st, Apply(st, RunHead));
  }

  lemma HeadsStep(st: State, n: nat)
    requires Enabled(st, RunHead) && Orderly(Apply(st, RunHead), Heads(n))
    ensures Orderly(st, Heads(n + 1)) && Run(st, Heads(n + 1)) == Run(Apply(st, RunHead), Heads(n))
  {
    assert Heads(n + 1)[0] == RunHead && Heads(n + 1)[1..] == Heads(n);
  }

  // ---------- a failed initial snapshot ----------

  /** Steps of the same document, in any order. */
  predicate Continues(st: State, steps: seq<Step>)
    decreases |steps|
  {
    steps == [] || (!steps[0].Import? && Enabled(st, steps[0]) && Continues(Apply(st, steps[0]), steps[1..]))
  }

  function After(st: State, steps: seq<Step>): State
    requires Continues(st, steps)
    decreases |steps|
  {
    if steps == [] then st else After(Apply(st, steps[0]), steps[1..])
  }

  lemma {:induction false} PoisonedQueueNeverMoves(st: State, steps: seq<Step>)
    requires st.poisoned && st.stale == [] && Continues(st, steps)
    ensures
      var end := After(st, steps);
      end.poisoned && end.stale == [] && end.fates == st.fates && QueuedIds(end.events) == QueuedIds(st.events)
    decreases |steps|
  {
    if steps != [] {
      var next := Apply(st, steps[0]);
      if steps[0].Overtake? {
        QueuedAppended(st.events, next.events[|st.events|]);
      }
      PoisonedQueueNeverMoves(next, steps[1..]);
    }
  }

  /** The first task of the queue is the initial snapshot, and nothing was recorded before it. */
  predicate InitialIsFirst(st: State) { forall task | task in st.queue && task.kind.InitialSnapshot? :: task.id == 0 }

  lemma InitialStaysFirst(st: State, step: Step)
    requires InitialIsFirst(st) && Enabled(st, step)
    ensures InitialIsFirst(Apply(st, step))
  {
    forall task | task in Apply(st, step).queue && task.kind.InitialSnapshot? ensures task.id == 0 {
      if step.BeginInitial? {
        assert st.queue[0] in st.queue;
      }
    }
  }

  lemma {:induction false} ContinuesKeep(st: State, steps: seq<Step>)
    requires Inv(st) && InitialIsFirst(st) && Continues(st, steps)
    ensures Inv(After(st, steps)) && InitialIsFirst(After(st, steps))
    decreases |steps|
  {
    if steps != [] {
      StepKeeps(st, steps[0]);
      InitialStaysFirst(st, steps[0]);
      ContinuesKeep(Apply(st, steps[0]), steps[1..]);
    }
  }

  /** The initial snapshot is still the head of the queue, and its capture has failed. */
  predicate InitialFailed(st: State) {
    && st.queue != [] && st.queue[0].kind.InitialSnapshot? && st.queue[0].capture.Some?
    && Has(st, st.queue[0].capture.value, Failed)
  }

  /** The queue is rejected, or will be as soon as its head runs. */
  predicate Doomed(st: State) {
    && st.stale == [] && QueuedIds(st.events) == []
    && (st.poisoned || (InitialFailed(st) && Known(st, st.queue[0].capture.value)))
  }

  lemma DoomedStays(st: State, step: Step)
    requires Doomed(st) && Enabled(st, step) && !step.Import?
    ensures Doomed(Apply(st, step))
  {
    if step.Overtake? {
      QueuedAppended(st.events, Apply(st, step).events[|st.events|]);
    } else if step.RunHead? {
      DoomedHead(st);
    } else if step.Enqueue? {
      DoomedQueue(st, if step.navigate then Navigate else Action);
    }
  }

  lemma DoomedHead(st: State)
    requires Doomed(st) && Enabled(st, RunHead)
    ensures Doomed(Apply(st, RunHead))
  {
  }

  lemma DoomedQueue(st: State, kind: Kind)
    requires Doomed(st)
    ensures Doomed(OnEnqueue(st, kind))
  {
  }

  lemma {:induction false} DoomedRun(st: State, steps: seq<Step>)
    requires Doomed(st) && Continues(st, steps)
    ensures Doomed(After(st, steps))
    decreases |steps|
  {
    if steps != [] {
      DoomedStays(st, steps[0]);
      DoomedRun(Apply(st, steps[0]), steps[1..]);
    }
  }

  /** The initial snapshot runs in the queue without a guard: once its capture has failed, in whatever run, with
      whatever was offered before, no event of the queue is ever recorded, however the run goes on. (The handler
      that awaits the queue then ends the recording.) */
  lemma InitialFailureSilencesTheQueue(snapshotting: bool, steps: seq<Step>, more: seq<Step>)
    requires Continues(Started(snapshotting), steps) && InitialFailed(After(Started(snapshotting), steps))
    requires Continues(After(Started(snapshotting), steps), more)
    ensures QueuedIds(After(After(Started(snapshotting), steps), more).events) == []
  {
    var st := After(Started(snapshotting), steps);
    ContinuesKeep(Started(snapshotting), steps);
    assert st.queue[0] in st.queue && st.queue[0].id == |st.fates| && st.fates == [];
    assert Known(st, st.queue[0].capture.value);
    DoomedRun(st, more);
  }

  // ---------- importing over a busy recording ----------

  function Leftovers(n: nat): seq<Step> { if n == 0 then [] else [RunStale] + Leftovers(n - 1) }

  predicate LeftoversSettled(st: State) { forall task | task in st.stale :: Settled(st, task) }

  lemma StaleStep(st: State)
    requires OwnCaptures(st.stale) && Enabled(st, RunStale)
    ensures
      var next := OnRunStale(st);
      && OwnCaptures(next.stale) && next.stale == st.stale[1..] && next.captures == st.captures
      && (LeftoversSettled(st) ==> LeftoversSettled(next))
      && forall task :: LinksOne(next, task) == LinksOne(st, task)
  {
    PerformIs(st, st.stale[0]);
    var next := OnRunStale(st);
    if LeftoversSettled(st) {
      forall task | task in next.stale ensures Settled(next, task) {
        assert task in st.stale;
      }
    }
    assert forall i | 0 <= i < |next.stale| :: next.stale[i] == st.stale[i + 1];
  }

  /** An event whose snapshot does not name it stays so: later snapshots are linked to later events. */
  lemma OrphanStays(events: seq<Ev>, shots: seq<Shot>, ev: Ev, number: nat)
    requires Unique(shots) && !EventsNamed(events, shots)
    ensures !EventsNamed(events + [ev], shots)
    ensures !EventsNamed(events + [ev], Link(shots, number, |events|))
  {
    var k :| 0 <= k < |events| && events[k].link.Some? && Shot(events[k].link.value, Some(k)) !in shots;
    LinkedShots(shots, number, |events|);
    assert (events + [ev])[k] == events[k];
    assert Shot(events[k].link.value, Some(k)) !in Link(shots, number, |events|);
  }

  lemma BrokenStep(st: State)
    requires Enabled(st, RunStale) && Unique(st.shots) && !EventsNamed(st.events, st.shots)
    ensures Unique(OnRunStale(st).shots) && !EventsNamed(OnRunStale(st).events, OnRunStale(st).shots)
  {
    var task := st.stale[0];
    var number := if task.capture.Some? then task.capture.value.number else 0;
    PerformIs(st, task);
    OrphanStays(st.events, st.shots, Ev(Queued(task.id), task.capture), number);
    OrphanStays(st.events, st.shots, Ev(Queued(task.id), None), number);
  }

  lemma LeftoversGoOn(st: State)
    requires Enabled(st, RunStale)
    ensures
      var next := OnRunStale(st);
      Continues(next, Leftovers(|next.stale|)) ==>
        && Continues(st, Leftovers(|st.stale|))
        && After(st, Leftovers(|st.stale|)) == After(next, Leftovers(|next.stale|))
  {
    var next := OnRunStale(st);
    assert next.stale == st.stale[1..];
    assert Leftovers(|st.stale|)[0] == RunStale && Leftovers(|st.stale|)[1..] == Leftovers(|next.stale|);
  }

  lemma {:induction false} BrokenRuns(st: State)
    requires LeftoversSettled(st) && OwnCaptures(st.stale) && Unique(st.shots) && !EventsNamed(st.events, st.shots)
    ensures Continues(st, Leftovers(|st.stale|))
    ensures var end := After(st, Leftovers(|st.stale|)); !EventsNamed(end.events, end.shots)
    decreases |st.stale|
  {
    if st.stale != [] {
      BrokenStep(st);
      StaleStep(st);
      LeftoversGoOn(st);
      BrokenRuns(OnRunStale(st));
    }
  }

  predicate AllUnclaimed(st: State, tasks: seq<Task>, shots: seq<Shot>) {
    forall task | task in tasks && LinksOne(st, task) :: Shot(task.capture.value, None) in shots
  }

  predicate HeadFits(st: State)
    requires st.stale != []
  {
    LinksOne(st, st.stale[0]) ==> Shot(st.stale[0].capture.value, None) in st.shots
  }

  lemma HeadKeepsTrueWhen(st: State)
    requires Enabled(st, RunStale) && LinksTrue(st.events, st.shots) && Unique(st.shots)
    ensures
      var next := OnRunStale(st);
      && Unique(next.shots)
      && (if HeadFits(st) then LinksTrue(next.events, next.shots) else !EventsNamed(next.events, next.shots))
  {
    var task := st.stale[0];
    PerformIs(st, task);
    if LinksOne(st, task) {
      LinkKeepsTrueWhen(st.events, st.shots, task.capture.value, Queued(task.id));
    } else {
      UnlinkedLinks(st.events, st.shots, Ev(Queued(task.id), None));
    }
  }

  /** Whether the others find their own snapshots is not changed by the turn of a head that finds its own. */
  lemma OthersUnclaimed(st: State)
    requires OwnCaptures(st.stale) && Enabled(st, RunStale) && Unique(st.shots) && HeadFits(st)
    ensures
      var next := OnRunStale(st);
      AllUnclaimed(next, next.stale, next.shots) <==> AllUnclaimed(st, st.stale[1..], st.shots)
  {
    StaleStep(st);
    PerformIs(st, st.stale[0]);
    var head, next := st.stale[0], OnRunStale(st);
    if LinksOne(st, head) {
      LinkedShots(st.shots, head.capture.value.number, |st.events|);
      forall task | task in st.stale[1..] && LinksOne(st, task)
        ensures Shot(task.capture.value, None) in next.shots <==> Shot(task.capture.value, None) in st.shots
      {
        var i :| 0 <= i < |st.stale[1..]| && st.stale[1..][i] == task;
        assert st.stale[i + 1] == task && st.stale[0].capture != task.capture;
        if Shot(task.capture.value, None) in st.shots {
          ClaimedIsOther(st.shots, Shot(task.capture.value, None), head.capture.value);
        }
      }
    }
  }

  lemma UnclaimedSplits(st: State)
    requires st.stale != []
    ensures AllUnclaimed(st, st.stale, st.shots) <==> HeadFits(st) && AllUnclaimed(st, st.stale[1..], st.shots)
  {
    assert st.stale == [st.stale[0]] + st.stale[1..];
  }

  lemma {:induction false} LeftoversKeepTrueWhen(st: State)
    requires LeftoversSettled(st) && OwnCaptures(st.stale) && LinksTrue(st.events, st.shots) && Unique(st.shots)
    ensures Continues(st, Leftovers(|st.stale|))
    ensures
      var end := After(st, Leftovers(|st.stale|));
      LinksTrue(end.events, end.shots) <==> AllUnclaimed(st, st.stale, st.shots)
    decreases |st.stale|
  {
    if st.stale != [] {
      assert st.stale[0] in st.stale;
      StaleStep(st);
      HeadKeepsTrueWhen(st);
      UnclaimedSplits(st);
      LeftoversGoOn(st);
      if HeadFits(st) {
        OthersUnclaimed(st);
        LeftoversKeepTrueWhen(OnRunStale(st));
      } else {
        BrokenRuns(OnRunStale(st));
      }
    }
  }

  /** Tasks left over from the replaced recording record into the imported one. When all have had their turn, its
      links are true exactly when each capture that a leftover task links is in the imported recording, unclaimed:
      that very capture, and not another document's under the same number. */
  lemma LeftoverTasksBreakLinks(st: State, events: seq<Ev>, shots: seq<Shot>)
    requires Importable(events, shots) && OwnCaptures(Tasks(st))
    requires forall task | task in Tasks(st) :: Settled(st, task)
    ensures
      var busy, turns := OnImport(st, events, shots), Leftovers(|Tasks(st)|);
      && Continues(busy, turns)
      && var end := After(busy, turns);
         LinksTrue(end.events, end.shots) <==> LeftoversFit(st, shots)
  {
    var busy := OnImport(st, events, shots);
    assert forall task :: Settled(busy, task) == Settled(st, task) && LinksOne(busy, task) == LinksOne(st, task);
    LeftoversKeepTrueWhen(busy);
  }

  // ---------- captures that outlive their recording ----------

  lemma {:induction false} RunKeepsNumbers(st: State, steps: seq<Step>)
    requires Numbered(st) && Continues(st, steps)
    ensures Numbered(After(st, steps))
    decreases |steps|
  {
    if steps != [] {
      StepKeepsNumbers(st, steps[0]);
      RunKeepsNumbers(Apply(st, steps[0]), steps[1..]);
    }
  }

  lemma {:induction false} RunKeepsOrder(st: State, steps: seq<Step>)
    requires InOrder(st) && Continues(st, steps)
    ensures InOrder(After(st, steps))
    decreases |steps|
  {
    if steps != [] {
      StepKeepsOrder(st, steps[0]);
      RunKeepsOrder(Apply(st, steps[0]), steps[1..]);
    }
  }

  /** Events that overtake the queue use up the numbers below that of `c`, and that one; then `c` completes. */
  lemma {:induction false} CollisionRun(st: State, c: Key) returns (steps: seq<Step>)
    requires st.snapshotting && Has(st, c, Running) && (c.number >= st.next || Stored(st.shots, c.number))
    ensures Continues(st, steps) && !Unique(After(st, steps).shots)
    decreases c.number - st.next
  {
    if Stored(st.shots, c.number) {
      steps := [Complete(c)];
      CollidesAtOnce(st, c);
    } else {
      var next := OnOvertake(st);
      assert Shot(NewKey(st), Some(|st.events|)) in next.shots;
      assert c.number == st.next ==> Stored(next.shots, c.number);
      var rest := CollisionRun(next, c);
      steps := [Overtake] + rest;
      assert steps[1..] == rest;
    }
  }

  lemma CollidesAtOnce(st: State, c: Key)
    requires Has(st, c, Running) && Stored(st.shots, c.number)
    ensures Continues(st, [Complete(c)]) && !Unique(After(st, [Complete(c)]).shots)
  {
    var next := OnComplete(st, c);
    assert [Complete(c)][1..] == [];
    assert After(st, [Complete(c)]) == next;
    var s :| s in st.shots && s.key.number == c.number;
    var i :| 0 <= i < |st.shots| && st.shots[i] == s;
    assert next.shots[i].key.number == next.shots[|st.shots|].key.number;
  }

  /** Two running captures of one number complete one after the other. */
  lemma TwinRun(st: State, c: Key, d: Key) returns (steps: seq<Step>)
    requires st.snapshotting && Has(st, c, Running) && Has(st, d, Running) && c != d && c.number == d.number
    ensures Continues(st, steps) && !Unique(After(st, steps).shots)
  {
    var next := OnComplete(st, c);
    assert Shot(c, None) in next.shots;
    var rest := CollisionRun(next, d);
    steps := [Complete(c)] + rest;
    assert steps[1..] == rest;
  }

  lemma UnfitRun(st: State, events: seq<Ev>, shots: seq<Shot>) returns (steps: seq<Step>)
    requires st.snapshotting && !RunningFit(st, shots)
    ensures var busy := OnImport(st, events, shots); Continues(busy, steps) && !Unique(After(busy, steps).shots)
  {
    var busy := OnImport(st, events, shots);
    assert forall c: Key :: Has(busy, c, Running) == Has(st, c, Running);
    if c: Key :| Has(st, c, Running) && !(c.number < NextSequence(shots) && !Stored(shots, c.number)) {
      steps := CollisionRun(busy, c);
    } else {
      var c: Key, d: Key :| Has(st, c, Running) && Has(st, d, Running) && c != d && c.number == d.number;
      steps := TwinRun(busy, c, d);
    }
  }

  ghost predicate NumbersStayUnique(st: State) { forall steps | Continues(st, steps) :: Unique(After(st, steps).shots) }

  /** After an import, whatever happens next, no two snapshots ever share a number exactly when the captures still
      running have distinct numbers below the next one to hand out that the imported recording does not hold. */
  lemma RunningCapturesCollideWhen(st: State, events: seq<Ev>, shots: seq<Shot>)
    requires st.snapshotting && Importable(events, shots) && forall c | c in st.captures :: Known(st, c)
    ensures NumbersStayUnique(OnImport(st, events, shots)) <==> RunningFit(st, shots)
  {
    var busy := OnImport(st, events, shots);
    if RunningFit(st, shots) {
      ImportNumbered(st, events, shots);
      forall steps | Continues(busy, steps) ensures Unique(After(busy, steps).shots) {
        RunKeepsNumbers(busy, steps);
      }
    } else {
      var steps := UnfitRun(st, events, shots);
    }
  }

  // ---------- leftovers decided later ----------

  /** Each leftover task has its own capture, begun and not forgotten. */
  predicate LeftoversBegun(st: State) {
    && OwnCaptures(st.stale)
    && forall task | task in st.stale ::
         (task.kind.InitialSnapshot? ==> task.capture.Some?) && (task.capture.Some? ==> task.capture.value in st.captures)
  }

  lemma UnclaimedAfterFailure(st: State, c: Key)
    requires LeftoversBegun(st) && Has(st, c, Running)
    ensures LeftoversBegun(OnFail(st, c))
    ensures AllUnclaimed(OnFail(st, c), st.stale, st.shots) ==> AllUnclaimed(st, st.stale, st.shots)
  {
    assert forall task :: LinksOne(st, task) ==> LinksOne(OnFail(st, c), task);
  }

  lemma StaleBegun(st: State)
    requires LeftoversBegun(st) && Enabled(st, RunStale)
    ensures LeftoversBegun(OnRunStale(st))
  {
    StaleStep(st);
    assert forall task | task in OnRunStale(st).stale :: task in st.stale;
  }

  lemma OneMoreStep(st: State, step: Step, rest: seq<Step>)
    requires Enabled(st, step) && !step.Import? && Continues(Apply(st, step), rest)
    ensures Continues(st, [step] + rest) && After(st, [step] + rest) == After(Apply(st, step), rest)
  {
    assert ([step] + rest)[1..] == rest;
  }

  /** Failing what is undecided and giving every leftover task its turn reaches the one that links a wrong snapshot,
      or none. */
  lemma {:induction false} BreakingRun(st: State) returns (steps: seq<Step>)
    requires LeftoversBegun(st) && LinksTrue(st.events, st.shots) && Unique(st.shots)
    requires !AllUnclaimed(st, st.stale, st.shots)
    ensures Continues(st, steps) && !LinksTrue(After(st, steps).events, After(st, steps).shots)
    decreases |st.stale|, if st.stale != [] && Settled(st, st.stale[0]) then 0 else 1
  {
    var head := st.stale[0];
    assert head in st.stale;
    if !Settled(st, head) {
      var c := head.capture.value;
      UnclaimedAfterFailure(st, c);
      var rest := BreakingRun(OnFail(st, c));
      OneMoreStep(st, Fail(c), rest);
      steps := [Fail(c)] + rest;
    } else {
      HeadKeepsTrueWhen(st);
      if !HeadFits(st) {
        OneMoreStep(st, RunStale, []);
        steps := [RunStale] + [];
      } else {
        UnclaimedSplits(st);
        OthersUnclaimed(st);
        StaleStep(st);
        StaleBegun(st);
        var rest := BreakingRun(OnRunStale(st));
        OneMoreStep(st, RunStale, rest);
        steps := [RunStale] + rest;
      }
    }
  }

  ghost predicate StaysInOrder(st: State) {
    forall steps | Continues(st, steps) ::
      Unique(After(st, steps).shots) && LinksTrue(After(st, steps).events, After(st, steps).shots)
  }

  /** Importing over a recording with tasks waiting and captures running, decided now or later: whatever happens
      next, numbers stay distinct and links true exactly when every running capture fits between the imported
      numbers, and every leftover task that is to link a capture finds that very capture in the import. */
  lemma ImportStaysInOrderWhen(st: State, events: seq<Ev>, shots: seq<Shot>)
    requires st.snapshotting && Importable(events, shots) && Begun(st)
    ensures StaysInOrder(OnImport(st, events, shots)) <==> RunningFit(st, shots) && LeftoversFit(st, shots)
  {
    var busy := OnImport(st, events, shots);
    if !RunningFit(st, shots) {
      var steps := UnfitRun(st, events, shots);
    } else if !LeftoversFit(st, shots) {
      assert forall task :: LinksOne(busy, task) == LinksOne(st, task);
      var steps := BreakingRun(busy);
    } else {
      ImportNumbered(st, events, shots);
      ImportTasked(st, events, shots);
      forall steps | Continues(busy, steps)
        ensures Unique(After(busy, steps).shots) && LinksTrue(After(busy, steps).events, After(busy, steps).shots) {
        RunKeepsOrder(busy, steps);
      }
    }
  }

  /** A snapshot of another document under the number of a leftover capture is claimed for an event it has nothing to
      do with. */
  lemma OtherDocumentsSnapshotIsClaimed(st: State, c: Key, other: Key)
    requires Tasks(st) == [Task(0, Action, Some(c))] && LinksOne(st, Tasks(st)[0])
    requires other != c && other.number == c.number
    ensures
      var busy := OnImport(st, [], [Shot(other, None)]);
      && Importable([], [Shot(other, None)]) && Enabled(busy, RunStale)
      && OnRunStale(busy).events == [Ev(Queued(0), Some(c))] && OnRunStale(busy).shots == [Shot(other, Some(0))]
      && !LinksTrue(OnRunStale(busy).events, OnRunStale(busy).shots)
  {
    var busy := OnImport(st, [], [Shot(other, None)]);
    PerformIs(busy, busy.stale[0]);
    assert [Shot(other, Some(0))][0] in [Shot(other, Some(0))];
  }

  // ---------- the recorder's own form ----------

  lemma LinkFrom(shots: seq<Shot>, i: nat, number: nat, index: nat)
    requires i < |shots|
    ensures shots[..i] + Link(shots[i..], number, index)
            == if shots[i].key.number == number then shots[..i] + [shots[i].(action := Some(index))] + shots[i + 1..]
               else shots[..i + 1] + Link(shots[i + 1..], number, index)
  {
    assert shots[i..][1..] == shots[i + 1..];
    assert shots[..i + 1] == shots[..i] + [shots[i]];
  }

  /** The fields of the recorder that hold events, snapshots and the queue. */
  class EventRecorder {
    const snapshotting: bool
    var events: seq<Ev>
    var shots: seq<Shot>
    var snapshotSequence: nat
    var eventQueue: seq<Task>
    var leftover: seq<Task>
    var poisoned: bool
    /** Which recording this is: the program tells captures apart by reference. */
    var era: nat
    var captures: map<Key, Capture>
    var timedOut: set<Key>
    ghost var fates: seq<Fate>
    ghost var troubled: bool

    ghost function View(): State
      reads this
    {
      State(snapshotting, events, shots, snapshotSequence, era, eventQueue, leftover, poisoned, captures, timedOut, fates,
            troubled)
    }

    constructor (snapshotting: bool)
      ensures View() == Started(snapshotting)
    {
      this.snapshotting := snapshotting;
      events, shots, snapshotSequence, era := [], [], 0, 0;
      eventQueue, leftover, poisoned := [Task(0, InitialSnapshot, None)], [], false;
      captures, timedOut, fates, troubled := map[], {}, [], false;
    }

    method StartCapture(beforeAction: bool) returns (capture: Key)
      modifies this
      ensures View() == BeginCapture(old(View()), beforeAction) && capture == NewKey(old(View()))
    {
      capture := Key(snapshotSequence, era);
      snapshotSequence := snapshotSequence + 1;
      captures := captures[capture := Capture(beforeAction, Running)];
    }

    /** A handler of an event that may wait: its capture starts now, its turn comes later. */
    method EnqueueEvent(navigate: bool, number: nat)
      requires number == Offered(View())
      modifies this
      ensures View() == Apply(old(View()), Enqueue(navigate))
    {
      var kind := if navigate then Navigate else Action;
      var capture: Option<Key> := None;
      if snapshotting {
        var begun := StartCapture(true);
        capture := Some(begun);
      }
      eventQueue := eventQueue + [Task(number, kind, capture)];
    }

    method CompleteCapture(capture: Key)
      requires Enabled(View(), Complete(capture))
      modifies this
      ensures View() == Apply(old(View()), Complete(capture))
    {
      captures := captures[capture := captures[capture].(progress := Done)];
      shots := shots + [Shot(capture, None)];
    }

    /** `linkSnapshotToNextEvent`. */
    method LinkSnapshotToNextEvent(number: nat)
      modifies this`shots
      ensures shots == Link(old(shots), number, |events|)
    {
      var i := 0;
      ghost var was := shots;
      assert was[..0] + Link(was[0..], number, |events|) == Link(was, number, |events|) by {
        assert was[0..] == was;
      }
      while i < |shots|
        invariant i <= |shots| && shots == was
        invariant Link(was, number, |events|) == was[..i] + Link(was[i..], number, |events|)
      {
        LinkFrom(was, i, number, |events|);
        if shots[i].key.number == number {
          shots := shots[..i] + [shots[i].(action := Some(|events|))] + shots[i + 1..];
          return;
        }
        i := i + 1;
      }
      assert was[i..] == [] && was[..i] == was;
    }

    /** The head of the queue takes its turn, its capture decided. */
    method RunTask()
      requires Enabled(View(), RunHead)
      modifies this
      ensures View() == Apply(old(View()), RunHead)
    {
      var task := eventQueue[0];
      ghost var fate := FateOf(View(), task);
      var arrived := task.capture.Some? && task.capture.value in captures
          && captures[task.capture.value].progress == Done
                     && !(task.kind.Navigate? && task.capture.value in timedOut);
      if task.kind.InitialSnapshot? {
        if !arrived {
          poisoned := true;
          troubled := true;
          return;
        }
      } else if task.capture.None? {
        events := events + [Ev(Queued(task.id), None)];
      } else if arrived {
        var linked := captures[task.capture.value].beforeAction;
        if linked {
          LinkSnapshotToNextEvent(task.capture.value.number);
        }
        events := events + [Ev(Queued(task.id), if linked then task.capture else None)];
      } else if task.kind.Navigate? {
        events := events + [Ev(Queued(task.id), None)];
      }
      eventQueue := eventQueue[1..];
      fates := fates + [fate];
    }

    /** A handler of an event that may navigate away: snapshot and event are recorded at once. */
    method RecordEventSync()
      modifies this
      ensures View() == Apply(old(View()), Overtake)
    {
      if snapshotting {
        var capture := Key(snapshotSequence, era);
        shots := shots + [Shot(capture, Some(|events|))];
        events := events + [Ev(Overtaking, Some(capture))];
        snapshotSequence := snapshotSequence + 1;
      } else {
        events := events + [Ev(Overtaking, None)];
      }
    }
  }
}
