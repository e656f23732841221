/**
 One recording moving between tabs (extension/src/background.ts:1035-1090, 1609-1706, 1933-1975 and
 extension/src/content.ts:576-614): checkpoints and handoffs queue up in one chain, a handoff exports the
 owner's recording, imports it elsewhere, commits, and rolls back when a step of the commit fails. The tabs
 go on recording and sending checkpoints all the while.
 */
module RecordingHandoff {
  import opened Wrappers

  type Tab = int

  /** A recording, as the ids of its events. */
  type Recording = seq<int>

  datatype Job = Checkpoint(tab: Tab, recording: Recording) | Handoff(target: Tab)

  datatype Phase =
    | Idle
    | Exported(source: Tab, target: Tab, exported: Recording)
    | Imported(source: Tab, target: Tab, exported: Recording, imported: Recording)

  /** `owner` is the tab of the session in memory, which every handler asks first; `saved` is the tab of the session
      in storage, which only a restarted worker reads. */
  datatype State =
    State(owner: Tab, saved: Tab, store: Recording, recorders: map<Tab, Recording>, queue: seq<Job>, phase: Phase)

  /** How an import ends: with a reply, with a refusal, or with the reply lost. */
  datatype ImportReply = Accepted(navigation: Option<int>) | Refused(discarded: bool) | Lost(applied: bool)

  /** How the writes and messages of a commit, and of its rollback, turn out. The session is put back in memory
      whatever becomes of its write; `ownerRestored` tells whether one of the two writes that follow is stored. */
  datatype Outcome =
    Outcome(storeOk: bool, ownerOk: bool, discardOk: bool, discardApplied: bool,
            storeRestored: bool, ownerRestored: bool, targetDiscarded: bool)

  datatype Step =
    | Record(tab: Tab, event: int)
    | Send(tab: Tab)
    | Request(target: Tab)
    | Serve(urlOk: bool, saveOk: bool)
    | Import(reply: ImportReply)
    | Commit(outcome: Outcome)
    | Save
    | Evict

  predicate Enabled(st: State, step: Step) {
    match step
    case Record(tab, _) => tab in st.recorders
    case Send(tab) => tab in st.recorders
    case Request(_) => true
    case Serve(_, _) => st.phase.Idle? && st.queue != []
    case Import(_) => st.phase.Exported?
    case Commit(_) => st.phase.Imported?
    case Save => st.phase.Idle?
    case Evict => true
  }

  /** The next job of the chain: a checkpoint is stored if the owner sent it; a handoff exports the owner's recording. */
  function OnServe(st: State, urlOk: bool, saveOk: bool): State
    requires st.queue != []
  {
    var rest := st.(queue := st.queue[1..]);
    match st.queue[0]
    case Checkpoint(tab, recording) =>
      if tab == st.owner then rest.(store := recording, saved := if saveOk then st.owner else st.saved) else rest
    case Handoff(target) =>
      if target == st.owner || !urlOk || st.owner !in st.recorders then rest
      else rest.(phase := Exported(st.owner, target, st.recorders[st.owner]))
  }

  function WithNavigation(recording: Recording, navigation: Option<int>): Recording {
    if navigation.Some? then recording + [navigation.value] else recording
  }

  /** The target restores the export and records the tab transition. */
  function OnImport(st: State, reply: ImportReply): State
    requires st.phase.Exported?
  {
    var p := st.phase;
    match reply
    case Accepted(navigation) =>
      var imported := WithNavigation(p.exported, navigation);
      st.(recorders := st.recorders[p.target := imported], phase := Imported(p.source, p.target, p.exported, imported))
    case Refused(discarded) =>
      st.(recorders := if discarded then st.recorders - {p.target} else st.recorders, phase := Idle)
    case Lost(applied) =>
      st.(recorders := if applied then st.recorders[p.target := p.exported] else st.recorders, phase := Idle)
  }

  predicate Succeeds(o: Outcome) { o.storeOk && o.ownerOk && o.discardOk }

  function OnCommit(st: State, o: Outcome): State
    requires st.phase.Imported?
  {
    var p := st.phase;
    if Succeeds(o) then
      st.(store := p.imported, owner := p.target, saved := p.target, recorders := st.recorders - {p.source}, phase := Idle)
    else
      var store := if o.storeOk then p.imported else st.store;
      var saved := if o.storeOk && o.ownerOk then p.target else st.saved;
      var left := if o.storeOk && o.ownerOk && o.discardApplied then st.recorders - {p.source} else st.recorders;
      st.(store := if o.storeRestored then p.exported else store,
          owner := p.source,
          saved := if o.ownerRestored then p.source else saved,
          recorders := if o.targetDiscarded then left - {p.target} else left,
          phase := Idle)
  }

  /** The worker dies between two of its steps: what it held in memory is gone, a handoff under way included, and
      the next message finds the saved session. */
  function OnEvict(st: State): State { st.(owner := st.saved, queue := [], phase := Idle) }

  function Apply(st: State, step: Step): State
    requires Enabled(st, step)
  {
    match step
    case Record(tab, event) => st.(recorders := st.recorders[tab := st.recorders[tab] + [event]])
    case Send(tab) => st.(queue := st.queue + [Checkpoint(tab, st.recorders[tab])])
    case Request(target) => st.(queue := st.queue + [Handoff(target)])
    case Serve(urlOk, saveOk) => OnServe(st, urlOk, saveOk)
    case Import(reply) => OnImport(st, reply)
    case Commit(outcome) => OnCommit(st, outcome)
    case Save => st.(saved := st.owner)
    case Evict => OnEvict(st)
  }

  /** A recording just started in one tab. */
  function Started(tab: Tab): State { State(tab, tab, [], map[tab := []], [], Idle) }

  // ---------- what a tab has in flight ----------

  /** The checkpoints of one tab that still wait, oldest first. */
  function Waiting(queue: seq<Job>, tab: Tab): seq<Recording> {
    if queue == [] then []
    else
      (if queue[0].Checkpoint? && queue[0].tab == tab then [queue[0].recording] else []) + Waiting(queue[1..], tab)
  }

  /** `from`, then each of `list`, then `to`: every one a prefix of the next. */
  predicate Growing(from: Recording, list: seq<Recording>, to: Option<Recording>)
    decreases |list|
  {
    if list == [] then to.Some? ==> from <= to.value
    else from <= list[0] && Growing(list[0], list[1..], to)
  }

  function Current(st: State, tab: Tab): Option<Recording> {
    if tab in st.recorders then Some(st.recorders[tab]) else None
  }

  /** What an owner will still send extends what is stored. */
  predicate OwnerGrows(st: State) { Growing(st.store, Waiting(st.queue, st.owner), Current(st, st.owner)) }

  /** A run that is possible, and every commit and eviction of which leaves an owner whose checkpoints extend the
      store. */
  predicate Careful(st: State, steps: seq<Step>)
    decreases |steps|
  {
    steps == [] ||
    (&& Enabled(st, steps[0])
     && (steps[0].Commit? || steps[0].Evict? ==> OwnerGrows(Apply(st, steps[0])))
     && Careful(Apply(st, steps[0]), steps[1..]))
  }

  predicate Possible(st: State, steps: seq<Step>)
    decreases |steps|
  {
    steps == [] || (Enabled(st, steps[0]) && Possible(Apply(st, steps[0]), steps[1..]))
  }

  function Run(st: State, steps: seq<Step>): State
    requires Possible(st, steps)
    decreases |steps|
  {
    if steps == [] then st else Run(Apply(st, steps[0]), steps[1..])
  }

  lemma {:induction false} CarefulIsPossible(st: State, steps: seq<Step>)
    requires Careful(st, steps)
    ensures Possible(st, steps)
    decreases |steps|
  {
    if steps != [] {
      CarefulIsPossible(Apply(st, steps[0]), steps[1..]);
    }
  }

  /** The store grows at every step of the run. */
  predicate Monotone(st: State, steps: seq<Step>)
    requires Possible(st, steps)
    decreases |steps|
  {
    steps == [] || (st.store <= Apply(st, steps[0]).store && Monotone(Apply(st, steps[0]), steps[1..]))
  }

  // ---------- the invariant ----------

  /** The owner extends what is stored; during a handoff the export does too, and the source has only added to it. */
  predicate Inv(st: State) {
    && OwnerGrows(st)
    && match st.phase
       case Idle => true
       case Exported(source, target, exported) => Handing(st, source, target, exported)
       case Imported(source, target, exported, imported) =>
         Handing(st, source, target, exported) && exported <= imported
  }

  predicate Handing(st: State, source: Tab, target: Tab, exported: Recording) {
    && st.owner == source && source != target && st.store <= exported
    && source in st.recorders && exported <= st.recorders[source]
  }

  lemma {:induction false} WaitingAppended(queue: seq<Job>, job: Job, tab: Tab)
    ensures Waiting(queue + [job], tab)
            == Waiting(queue, tab) + if job.Checkpoint? && job.tab == tab then [job.recording] else []
  {
    if queue == [] {
      assert queue + [job] == [job];
    } else {
      assert (queue + [job])[1..] == queue[1..] + [job];
      WaitingAppended(queue[1..], job, tab);
    }
  }

  lemma {:induction false} GrowingToMore(from: Recording, list: seq<Recording>, to: Recording, more: Recording)
    requires to <= more && Growing(from, list, Some(to))
    ensures Growing(from, list, Some(more))
    decreases |list|
  {
    if list != [] {
      GrowingToMore(list[0], list[1..], to, more);
    }
  }

  lemma {:induction false} GrowingEnds(from: Recording, list: seq<Recording>, to: Recording)
    requires Growing(from, list, Some(to))
    ensures from <= to && forall r | r in list :: from <= r <= to
    decreases |list|
  {
    if list != [] {
      GrowingEnds(list[0], list[1..], to);
      forall r | r in list ensures from <= r <= to {
        assert r == list[0] || r in list[1..];
      }
    }
  }

  /** A chain can be entered from any prefix of all its members. */
  lemma GrowingFrom(start: Recording, from: Recording, list: seq<Recording>, to: Recording, end: Option<Recording>)
    requires Growing(start, list, Some(to)) && end in {None, Some(to)}
    ensures Growing(from, list, end) <==> (forall r | r in list :: from <= r) && (end.Some? ==> from <= to)
  {
    GrowingEnds(start, list, to);
    if list != [] {
      GrowingEnds(list[0], list[1..], to);
      GrowingToNone(list[0], list[1..], Some(to));
      assert list[0] in list;
      forall r | r in list && from <= list[0] ensures from <= r {
        assert r == list[0] || r in list[1..];
      }
      assert Growing(list[0], list[1..], end);
      assert from <= list[0] ==> from <= to;
    }
  }

  lemma {:induction false} GrowingToNone(from: Recording, list: seq<Recording>, to: Option<Recording>)
    requires Growing(from, list, to)
    ensures Growing(from, list, None)
    decreases |list|
  {
    if list != [] {
      GrowingToNone(list[0], list[1..], to);
    }
  }

  lemma {:induction false} GrowingSent(from: Recording, list: seq<Recording>, to: Recording)
    requires Growing(from, list, Some(to))
    ensures Growing(from, list + [to], Some(to))
    decreases |list|
  {
    if list == [] {
      assert [] + [to] == [to] && Growing(to, [], Some(to));
    } else {
      GrowingSent(list[0], list[1..], to);
      assert (list + [to])[1..] == list[1..] + [to];
    }
  }

  /** A tab records or sends: whatever it was growing from, it still is. */
  lemma TabGrows(st: State, step: Step, tab: Tab, from: Recording)
    requires Enabled(st, step) && (step.Record? || step.Send? || step.Request?)
    requires Growing(from, Waiting(st.queue, tab), Current(st, tab))
    ensures Growing(from, Waiting(Apply(st, step).queue, tab), Current(Apply(st, step), tab))
  {
    match step
    case Record(t, event) =>
      var next := Apply(st, step);
      assert next.queue == st.queue;
      if t == tab {
        GrowingToMore(from, Waiting(st.queue, tab), st.recorders[tab], st.recorders[tab] + [event]);
        assert Current(next, tab) == Some(st.recorders[tab] + [event]);
      } else {
        assert Current(next, tab) == Current(st, tab);
      }
    case Send(t) =>
      WaitingAppended(st.queue, Checkpoint(t, st.recorders[t]), tab);
      if t == tab {
        GrowingSent(from, Waiting(st.queue, tab), st.recorders[tab]);
      } else {
        assert Waiting(Apply(st, step).queue, tab) == Waiting(st.queue, tab);
      }
    case Request(target) =>
      WaitingAppended(st.queue, Handoff(target), tab);
      assert Waiting(Apply(st, step).queue, tab) == Waiting(st.queue, tab);
    case _ =>
  }

  lemma ServeKeeps(st: State, urlOk: bool, saveOk: bool)
    requires Inv(st) && Enabled(st, Serve(urlOk, saveOk))
    ensures Inv(OnServe(st, urlOk, saveOk)) && st.store <= OnServe(st, urlOk, saveOk).store
  {
    var rest := Waiting(st.queue[1..], st.owner);
    if st.queue[0].Checkpoint? && st.queue[0].tab == st.owner {
      assert ([st.queue[0].recording] + rest)[1..] == rest;
    } else {
      assert Waiting(st.queue, st.owner) == rest;
      if st.owner in st.recorders {
        GrowingEnds(st.store, rest, st.recorders[st.owner]);
      }
    }
  }

  lemma ImportKeeps(st: State, reply: ImportReply)
    requires Inv(st) && Enabled(st, Import(reply))
    ensures Inv(OnImport(st, reply)) && st.store <= OnImport(st, reply).store
  {
    assert Current(OnImport(st, reply), st.owner) == Current(st, st.owner);
  }

  lemma CommitExtends(st: State, o: Outcome)
    requires Inv(st) && Enabled(st, Commit(o))
    ensures st.store <= OnCommit(st, o).store
    ensures Inv(OnCommit(st, o)) <==> OwnerGrows(OnCommit(st, o))
  {
  }

  lemma StepKeeps(st: State, step: Step)
    requires Inv(st) && Enabled(st, step) && (step.Commit? || step.Evict? ==> OwnerGrows(Apply(st, step)))
    ensures Inv(Apply(st, step)) && st.store <= Apply(st, step).store
  {
    match step
    case Serve(urlOk, saveOk) => ServeKeeps(st, urlOk, saveOk);
    case Import(reply) => ImportKeeps(st, reply);
    case Commit(outcome) => CommitExtends(st, outcome);
    case Save =>
    case Evict =>
    case _ => TabGrows(st, step, st.owner, st.store);
  }

  /** Over any chain of checkpoints and handoffs, successful or not, with lost replies too, the stored event list
      only ever grows at its end, as long as each commit and eviction leaves an owner that extends what is then
      stored. */
  lemma {:induction false} StoreOnlyGrows(st: State, steps: seq<Step>)
    requires Inv(st) && Careful(st, steps)
    ensures Possible(st, steps) && Inv(Run(st, steps)) && Monotone(st, steps) && st.store <= Run(st, steps).store
    decreases |steps|
  {
    CarefulIsPossible(st, steps);
    if steps != [] {
      StepKeeps(st, steps[0]);
      StoreOnlyGrows(Apply(st, steps[0]), steps[1..]);
    }
  }

  // ---------- and when it does not ----------

  ghost predicate GrowsOn(st: State) {
    forall steps | Careful(st, steps) :: (CarefulIsPossible(st, steps); Monotone(st, steps))
  }

  lemma OneMoreServed(st: State, rest: seq<Step>)
    requires st.phase.Idle? && st.queue != []
    requires Careful(OnServe(st, false, true), rest) && Possible(OnServe(st, false, true), rest)
    ensures Careful(st, [Serve(false, true)] + rest) && Possible(st, [Serve(false, true)] + rest)
    ensures Monotone(st, [Serve(false, true)] + rest)
            <==> st.store <= OnServe(st, false, true).store && Monotone(OnServe(st, false, true), rest)
  {
    assert ([Serve(false, true)] + rest)[1..] == rest;
  }

  lemma SentAtOnce(st: State)
    requires st.phase.Idle? && st.queue == [] && st.owner in st.recorders && !(st.store <= st.recorders[st.owner])
    ensures
      var steps := [Send(st.owner), Serve(false, true)];
      Careful(st, steps) && Possible(st, steps) && !Monotone(st, steps)
  {
    var steps := [Send(st.owner), Serve(false, true)];
    var sent := Apply(st, steps[0]);
    assert sent.queue == [Checkpoint(st.owner, st.recorders[st.owner])];
    assert steps[1..] == [Serve(false, true)] && steps[1..][1..] == [];
  }

  lemma ServedHead(st: State)
    requires st.queue != []
    ensures
      var job := st.queue[0];
      OwnerGrows(st) <==> && OwnerGrows(OnServe(st, false, true))
                          && (job.Checkpoint? && job.tab == st.owner ==> st.store <= job.recording)
  {
    var job, rest := st.queue[0], Waiting(st.queue[1..], st.owner);
    assert Current(OnServe(st, false, true), st.owner) == Current(st, st.owner);
    if job.Checkpoint? && job.tab == st.owner {
      assert Waiting(st.queue, st.owner) == [job.recording] + rest;
      assert ([job.recording] + rest)[1..] == rest;
    } else {
      assert Waiting(st.queue, st.owner) == rest;
    }
  }

  /** Without another handoff: serving what waits, and then the owner's own checkpoint, shrinks the store. */
  lemma {:induction false} ServingShrinks(st: State) returns (steps: seq<Step>)
    requires st.phase.Idle? && !OwnerGrows(st)
    ensures Careful(st, steps) && Possible(st, steps) && !Monotone(st, steps)
    decreases |st.queue|
  {
    if st.queue == [] {
      SentAtOnce(st);
      steps := [Send(st.owner), Serve(false, true)];
    } else {
      var next := OnServe(st, false, true);
      var waits := st.queue[0].Checkpoint? && st.queue[0].tab == st.owner;
      ServedHead(st);
      if waits && !(st.store <= st.queue[0].recording) {
        OneMoreServed(st, []);
        steps := [Serve(false, true)] + [];
      } else {
        assert !OwnerGrows(next);
        var more := ServingShrinks(next);
        OneMoreServed(st, more);
        steps := [Serve(false, true)] + more;
      }
    }
  }

  /** Between handoffs the store grows on, whatever is recorded, sent, served and carefully handed over later,
      exactly when the owner's checkpoints, and its recording after them, extend it one by one. */
  lemma GrowsOnWhen(st: State)
    requires st.phase.Idle?
    ensures GrowsOn(st) <==> OwnerGrows(st)
  {
    if OwnerGrows(st) {
      forall steps | Careful(st, steps) ensures (CarefulIsPossible(st, steps); Monotone(st, steps)) {
        StoreOnlyGrows(st, steps);
      }
    } else {
      var steps := ServingShrinks(st);
    }
  }

  /** After any commit, successful or not, the store grows on exactly when whatever waits from the tab that is the
      owner then, and its recording, extend what the commit left in the store. */
  lemma CommitGrowsWhen(st: State, o: Outcome)
    requires Inv(st) && Enabled(st, Commit(o))
    ensures
      var next := OnCommit(st, o);
      && st.store <= next.store
      && (GrowsOn(next) <==> Growing(next.store, Waiting(st.queue, next.owner), Current(next, next.owner)))
  {
    CommitExtends(st, o);
    GrowsOnWhen(OnCommit(st, o));
  }

  /** The store that a commit without success leaves, and the owner. */
  function LeftInStore(st: State, o: Outcome): Recording
    requires st.phase.Imported?
  {
    if o.storeRestored then st.phase.exported else if o.storeOk then st.phase.imported else st.store
  }

  predicate SourceStops(o: Outcome) { o.storeOk && o.ownerOk && o.discardApplied }

  /** Without success the source is the owner again, and the store grows on exactly when every checkpoint of the
      source that waits, and its recording unless it has stopped, extends what was left in the store. */
  lemma RollbackGrowsWhen(st: State, o: Outcome)
    requires Inv(st) && Enabled(st, Commit(o)) && !Succeeds(o)
    ensures
      var source, store := st.phase.source, LeftInStore(st, o);
      GrowsOn(OnCommit(st, o))
      <==> && (forall r | r in Waiting(st.queue, source) :: store <= r)
           && (!SourceStops(o) ==> store <= st.recorders[source])
  {
    var p, next := st.phase, OnCommit(st, o);
    CommitGrowsWhen(st, o);
    GrowingFrom(st.store, next.store, Waiting(st.queue, p.source), st.recorders[p.source], Current(next, p.source));
  }

  /** After a rollback that restores the export the store shrinks later exactly when some checkpoint of the source,
      still waiting, is shorter than the export: it was sent before the export and overtaken by it. */
  lemma RestoredShrinksWhen(st: State, o: Outcome)
    requires Inv(st) && Enabled(st, Commit(o)) && !Succeeds(o) && o.storeRestored
    ensures
      !GrowsOn(OnCommit(st, o)) <==> exists r | r in Waiting(st.queue, st.phase.source) :: |r| < |st.phase.exported|
  {
    var p := st.phase;
    RollbackGrowsWhen(st, o);
    GrowingEnds(st.store, Waiting(st.queue, p.source), st.recorders[p.source]);
    forall r | r in Waiting(st.queue, p.source) ensures p.exported <= r <==> |p.exported| <= |r| {
      PrefixByLength(p.exported, r, st.recorders[p.source]);
    }
  }

  lemma PrefixByLength(a: Recording, b: Recording, whole: Recording)
    requires a <= whole && b <= whole
    ensures a <= b <==> |a| <= |b|
  {
    if |a| <= |b| {
      assert a == whole[..|a|] && b == whole[..|b|] && a == b[..|a|];
    }
  }

  /** A checkpoint of any other tab changes nothing but the queue; the owner's replaces the store, and by the
      invariant that extends it. */
  lemma OnlyTheOwnerStores(st: State, urlOk: bool, saveOk: bool)
    requires Inv(st) && Enabled(st, Serve(urlOk, saveOk)) && st.queue[0].Checkpoint?
    ensures
      var next, accepted := OnServe(st, urlOk, saveOk), st.queue[0].tab == st.owner;
      next == st.(queue := st.queue[1..],
                  store := if accepted then st.queue[0].recording else st.store,
                  saved := if accepted && saveOk then st.owner else st.saved)
    ensures st.store <= OnServe(st, urlOk, saveOk).store
  {
  }

  /** It happens: a handoff asked for before a checkpoint is sent exports more than the checkpoint holds, and after
      the rollback the checkpoint shortens the store. */
  lemma OvertakenCheckpointShrinks(st: State, target: Tab, early: Recording, event: int)
    requires st.phase.Idle? && st.owner in st.recorders && target != st.owner
    requires st.queue == [Handoff(target), Checkpoint(st.owner, early)]
    requires st.recorders[st.owner] == early + [event]
    ensures
      var rollback := Outcome(true, true, false, false, true, true, true);
      var steps := [Serve(true, true), Import(Accepted(None)), Commit(rollback)];
      && Possible(st, steps + [Serve(true, true)])
      && Possible(st, steps) && Run(st, steps).store == early + [event]
      && Run(st, steps + [Serve(true, true)]).store == early
  {
    var rollback := Outcome(true, true, false, false, true, true, true);
    var s1, s2, s3 := Serve(true, true), Import(Accepted(None)), Commit(rollback);
    var a := Apply(st, s1);
    var b := Apply(a, s2);
    var c := Apply(b, s3);
    assert [s1, s2, s3][1..] == [s2, s3] && [s2, s3][1..] == [s3] && [s3][1..] == [];
    assert [s1, s2, s3] + [s1] == [s1, s2, s3, s1];
    assert [s1, s2, s3, s1][1..] == [s2, s3, s1] && [s2, s3, s1][1..] == [s3, s1] && [s3, s1][1..] == [s1]
        && [s1][1..] == [];
    assert Run(c, [s1]) == Apply(c, s1);
    assert Run(b, [s3, s1]) == Run(c, [s1]) && Run(b, [s3]) == c;
    assert Run(a, [s2, s3, s1]) == Run(b, [s3, s1]) && Run(a, [s2, s3]) == c;
  }

  // ---------- one owner, one recorder ----------

  /** No applied import goes unheard, a commit ends in success or with the source not stopped and the target
      discarded, and an eviction finds no import waiting for its commit, and the owner saved. */
  predicate Heard(st: State, step: Step) {
    match step
    case Import(reply) => reply.Lost? ==> !reply.applied
    case Commit(o) => Succeeds(o) || (!SourceStops(o) && o.targetDiscarded)
    case Evict => !st.phase.Imported? && st.saved == st.owner
    case _ => true
  }

  predicate AllHeard(st: State, steps: seq<Step>)
    requires Possible(st, steps)
    decreases |steps|
  {
    steps == [] || (Heard(st, steps[0]) && AllHeard(Apply(st, steps[0]), steps[1..]))
  }

  /** Exactly the tabs that should be recording are. */
  predicate OneRecorder(st: State) {
    match st.phase
    case Idle => st.recorders.Keys == {st.owner}
    case Exported(source, target, _) => st.owner == source && source != target && st.recorders.Keys == {source}
    case Imported(source, target, _, _) =>
      st.owner == source && source != target && st.recorders.Keys == {source, target}
  }

  lemma StepLeavesOne(st: State, step: Step)
    requires OneRecorder(st) && Enabled(st, step)
    ensures OneRecorder(Apply(st, step)) <==> Heard(st, step)
  {
    match step
    case Import(reply) => ImportLeavesOne(st, reply);
    case Commit(outcome) => CommitLeavesOneWhen(st, outcome);
    case Evict => EvictionLeavesOne(st);
    case _ => assert Apply(st, step).recorders.Keys == st.recorders.Keys;
  }

  lemma ImportLeavesOne(st: State, reply: ImportReply)
    requires OneRecorder(st) && Enabled(st, Import(reply))
    ensures OneRecorder(OnImport(st, reply)) <==> !(reply.Lost? && reply.applied)
  {
    var keys := OnImport(st, reply).recorders.Keys;
    assert st.phase.target in keys <==> reply.Accepted? || (reply.Lost? && reply.applied);
    assert forall tab :: tab in keys ==> tab == st.phase.source || tab == st.phase.target;
  }

  lemma EvictionLeavesOne(st: State)
    requires OneRecorder(st)
    ensures OneRecorder(OnEvict(st)) <==> Heard(st, Evict)
  {
    if st.phase.Imported? {
      assert st.phase.source in st.recorders && st.phase.target in st.recorders;
    } else {
      assert st.owner in st.recorders;
    }
  }

  lemma RecordersAfterCommit(st: State, o: Outcome)
    requires OneRecorder(st) && Enabled(st, Commit(o))
    ensures
      var p, keys := st.phase, OnCommit(st, o).recorders.Keys;
      && keys <= {p.source, p.target}
      && (p.source in keys <==> !Succeeds(o) && !SourceStops(o))
      && (p.target in keys <==> Succeeds(o) || !o.targetDiscarded)
  {
  }

  /** A commit ends with one owner, recording alone, exactly when it succeeds, or when the source was not stopped
      while the target was discarded. On success the owner is the target, with the import stored; without, it is the
      source, whatever became of the writes. */
  lemma CommitLeavesOneWhen(st: State, o: Outcome)
    requires OneRecorder(st) && Enabled(st, Commit(o))
    ensures
      var p, next := st.phase, OnCommit(st, o);
      && (OneRecorder(next) <==> Succeeds(o) || (!SourceStops(o) && o.targetDiscarded))
      && (Succeeds(o) ==> next.owner == p.target && next.store == p.imported)
      && (!Succeeds(o) ==> next.owner == p.source)
      && (p.source in next.recorders ==> next.recorders[p.source] == st.recorders[p.source])
  {
    RecordersAfterCommit(st, o);
  }

  /** The saved session has not been put back: an eviction will hand the recording to the target after all. */
  predicate TargetStaysSaved(o: Outcome) { o.storeOk && o.ownerOk && !o.ownerRestored }

  /** When the worker is evicted after a commit without success, the owner is the source as before, unless the
      target's session was saved and neither write that follows was stored; and one owner records alone then exactly
      when that tab was neither stopped nor discarded and the other one was. */
  lemma EvictionAfterRollback(st: State, o: Outcome)
    requires OneRecorder(st) && Enabled(st, Commit(o)) && !Succeeds(o) && st.saved == st.owner
    ensures
      var p, next := st.phase, OnEvict(OnCommit(st, o));
      && next.owner == (if TargetStaysSaved(o) then p.target else p.source)
      && (OneRecorder(next) <==> if TargetStaysSaved(o) then SourceStops(o) && !o.targetDiscarded
                                 else !SourceStops(o) && o.targetDiscarded)
  {
    RecordersAfterCommit(st, o);
  }

  /** One owner, recording alone, after every step. */
  predicate OneThroughout(st: State, steps: seq<Step>)
    requires Possible(st, steps)
    decreases |steps|
  {
    steps == [] || (OneRecorder(Apply(st, steps[0])) && OneThroughout(Apply(st, steps[0]), steps[1..]))
  }

  /** Over every run, evictions included, there is one owner, recording alone, at each step, exactly when every step
      is heard. */
  lemma {:induction false} OneOwnerOneRecorder(st: State, steps: seq<Step>)
    requires OneRecorder(st) && Possible(st, steps)
    ensures OneThroughout(st, steps) <==> AllHeard(st, steps)
    decreases |steps|
  {
    if steps != [] {
      StepLeavesOne(st, steps[0]);
      if Heard(st, steps[0]) {
        OneOwnerOneRecorder(Apply(st, steps[0]), steps[1..]);
      }
    }
  }

  /** After a commit without success nobody records exactly when the discard of the source was applied though its
      reply was lost, and the target was discarded too; both record exactly when neither was. */
  lemma RollbackLeavesNoneOrBoth(st: State, o: Outcome)
    requires OneRecorder(st) && Enabled(st, Commit(o)) && !Succeeds(o)
    ensures
      var p, keys := st.phase, OnCommit(st, o).recorders.Keys;
      && (keys == {} <==> SourceStops(o) && o.targetDiscarded)
      && (keys == {p.source, p.target} <==> !SourceStops(o) && !o.targetDiscarded)
  {
    RecordersAfterCommit(st, o);
  }

  /** What the source recorded after its export is lost on success, and on success only. */
  lemma LateEventsAreLostOnSuccess(st: State, o: Outcome)
    requires OneRecorder(st) && Inv(st) && Enabled(st, Commit(o))
    requires forall event | event in st.phase.imported[|st.phase.exported|..] :: event !in st.recorders[st.phase.source]
    ensures
      var p, next := st.phase, OnCommit(st, o);
      && (Succeeds(o) ==> (st.recorders[p.source] <= next.store <==> st.recorders[p.source] == p.exported))
      && (!Succeeds(o) && !SourceStops(o) ==>
            p.source in next.recorders && next.recorders[p.source] == st.recorders[p.source])
  {
    var p := st.phase;
    var had := st.recorders[p.source];
    RecordersAfterCommit(st, o);
    if |had| > |p.exported| && |p.imported| > |p.exported| {
      var event := p.imported[|p.exported|];
      assert event in p.imported[|p.exported|..] && had[|p.exported|] in had;
      assert had[|p.exported|] != p.imported[|p.exported|];
    }
  }

  // ---------- what a handoff carries over ----------

  /** The events that an import reports. */
  function Reported(navigation: Option<int>): Recording {
    match navigation
    case None => []
    case Some(event) => [event]
  }

  /** Checkpoints and requests wait at the end of the chain; a restarted worker knows the saved session and none of what
      waited; saving puts the session in memory into storage. */
  lemma ChainAnswers(st: State, step: Step)
    requires Enabled(st, step) && (step.Send? || step.Request? || step.Evict? || step.Save?)
    ensures
      var next := Apply(st, step);
      match step
      case Send(tab) => next == st.(queue := st.queue + [Checkpoint(tab, st.recorders[tab])])
      case Request(target) => next == st.(queue := st.queue + [Handoff(target)])
      case Evict => next == State(st.saved, st.saved, st.store, st.recorders, [], Idle)
      case _ => next == st.(saved := st.owner)
  {
  }

  /** A handoff is served exactly when its target is another tab, its page is acceptable and the owner records; then
      the owner's recording is exported as it stands, and nothing else changes. */
  lemma HandoffStartsWhen(st: State, urlOk: bool, saveOk: bool)
    requires Enabled(st, Serve(urlOk, saveOk)) && st.queue[0].Handoff?
    ensures
      var next, target := Apply(st, Serve(urlOk, saveOk)), st.queue[0].target;
      if target != st.owner && urlOk && st.owner in st.recorders
      then next == st.(queue := st.queue[1..], phase := Exported(st.owner, target, st.recorders[st.owner]))
      else next == st.(queue := st.queue[1..])
  {
  }

  /** After an accepted import the target records the export followed by the navigation it reported, if any, and this
      is what waits for the commit. A refused or unheard import ends the handoff and adds no event: the target has at
      most the export. */
  lemma ImportAnswers(st: State, reply: ImportReply)
    requires Enabled(st, Import(reply))
    ensures
      var p, next := st.phase, Apply(st, Import(reply));
      match reply
      case Accepted(navigation) =>
        var moved := p.exported + Reported(navigation);
        next == st.(recorders := st.recorders[p.target := moved], phase := Imported(p.source, p.target, p.exported, moved))
      case Refused(discarded) =>
        && next == st.(recorders := next.recorders, phase := Idle)
        && next.recorders == if discarded then st.recorders - {p.target} else st.recorders
      case Lost(applied) =>
        && next == st.(recorders := next.recorders, phase := Idle)
        && next.recorders == if applied then st.recorders[p.target := p.exported] else st.recorders
  {
    assert forall r: Recording :: r + [] == r;
  }

  /** The tabs go on while the handoff waits for its target: nothing but recording and sending. */
  predicate TabSteps(steps: seq<Step>) { forall s | s in steps :: s.Record? || s.Send? || s.Request? }

  lemma {:induction false} TabStepsKeep(st: State, steps: seq<Step>)
    requires Possible(st, steps) && TabSteps(steps)
    ensures Run(st, steps).phase == st.phase && Run(st, steps).owner == st.owner && Run(st, steps).store == st.store
    decreases |steps|
  {
    if steps != [] {
      assert steps[0] in steps && TabSteps(steps[1..]);
      TabStepsKeep(Apply(st, steps[0]), steps[1..]);
    }
  }

  lemma {:induction false} RunConcat(st: State, first: seq<Step>, second: seq<Step>)
    requires Possible(st, first + second)
    ensures Possible(st, first) && Possible(Run(st, first), second)
    ensures Run(st, first + second) == Run(Run(st, first), second)
    decreases |first|
  {
    if first == [] {
      assert first + second == second;
    } else {
      assert (first + second)[1..] == first[1..] + second;
      RunConcat(Apply(st, first[0]), first[1..], second);
    }
  }

  lemma OneStep(st: State, step: Step, rest: seq<Step>)
    requires Possible(st, [step] + rest)
    ensures Enabled(st, step) && Possible(Apply(st, step), rest)
    ensures Run(st, [step] + rest) == Run(Apply(st, step), rest)
  {
    assert ([step] + rest)[1..] == rest;
  }

  /** Over a whole handoff, whatever the tabs record and send in between: when its commit succeeds the target owns the
      recording, and the store is what the source had recorded when the handoff was served, followed by the navigation
      that the import reported. */
  lemma HandoffMovesTheRecording(st: State, saveOk: bool, before: seq<Step>, navigation: Option<int>, after: seq<Step>,
      o: Outcome)
    requires st.phase.Idle? && st.queue != [] && st.queue[0].Handoff?
    requires TabSteps(before) && TabSteps(after) && o.storeOk && o.ownerOk && o.discardOk
    requires
      var steps := [Serve(true, saveOk)] + (before + ([Import(Accepted(navigation))] + (after + ([Commit(o)] + []))));
      Possible(st, steps)
    ensures st.owner in st.recorders && st.queue[0].target != st.owner
    ensures
      var steps := [Serve(true, saveOk)] + (before + ([Import(Accepted(navigation))] + (after + ([Commit(o)] + []))));
      var end := Run(st, steps);
      && end.owner == st.queue[0].target && end.saved == st.queue[0].target && end.phase == Idle
      && end.store == st.recorders[st.owner] + Reported(navigation)
      && st.owner !in end.recorders
  {
    var third := [Commit(o)] + [];
    var second := [Import(Accepted(navigation))] + (after + third);
    OneStep(st, Serve(true, saveOk), before + second);
    var served := Apply(st, Serve(true, saveOk));
    HandoffStartsWhen(st, true, saveOk);
    RunConcat(served, before, second);
    TabStepsKeep(served, before);
    var ready := Run(served, before);
    OneStep(ready, Import(Accepted(navigation)), after + third);
    ImportAnswers(ready, Accepted(navigation));
    var imported := Apply(ready, Import(Accepted(navigation)));
    RunConcat(imported, after, third);
    TabStepsKeep(imported, after);
    OneStep(Run(imported, after), Commit(o), []);
  }

  // ---------- the worker's own form ----------

  /** The parts of the worker that a handoff changes. */
  class Coordinator {
    var owner: Tab
    var saved: Tab
    var store: Recording
    var queue: seq<Job>
    var phase: Phase
    var recorders: map<Tab, Recording>

    function View(): State
      reads this
    {
      State(owner, saved, store, recorders, queue, phase)
    }

    constructor (tab: Tab)
      ensures View() == Started(tab)
    {
      owner, saved, store, queue, phase, recorders := tab, tab, [], [], Idle, map[tab := []];
    }

    /** `serializeStateMutation`: the job waits for those before it. */
    method Enqueue(job: Job)
      modifies this`queue
      ensures queue == old(queue) + [job]
    {
      queue := queue + [job];
    }

    /** `saveActiveRecording`: memory first, then the write. */
    method SaveActiveRecording(session: Tab, stored: bool)
      modifies this`owner, this`saved
      ensures owner == session && saved == if stored then session else old(saved)
    {
      owner := session;
      if stored {
        saved := session;
      }
    }

    /** The worker restarts and reads the session back. */
    method LoadActiveRecording()
      modifies this`owner, this`queue, this`phase
      ensures View() == OnEvict(old(View()))
    {
      owner, queue, phase := saved, [], Idle;
    }

    /** The next job of the chain: RECORDING_CHECKPOINT, or the first half of `transferActiveRecording`. */
    method ServeNext(urlOk: bool, saveOk: bool) returns (success: bool)
      requires phase.Idle? && queue != []
      modifies this
      ensures View() == OnServe(old(View()), urlOk, saveOk)
      ensures success <==> match old(queue[0])
                           case Checkpoint(tab, _) => tab == old(owner)
                           case Handoff(_) => phase.Exported?
    {
      var job := queue[0];
      queue := queue[1..];
      success := false;
      match job {
        case Checkpoint(tab, recording) =>
          if tab == owner {
            store := recording;
            SaveActiveRecording(owner, saveOk);
            success := true;
          }
        case Handoff(target) =>
          if target != owner && urlOk && owner in recorders {
            phase := Exported(owner, target, recorders[owner]);
            success := true;
          }
      }
    }

    method ImportAtTarget(reply: ImportReply)
      requires phase.Exported?
      modifies this
      ensures View() == OnImport(old(View()), reply)
    {
      var target, exported := phase.target, phase.exported;
      match reply {
        case Accepted(navigation) =>
          var imported := WithNavigation(exported, navigation);
          recorders := recorders[target := imported];
          phase := Imported(phase.source, target, exported, imported);
        case Refused(discarded) =>
          if discarded {
            recorders := recorders - {target};
          }
          phase := Idle;
        case Lost(applied) =>
          if applied {
            recorders := recorders[target := exported];
          }
          phase := Idle;
      }
    }

    /** The commit, in the order of its writes; the first that fails starts the rollback. */
    method CommitHandoff(o: Outcome) returns (success: bool)
      requires phase.Imported?
      modifies this
      ensures View() == OnCommit(old(View()), o) && success == Succeeds(o)
    {
      var p := phase;
      phase := Idle;
      success := false;
      if o.storeOk {
        store := p.imported;
        SaveActiveRecording(p.target, o.ownerOk);
        if o.ownerOk {
          if o.discardOk || o.discardApplied {
            recorders := recorders - {p.source};
          }
          success := o.discardOk;
        }
      }
      if !success {
        if o.storeRestored {
          store := p.exported;
        }
        SaveActiveRecording(p.source, o.ownerRestored);
        if o.targetDiscarded {
          recorders := recorders - {p.target};
        }
      }
    }
  }
}
