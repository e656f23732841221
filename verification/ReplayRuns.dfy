/**
 What holds over whole runs of the replay session: evictions, recoveries, duplicate and late reports and
 superseding starts in any order.
 */
module ReplayRuns {
  import opened Wrappers
  import opened ReplaySession

  /** How often a task was told to be over. */
  function Times(log: seq<Broadcast>, task: int): nat {
    if log == [] then 0
    else
      var last := log[|log| - 1];
      Times(log[..|log| - 1], task) + if last.Terminal? && last.task == task then 1 else 0
  }

  lemma TimesAppended(log: seq<Broadcast>, b: Broadcast, task: int)
    ensures Times(log + [b], task) == Times(log, task) + if b.Terminal? && b.task == task then 1 else 0
  {
    assert (log + [b])[..|log|] == log;
  }

  // ---------- at most one terminal broadcast ----------

  predicate AlarmTakesEffect(st: State, e: Event) {
    match e
    case TotalAlarm(task) => st.stored.Some? && st.stored.value.task == task
    case IdleAlarm(task) => Idle(st, task)
    case _ => false
  }

  /** An alarm that acts finds no session in memory. */
  predicate Quiet(st: State, e: Event) { AlarmTakesEffect(st, e) ==> st.active.None? }

  predicate QuietRun(st: State, events: seq<Event>)
    decreases |events|
  {
    events == [] ||
    (QuietRun(st, events[..|events| - 1]) && Quiet(Run(st, events[..|events| - 1]), events[|events| - 1]))
  }

  predicate StoredIs(st: State, task: int) { st.stored.Some? && st.stored.value.task == task }

  /** A session in memory is the persisted one. */
  predicate Synced(st: State) { st.active.Some? ==> st.stored == st.active }

  /** Every started task is over (told once), dropped (never told), or persisted, and only one of these. */
  ghost predicate Accounted(st: State) {
    && (forall t :: Times(st.log, t) <= 1)
    && (forall t :: Times(st.log, t) == 1 ==> t in st.history.started && t !in st.history.dropped && !StoredIs(st, t))
    && (forall t | t in st.history.dropped :: t in st.history.started && !StoredIs(st, t))
    && (forall t | t in st.history.started :: Times(st.log, t) == 1 || t in st.history.dropped || StoredIs(st, t))
    && (st.stored.Some? ==> st.stored.value.task in st.history.started)
  }

  lemma LoggedAccounted(st: State, next: State, task: int, status: Status)
    requires Accounted(st) && StoredIs(st, task)
    requires next.log == st.log + [Terminal(task, status)] && next.stored == None
    requires next.history.started == st.history.started && next.history.dropped == st.history.dropped
    ensures Accounted(next)
  {
    forall t ensures Times(next.log, t) == Times(st.log, t) + if t == task then 1 else 0 {
      TimesAppended(st.log, Terminal(task, status), t);
    }
  }

  lemma SameAccounted(st: State, next: State)
    requires Accounted(st) && next.log == st.log
    requires next.history.started == st.history.started && next.history.dropped == st.history.dropped
    requires next.stored.Some? == st.stored.Some?
    requires st.stored.Some? ==> next.stored.value.task == st.stored.value.task
    ensures Accounted(next)
  {
    assert forall t :: StoredIs(next, t) == StoredIs(st, t);
  }

  lemma DroppedAccounted(st: State)
    requires Accounted(st)
    ensures Accounted(DropStored(st)) && DropStored(st).stored == None
  {
  }

  lemma ForwardedAccounted(st: State, status: Status)
    requires Accounted(st)
    ensures Accounted(st.(log := st.log + [Forwarded(status)]))
  {
    var next := st.(log := st.log + [Forwarded(status)]);
    forall t ensures Times(next.log, t) == Times(st.log, t) && StoredIs(next, t) == StoredIs(st, t) {
      TimesAppended(st.log, Forwarded(status), t);
    }
  }

  lemma CleanupAccounted(st: State, status: Status, closeTab: bool)
    requires Accounted(st) && (st.active.Some? ==> StoredIs(st, st.active.value.task))
    ensures Accounted(CleanupActive(st, status, closeTab)) && Synced(CleanupActive(st, status, closeTab))
    ensures CleanupActive(st, status, closeTab).active == None
    ensures st.active.Some? ==> CleanupActive(st, status, closeTab).stored == None
    ensures CleanupActive(st, status, closeTab).history == st.history
  {
    if st.active.Some? {
      LoggedAccounted(st, CleanupActive(st, status, closeTab), st.active.value.task, status);
    }
  }

  /** A task never started before becomes the persisted one. */
  lemma NewAccounted(st: State, next: State, task: int)
    requires Accounted(st) && st.stored == None && task !in st.history.started
    requires next.log == st.log && StoredIs(next, task)
    requires next.history.started == st.history.started + {task} && next.history.dropped == st.history.dropped
    ensures Accounted(next)
  {
    assert forall t :: StoredIs(next, t) <==> t == task;
  }

  lemma StartedAccounted(st: State, tab: int, task: int, domains: seq<string>, tabCreated: bool, persisted: bool)
    requires Accounted(st) && Synced(st) && task !in st.history.started
    ensures Accounted(OnStart(st, tab, task, domains, tabCreated, persisted))
    ensures Synced(OnStart(st, tab, task, domains, tabCreated, persisted))
  {
    var open := CloseRetained(st);
    SameAccounted(st, open);
    CleanupAccounted(open, Failure, true);
    var clear := CleanupActive(open, Failure, true);
    if tabCreated && persisted {
      DroppedAccounted(clear);
      NewAccounted(DropStored(clear), OnStart(st, tab, task, domains, tabCreated, persisted), task);
    }
  }

  lemma CompleteStoredAccounted(st: State, from: int, status: Status, reported: Option<int>, retainOk: bool)
    requires Accounted(st) && st.active.None?
    ensures Accounted(OnCompleteStored(st, from, status, reported, retainOk))
    ensures OnCompleteStored(st, from, status, reported, retainOk).active.None?
  {
    var next := OnCompleteStored(st, from, status, reported, retainOk);
    if next.stored == st.stored {
      SameAccounted(st, next);
    } else {
      LoggedAccounted(st, next, st.stored.value.task, status);
    }
  }

  lemma CompleteActiveAccounted(st: State, s: Session, status: Status, reported: Option<int>, retainOk: bool)
    requires Accounted(st) && Synced(st) && st.active == Some(s)
    ensures Accounted(OnCompleteActive(st, s, status, reported, retainOk))
    ensures Synced(OnCompleteActive(st, s, status, reported, retainOk))
  {
    if !TaskMatches(reported, s.task) || status.Success? {
      SameAccounted(st, OnCompleteActive(st, s, status, reported, retainOk));
    } else {
      CleanupAccounted(st, status, true);
    }
  }

  lemma CompleteAccounted(st: State, from: Option<int>, status: Status, reported: Option<int>, retainOk: bool)
    requires Accounted(st) && Synced(st)
    ensures Accounted(OnComplete(st, from, status, reported, retainOk))
        && Synced(OnComplete(st, from, status, reported, retainOk))
  {
    if from.None? {
      ForwardedAccounted(st, status);
    } else if st.active.None? {
      CompleteStoredAccounted(st, from.value, status, reported, retainOk);
    } else if st.active.value.tab == from.value {
      CompleteActiveAccounted(st, st.active.value, status, reported, retainOk);
    } else {
      SameAccounted(st, OnComplete(st, from, status, reported, retainOk));
    }
  }

  lemma FinishAccounted(st: State)
    requires Accounted(st) && Synced(st)
    ensures Accounted(OnFinishSuccess(st)) && Synced(OnFinishSuccess(st))
  {
    if st.pending != [] {
      var rest := st.(pending := st.pending[1..]);
      SameAccounted(st, rest);
      CleanupAccounted(rest, Success, false);
      CleanupAccounted(rest, Failure, true);
    }
  }

  lemma UpdatedAccounted(st: State, tab: int, host: Option<string>, injectOk: bool)
    requires Accounted(st) && Synced(st)
    ensures Accounted(OnTabUpdated(st, tab, host, injectOk)) && Synced(OnTabUpdated(st, tab, host, injectOk))
  {
    if st.active.Some? && st.active.value.tab == tab && host.Some? {
      CleanupAccounted(st, Failure, true);
      var s := st.active.value.(hopCount := st.active.value.hopCount + 1);
      var hopped := st.(active := Some(s));
      SameAccounted(st, hopped);
      CleanupAccounted(hopped, Failure, true);
      var kept := hopped.(stored := Some(s), history := st.history.(accepted := Bump(st.history.accepted, s.task)));
      SameAccounted(st, kept);
      CleanupAccounted(kept, Failure, true);
    }
  }

  lemma AlarmAccounted(st: State, e: Event)
    requires Accounted(st) && Synced(st) && Quiet(st, e) && (e.TotalAlarm? || e.IdleAlarm?)
    ensures Accounted(Step(st, e)) && Synced(Step(st, e))
  {
    if AlarmTakesEffect(st, e) {
      LoggedAccounted(st, Step(st, e), st.stored.value.task, Failure);
    } else {
      SameAccounted(st, Step(st, e));
    }
  }

  /** What a recovery does before it reacts to a tab that has finished loading. */
  lemma RecoverOutcome(st: State, host: Option<string>, injectOk: bool)
    requires st.active.None?
    ensures
      var next := OnRecover(st, false, host, injectOk);
      && next.log == st.log && next.pending == st.pending && next.now == st.now
      && (next.active.Some? ==> next.active == st.stored == next.stored && next.history == st.history)
      && (next.active.None? ==> next.stored.None?
                                && next.history == st.history.(dropped := next.history.dropped)
                                && next.history.dropped == DropStored(st).history.dropped)
  {
  }

  lemma RecoverAccounted(st: State, complete: bool, host: Option<string>, injectOk: bool)
    requires Accounted(st) && Synced(st)
    ensures Accounted(OnRecover(st, complete, host, injectOk)) && Synced(OnRecover(st, complete, host, injectOk))
  {
    if st.active.None? {
      RecoverOutcome(st, host, injectOk);
      RecoverLoads(st, host, injectOk);
      var armed := OnRecover(st, false, host, injectOk);
      if armed.active.Some? {
        SameAccounted(st, armed);
        UpdatedAccounted(armed, armed.active.value.tab, host, injectOk);
      } else {
        DroppedAccounted(st);
        SameAccounted(DropStored(st), armed);
      }
    }
  }

  lemma RemovedAccounted(st: State, tab: int)
    requires Accounted(st) && Synced(st)
    ensures Accounted(OnTabRemoved(st, tab)) && Synced(OnTabRemoved(st, tab))
  {
    var gone := st.(tabs := st.tabs - {tab});
    SameAccounted(st, gone);
    CleanupAccounted(gone, Failure, false);
  }

  lemma AbortAccounted(st: State)
    requires Accounted(st) && Synced(st)
    ensures Accounted(OnAbort(st)) && Synced(OnAbort(st))
  {
    CleanupAccounted(st, Cancelled, true);
    SameAccounted(st, CloseRetained(st));
  }

  lemma ProgressAccounted(st: State, tab: int)
    requires Accounted(st) && Synced(st)
    ensures Accounted(OnProgress(st, tab)) && Synced(OnProgress(st, tab))
  {
    SameAccounted(st, OnProgress(st, tab));
  }

  lemma QuietAccounted(st: State, e: Event)
    requires Accounted(st) && Synced(st) && (e.Tick? || e.Evict?)
    ensures Accounted(Step(st, e)) && Synced(Step(st, e))
  {
    SameAccounted(st, Step(st, e));
  }

  lemma StepAccounted(st: State, e: Event)
    requires Accounted(st) && Synced(st) && Enabled(st, e) && Quiet(st, e)
    ensures Accounted(Step(st, e)) && Synced(Step(st, e))
  {
    match e
    case Tick(_) => QuietAccounted(st, e);
    case StartReplay(tab, task, domains, tabCreated, persisted) =>
      StartedAccounted(st, tab, task, domains, tabCreated, persisted);
    case BootFailed(_) => CleanupAccounted(st, Failure, true);
    case Progress(tab) => ProgressAccounted(st, tab);
    case Complete(from, status, reported, retainOk) => CompleteAccounted(st, from, status, reported, retainOk);
    case FinishSuccess => FinishAccounted(st);
    case TabUpdated(tab, host, injectOk) => UpdatedAccounted(st, tab, host, injectOk);
    case TabRemoved(tab) => RemovedAccounted(st, tab);
    case TotalAlarm(_) => AlarmAccounted(st, e);
    case IdleAlarm(_) => AlarmAccounted(st, e);
    case Abort => AbortAccounted(st);
    case Evict => QuietAccounted(st, e);
    case Recover(complete, host, injectOk) => RecoverAccounted(st, complete, host, injectOk);
  }

  lemma {:induction false} RunAccounted(events: seq<Event>)
    requires Possible(INITIAL, events) && QuietRun(INITIAL, events)
    ensures Accounted(Run(INITIAL, events)) && Synced(Run(INITIAL, events))
    decreases |events|
  {
    if events != [] {
      RunAccounted(events[..|events| - 1]);
      StepAccounted(Run(INITIAL, events[..|events| - 1]), events[|events| - 1]);
    }
  }

  /** No task is told to be over twice, and none gets lost: each one started is told once, or was dropped by a
      recovery or a superseding start that found it in storage only, or is still persisted. */
  lemma AtMostOneTerminal(events: seq<Event>, task: int)
    requires Possible(INITIAL, events) && QuietRun(INITIAL, events)
    ensures
      var st := Run(INITIAL, events);
      && Times(st.log, task) <= 1
      && (task in st.history.started
          <==> Times(st.log, task) == 1 || task in st.history.dropped || StoredIs(st, task))
      && !(Times(st.log, task) == 1 && task in st.history.dropped)
      && !(StoredIs(st, task) && (Times(st.log, task) == 1 || task in st.history.dropped))
  {
    RunAccounted(events);
  }

  lemma AlarmLogs(st: State, e: Event)
    requires AlarmTakesEffect(st, e)
    ensures Step(st, e).log == st.log + [Terminal(st.stored.value.task, Failure)] && Step(st, e).active == st.active
  {
  }

  lemma RemovalLogs(st: State, tab: int)
    ensures OnTabRemoved(st, tab).log
            == st.log + if st.active.Some? && st.active.value.tab == tab then [Terminal(st.active.value.task, Failure)] else []
  {
  }

  /** Why alarms must find no session in memory: the alarm closes the replay tab, and the listener of the session
      that stayed in memory answers with a second broadcast. It does so exactly when there is one. */
  lemma LiveAlarmTellsTwice(events: seq<Event>, e: Event)
    requires Possible(INITIAL, events) && QuietRun(INITIAL, events)
    requires AlarmTakesEffect(Run(INITIAL, events), e)
    ensures
      var st := Run(INITIAL, events);
      var s := st.stored.value;
      Times(Step(Step(st, e), TabRemoved(s.tab)).log, s.task) == if st.active.Some? then 2 else 1
  {
    var st := Run(INITIAL, events);
    var s, told := st.stored.value, Terminal(st.stored.value.task, Failure);
    RunAccounted(events);
    assert StoredIs(st, s.task) && Times(st.log, s.task) == 0;
    AlarmLogs(st, e);
    RemovalLogs(Step(st, e), s.tab);
    TimesAppended(st.log, told, s.task);
    TimesAppended(st.log + [told], told, s.task);
  }

  // ---------- reports and watchdogs ----------

  predicate ReportFrom(e: Event, tab: int) { e.Complete? && e.from == Some(tab) }

  lemma {:induction false} ReleasedTabIsSilent(done: State, tab: int, reports: seq<Event>)
    requires done.active.None? && done.retained.Some? && done.retained.value.tab == tab
    requires forall e | e in reports :: ReportFrom(e, tab)
    ensures Run(done, reports) == done
  {
    if reports != [] {
      var n := |reports| - 1;
      ReleasedTabIsSilent(done, tab, reports[..n]);
      assert ReportFrom(reports[n], tab);
    }
  }

  /** After a success was handled, whatever else its tab reports, as often as it likes, changes nothing: the tab stays
      open, and nothing is broadcast again. */
  lemma {:induction false} FirstSuccessIsFinal(st: State, reports: seq<Event>)
    requires st.active.Some? && st.pending == []
    requires forall e | e in reports :: ReportFrom(e, st.active.value.tab)
    ensures
      var s := st.active.value;
      var done := Step(Step(st, Complete(Some(s.tab), Success, None, true)), FinishSuccess);
      && done.log == st.log + [Terminal(s.task, Success)] && done.tabs == st.tabs
      && Run(done, reports) == done
  {
    var s := st.active.value;
    var first := Step(st, Complete(Some(s.tab), Success, None, true));
    assert first.pending == [Completion(s.task, true)] && first.pending[1..] == [];
    ReleasedTabIsSilent(Step(first, FinishSuccess), s.tab, reports);
  }

  /** A report from a tab that runs no replay, or for another task. */
  predicate Stranger(st: State, e: Event) {
    && e.Complete? && e.from.Some?
    && (st.active.Some? ==> st.active.value.tab != e.from.value || !TaskMatches(e.reported, st.active.value.task))
    && (st.active.None? && st.stored.Some? ==>
          st.stored.value.tab != e.from.value || !TaskMatches(e.reported, st.stored.value.task))
  }

  /** Any number of such reports ends no task: at most tabs that sent one are closed. */
  lemma {:induction false} StrangersEndNothing(st: State, reports: seq<Event>)
    requires forall e | e in reports :: Stranger(st, e)
    ensures Run(st, reports) == st.(tabs := Run(st, reports).tabs) && Run(st, reports).tabs <= st.tabs
    ensures forall tab | tab in st.tabs - Run(st, reports).tabs :: exists e :: e in reports && ReportFrom(e, tab)
  {
    if reports != [] {
      var n := |reports| - 1;
      StrangersEndNothing(st, reports[..n]);
      assert Stranger(st, reports[n]) && Stranger(Run(st, reports[..n]), reports[n]);
      forall tab | tab in st.tabs - Run(st, reports).tabs ensures exists e :: e in reports && ReportFrom(e, tab) {
        if tab in Run(st, reports[..n]).tabs {
          assert reports[n] in reports && ReportFrom(reports[n], tab);
        } else {
          assert tab in st.tabs - Run(st, reports[..n]).tabs;
          var e :| e in reports[..n] && ReportFrom(e, tab);
          assert e in reports;
        }
      }
    }
  }

  predicate Uneventful(e: Event) { e.Tick? || e.Evict? }

  lemma {:induction false} StorageOutlastsEvictions(st: State, events: seq<Event>)
    requires forall e | e in events :: Uneventful(e)
    ensures
      var later := Run(st, events);
      later.stored == st.stored && later.log == st.log && later.now >= st.now && later.tabs == st.tabs
  {
    if events != [] {
      var n := |events| - 1;
      StorageOutlastsEvictions(st, events[..n]);
      assert Uneventful(events[n]);
    }
  }

  /** Progress feeds the idle watchdog across evictions: after any time and any evictions, it ends the replay exactly
      when more than two minutes have passed since. */
  lemma IdleAlarmCountsFromProgress(st: State, events: seq<Event>)
    requires st.active.Some? && forall e | e in events :: Uneventful(e)
    ensures
      var s := st.active.value;
      var later := Run(Step(st, Progress(s.tab)), events);
      var rung := Step(later, IdleAlarm(s.task));
      if later.now - st.now > IDLE_TIMEOUT_MS
      then rung.log == st.log + [Terminal(s.task, Failure)] && rung.stored == None && rung.tabs == st.tabs - {s.tab}
      else rung == later
  {
    StorageOutlastsEvictions(Step(st, Progress(st.active.value.tab)), events);
  }

  // ---------- hops ----------

  predicate HopsPaid(st: State, s: Session) {
    && 0 <= s.hopCount <= HOP_LIMIT
    && Count(st.history.accepted, s.task) <= s.hopCount + PROGRESS_CREDIT * Count(st.history.progressed, s.task)
    && s.task in st.history.started
  }

  /** Accepted navigations are paid for by the limit and by progress. */
  ghost predicate HopsBounded(st: State) {
    && (st.active.Some? ==> HopsPaid(st, st.active.value))
    && (st.stored.Some? ==> HopsPaid(st, st.stored.value))
    && (st.active.Some? && st.stored.Some? ==> st.stored == st.active)
    && (forall t | t in st.history.accepted || t in st.history.progressed :: t in st.history.started)
    && (forall t :: Count(st.history.accepted, t) <= HOP_LIMIT + PROGRESS_CREDIT * Count(st.history.progressed, t))
  }

  lemma UpdatedHops(st: State, tab: int, host: Option<string>, injectOk: bool)
    requires HopsBounded(st)
    ensures HopsBounded(OnTabUpdated(st, tab, host, injectOk))
  {
  }

  /** A step that only forgets sessions. */
  lemma ForgetfulHops(st: State, next: State)
    requires HopsBounded(st)
    requires next.active in {None, st.active} && next.stored in {None, st.stored}
    requires next.history.started == st.history.started
    requires next.history.accepted == st.history.accepted && next.history.progressed == st.history.progressed
    ensures HopsBounded(next)
  {
  }

  lemma NewHops(st: State, next: State, s: Session)
    requires HopsBounded(st) && s.task !in st.history.started && s.hopCount == 0
    requires next.active == next.stored == Some(s) && next.history.started == st.history.started + {s.task}
    requires next.history.accepted == st.history.accepted && next.history.progressed == st.history.progressed
    ensures HopsBounded(next)
  {
  }

  lemma StartHops(st: State, tab: int, task: int, domains: seq<string>, tabCreated: bool, persisted: bool)
    requires HopsBounded(st) && task !in st.history.started
    ensures HopsBounded(OnStart(st, tab, task, domains, tabCreated, persisted))
  {
    var clear := CleanupActive(CloseRetained(st), Failure, true);
    ForgetfulHops(st, clear);
    if tabCreated && persisted {
      NewHops(clear, OnStart(st, tab, task, domains, tabCreated, persisted), Session(tab, task, st.now, 0, st.now, domains));
    }
  }

  lemma ProgressHops(st: State, tab: int)
    requires HopsBounded(st)
    ensures HopsBounded(OnProgress(st, tab))
  {
  }

  lemma RecoverHops(st: State, complete: bool, host: Option<string>, injectOk: bool)
    requires HopsBounded(st)
    ensures HopsBounded(OnRecover(st, complete, host, injectOk))
  {
    if st.active.None? {
      RecoverOutcome(st, host, injectOk);
      RecoverLoads(st, host, injectOk);
      var armed := OnRecover(st, false, host, injectOk);
      if armed.active.Some? {
        SameHops(st, armed);
        UpdatedHops(armed, armed.active.value.tab, host, injectOk);
      } else {
        ForgetfulHops(st, armed);
      }
    }
  }

  lemma SameHops(st: State, next: State)
    requires HopsBounded(st) && next.active == st.stored == next.stored && next.history == st.history
    ensures HopsBounded(next)
  {
  }

  lemma CompleteForgets(st: State, from: Option<int>, status: Status, reported: Option<int>, retainOk: bool)
    ensures
      var next := OnComplete(st, from, status, reported, retainOk);
      && next.active in {None, st.active} && next.stored in {None, st.stored}
      && next.history.(reported := st.history.reported) == st.history
  {
  }

  lemma CompleteHops(st: State, from: Option<int>, status: Status, reported: Option<int>, retainOk: bool)
    requires HopsBounded(st)
    ensures HopsBounded(OnComplete(st, from, status, reported, retainOk))
  {
    CompleteForgets(st, from, status, reported, retainOk);
    ForgetfulHops(st, OnComplete(st, from, status, reported, retainOk));
  }

  /** The events that start nothing, count nothing, and can only end or forget a session. */
  predicate Ending(e: Event) {
    e.Tick? || e.BootFailed? || e.FinishSuccess? || e.TabRemoved? || e.TotalAlarm? || e.IdleAlarm? || e.Abort?
        || e.Evict?
  }

  lemma EndingForgets(st: State, e: Event)
    requires Ending(e)
    ensures
      var next := Step(st, e);
      next.active in {None, st.active} && next.stored in {None, st.stored} && next.history == st.history
  {
  }

  lemma OtherHops(st: State, e: Event)
    requires HopsBounded(st) && Ending(e)
    ensures HopsBounded(Step(st, e))
  {
    EndingForgets(st, e);
    ForgetfulHops(st, Step(st, e));
  }

  lemma StepHops(st: State, e: Event)
    requires HopsBounded(st) && Enabled(st, e)
    ensures HopsBounded(Step(st, e))
  {
    match e
    case StartReplay(tab, task, domains, tabCreated, persisted) => StartHops(st, tab, task, domains, tabCreated, persisted);
    case Progress(tab) => ProgressHops(st, tab);
    case TabUpdated(tab, host, injectOk) => UpdatedHops(st, tab, host, injectOk);
    case Recover(complete, host, injectOk) => RecoverHops(st, complete, host, injectOk);
    case Complete(from, status, reported, retainOk) => CompleteHops(st, from, status, reported, retainOk);
    case _ => OtherHops(st, e);
  }

  /** Over any run, with alarms of every kind: a session's hop count stays within the limit, and a task has
      accepted at most fifty navigations and ten more for each progress message. */
  lemma {:induction false} NavigationsAreBounded(events: seq<Event>)
    requires Possible(INITIAL, events)
    ensures HopsBounded(Run(INITIAL, events))
    decreases |events|
  {
    if events != [] {
      NavigationsAreBounded(events[..|events| - 1]);
      StepHops(Run(INITIAL, events[..|events| - 1]), events[|events| - 1]);
    }
  }

  // ---------- alarms ----------

  /** A persisted session has both alarms armed, the total one no later than half a minute past its cap. */
  predicate Armed(st: State) {
    st.stored.Some? ==>
      var s := st.stored.value;
      && s.startedAt <= st.now
      && s.task in st.idles
      && s.task in st.totals && st.totals[s.task] <= s.startedAt + TOTAL_TIMEOUT_MS + ALARM_MIN_MS
  }

  lemma UpdatedArmed(st: State, tab: int, host: Option<string>, injectOk: bool)
    requires Armed(st) && Synced(st)
    ensures Armed(OnTabUpdated(st, tab, host, injectOk))
  {
  }

  lemma RecoverArmed(st: State, complete: bool, host: Option<string>, injectOk: bool)
    requires Armed(st) && Synced(st)
    ensures Armed(OnRecover(st, complete, host, injectOk))
  {
    if st.active.None? {
      RecoverOutcome(st, host, injectOk);
      RecoverLoads(st, host, injectOk);
      var armed := OnRecover(st, false, host, injectOk);
      if armed.active.Some? {
        assert Armed(armed);
        UpdatedArmed(armed, armed.active.value.tab, host, injectOk);
      }
    }
  }

  lemma OtherArmed(st: State, e: Event)
    requires Armed(st) && Synced(st) && Quiet(st, e) && !e.TabUpdated? && !e.Recover?
    ensures Armed(Step(st, e))
  {
  }

  lemma StepArmed(st: State, e: Event)
    requires Armed(st) && Synced(st) && Quiet(st, e)
    ensures Armed(Step(st, e))
  {
    match e
    case TabUpdated(tab, host, injectOk) => UpdatedArmed(st, tab, host, injectOk);
    case Recover(complete, host, injectOk) => RecoverArmed(st, complete, host, injectOk);
    case _ => OtherArmed(st, e);
  }

  /** Across evictions and recoveries the total alarm of a persisted session stays armed, for no later than its
      start, thirty minutes and thirty seconds. */
  lemma {:induction false} TotalAlarmStaysArmed(events: seq<Event>)
    requires Possible(INITIAL, events) && QuietRun(INITIAL, events)
    ensures Armed(Run(INITIAL, events))
    decreases |events|
  {
    if events != [] {
      var init := events[..|events| - 1];
      TotalAlarmStaysArmed(init);
      RunAccounted(init);
      StepArmed(Run(INITIAL, init), events[|events| - 1]);
    }
  }

  // ---------- alarms that find a session in memory ----------

  predicate TotalInTime(st: State, s: Session) {
    s.startedAt <= st.now && (s.task in st.totals ==> st.totals[s.task] <= s.startedAt + TOTAL_TIMEOUT_MS + ALARM_MIN_MS)
  }

  predicate TotalsBounded(st: State) {
    && (st.active.Some? ==> TotalInTime(st, st.active.value))
    && (st.stored.Some? ==> TotalInTime(st, st.stored.value))
    && (st.active.Some? && st.stored.Some? ==> st.active.value.task == st.stored.value.task)
  }

  lemma UpdatedTotals(st: State, tab: int, host: Option<string>, injectOk: bool)
    requires TotalsBounded(st)
    ensures TotalsBounded(OnTabUpdated(st, tab, host, injectOk))
  {
  }

  lemma RecoverTotals(st: State, complete: bool, host: Option<string>, injectOk: bool)
    requires TotalsBounded(st)
    ensures TotalsBounded(OnRecover(st, complete, host, injectOk))
  {
    if st.active.None? {
      RecoverOutcome(st, host, injectOk);
      RecoverLoads(st, host, injectOk);
      var armed := OnRecover(st, false, host, injectOk);
      if armed.active.Some? {
        assert TotalsBounded(armed);
        UpdatedTotals(armed, armed.active.value.tab, host, injectOk);
      }
    }
  }

  lemma OtherTotals(st: State, e: Event)
    requires TotalsBounded(st) && !e.TabUpdated? && !e.Recover?
    ensures TotalsBounded(Step(st, e))
  {
  }

  /** Over any run, with alarms of every kind: a total alarm that is armed for a session, in memory or persisted,
      is due no later than thirty minutes and thirty seconds after its start. */
  lemma {:induction false} TotalAlarmIsInTime(events: seq<Event>)
    requires Possible(INITIAL, events)
    ensures TotalsBounded(Run(INITIAL, events))
    decreases |events|
  {
    if events != [] {
      var st, e := Run(INITIAL, events[..|events| - 1]), events[|events| - 1];
      TotalAlarmIsInTime(events[..|events| - 1]);
      match e
      case TabUpdated(tab, host, injectOk) => UpdatedTotals(st, tab, host, injectOk);
      case Recover(complete, host, injectOk) => RecoverTotals(st, complete, host, injectOk);
      case _ => OtherTotals(st, e);
    }
  }

  /** Why the alarms stay armed only while they find no session in memory: one that acts disarms both, and then
      progress persists the session again, unarmed, exactly when it was in memory. */
  lemma LiveAlarmDisarms(events: seq<Event>, e: Event, tab: int)
    requires Possible(INITIAL, events) && QuietRun(INITIAL, events)
    requires AlarmTakesEffect(Run(INITIAL, events), e)
    ensures
      var st := Run(INITIAL, events);
      var next := Step(Step(st, e), Progress(tab));
      && (next.stored.Some? <==> st.active.Some? && st.active.value.tab == tab)
      && (next.stored.Some? ==> next.stored.value.task == st.stored.value.task
                                && next.stored.value.task !in next.totals && next.stored.value.task !in next.idles)
  {
    RunAccounted(events);
  }

  /** After any time and evictions, the last one just before, a recovery brings back exactly a persisted session that
      is then at most thirty minutes old, whose tab is still open and whose hosts are known; any other it drops
      without telling. */
  lemma RecoveredSessionIsYoung(st: State, events: seq<Event>, host: Option<string>, injectOk: bool)
    requires st.stored.Some? && forall e | e in events :: Uneventful(e)
    ensures
      var lost, s := Step(Run(st, events), Evict), st.stored.value;
      var next := OnRecover(lost, false, host, injectOk);
      && (next.active.Some? <==> && lost.now - s.startedAt <= TOTAL_TIMEOUT_MS
                                 && s.tab in ReleaseExpired(lost).tabs && s.domains != [])
      && (next.active.Some? ==> next.active == next.stored == Some(s))
      && (next.active.None? ==> next.stored.None? && s.task in next.history.dropped && next.log == st.log)
  {
    StorageOutlastsEvictions(st, events);
  }

  // ---------- successes are earned ----------

  predicate Starts(e: Event) { e.StartReplay? && e.tabCreated && e.persisted }

  /** A start that takes effect does not overtake the cleanup after a success whose tab was retained. */
  predicate Settled(st: State, e: Event) { Starts(e) ==> st.pending == [] || !st.pending[0].retained }

  predicate SettledRun(st: State, events: seq<Event>)
    decreases |events|
  {
    events == [] ||
    (SettledRun(st, events[..|events| - 1]) && Settled(Run(st, events[..|events| - 1]), events[|events| - 1]))
  }

  predicate Earned(st: State) {
    && (forall b | b in st.log && b.Terminal? && b.status.Success? :: b.task in st.history.reported)
    && (st.pending != [] && st.active.Some? && st.pending[0].retained ==> st.active.value.task in st.history.reported)
    && (st.pending != [] && st.active.None? ==> st.stored.None?)
  }

  lemma CleanupEarned(st: State, status: Status, closeTab: bool)
    requires Earned(st) && (st.active.Some? && status.Success? ==> st.active.value.task in st.history.reported)
    ensures Earned(CleanupActive(st, status, closeTab))
  {
  }

  lemma UpdatedEarned(st: State, tab: int, host: Option<string>, injectOk: bool)
    requires Earned(st)
    ensures Earned(OnTabUpdated(st, tab, host, injectOk))
  {
  }

  /** Whatever is still pending, the cleanup leaves no session for it to end. */
  lemma TellsEarned(st: State, status: Status, closeTab: bool)
    requires forall b | b in st.log && b.Terminal? && b.status.Success? :: b.task in st.history.reported
    requires st.active.Some? && status.Success? ==> st.active.value.task in st.history.reported
    requires st.active.None? ==> st.pending == [] || st.stored.None?
    ensures Earned(CleanupActive(st, status, closeTab))
  {
  }

  lemma FinishEarned(st: State)
    requires Earned(st)
    ensures Earned(OnFinishSuccess(st))
  {
    if st.pending != [] {
      var rest := st.(pending := st.pending[1..]);
      if st.pending[0].retained {
        TellsEarned(rest, Success, false);
      } else {
        TellsEarned(rest, Failure, true);
      }
    }
  }

  lemma CompleteEarned(st: State, from: Option<int>, status: Status, reported: Option<int>, retainOk: bool)
    requires Earned(st)
    ensures Earned(OnComplete(st, from, status, reported, retainOk))
  {
    if st.active.Some? && !status.Success? {
      CleanupEarned(st, status, true);
    }
  }

  lemma RecoverEarned(st: State, complete: bool, host: Option<string>, injectOk: bool)
    requires Earned(st)
    ensures Earned(OnRecover(st, complete, host, injectOk))
  {
    if st.active.None? {
      RecoverOutcome(st, host, injectOk);
      RecoverLoads(st, host, injectOk);
      var armed := OnRecover(st, false, host, injectOk);
      if armed.active.Some? {
        assert Earned(armed);
        UpdatedEarned(armed, armed.active.value.tab, host, injectOk);
      }
    }
  }

  lemma StartEarned(st: State, tab: int, task: int, domains: seq<string>, tabCreated: bool, persisted: bool)
    requires Earned(st) && (tabCreated && persisted ==> st.pending == [] || !st.pending[0].retained)
    ensures Earned(OnStart(st, tab, task, domains, tabCreated, persisted))
  {
    CleanupEarned(CloseRetained(st), Failure, true);
  }

  lemma AlarmEarned(st: State, e: Event)
    requires Earned(st) && (e.TotalAlarm? || e.IdleAlarm?)
    ensures Earned(Step(st, e))
  {
  }

  lemma OtherEarned(st: State, e: Event)
    requires Earned(st) && (e.BootFailed? || e.TabRemoved? || e.Abort? || e.Evict? || e.Tick? || e.Progress?)
    ensures Earned(Step(st, e))
  {
  }

  lemma StepEarned(st: State, e: Event)
    requires Earned(st) && Settled(st, e)
    ensures Earned(Step(st, e))
  {
    match e
    case Complete(from, status, reported, retainOk) => CompleteEarned(st, from, status, reported, retainOk);
    case FinishSuccess => FinishEarned(st);
    case TabUpdated(tab, host, injectOk) => UpdatedEarned(st, tab, host, injectOk);
    case StartReplay(tab, task, domains, tabCreated, persisted) => StartEarned(st, tab, task, domains, tabCreated, persisted);
    case Recover(complete, host, injectOk) => RecoverEarned(st, complete, host, injectOk);
    case TotalAlarm(_) => AlarmEarned(st, e);
    case IdleAlarm(_) => AlarmEarned(st, e);
    case _ => OtherEarned(st, e);
  }

  /** While no replay is started as long as the oldest success report still being handled is one whose tab was
      retained, only tasks whose own tab reported success are told to have succeeded. */
  lemma {:induction false} SuccessIsEarned(events: seq<Event>)
    requires Possible(INITIAL, events) && SettledRun(INITIAL, events)
    ensures Earned(Run(INITIAL, events))
    decreases |events|
  {
    if events != [] {
      SuccessIsEarned(events[..|events| - 1]);
      StepEarned(Run(INITIAL, events[..|events| - 1]), events[|events| - 1]);
    }
  }

  predicate ReportedKnown(st: State) { forall t | t in st.history.reported :: t in st.history.started }

  lemma StepReported(st: State, e: Event)
    requires HopsBounded(st) && ReportedKnown(st)
    ensures ReportedKnown(Step(st, e))
  {
    if e.Recover? && st.active.None? {
      RecoverOutcome(st, e.host, e.injectOk);
      RecoverLoads(st, e.host, e.injectOk);
    }
  }

  lemma {:induction false} RunReported(events: seq<Event>)
    requires Possible(INITIAL, events)
    ensures ReportedKnown(Run(INITIAL, events))
    decreases |events|
  {
    if events != [] {
      var init := events[..|events| - 1];
      RunReported(init);
      NavigationsAreBounded(init);
      StepReported(Run(INITIAL, init), events[|events| - 1]);
    }
  }

  /** What the cleanup tells the replay that is in memory by then. */
  function Told(st: State, task: int): seq<Broadcast> {
    if st.pending == [] then [] else [Terminal(task, if st.pending[0].retained then Success else Failure)]
  }

  lemma FinishAfterStart(st: State, e: Event)
    requires Starts(e)
    ensures
      var end := Step(Step(st, e), FinishSuccess);
      end.log == Step(st, e).log + Told(st, e.task) && end.history.reported == st.history.reported
  {
    StartSupersedes(st, e);
    FinishTells(Step(st, e));
  }

  lemma SameTail<T>(list: seq<T>, a: seq<T>, b: seq<T>)
    ensures list + a == list + b <==> a == b
  {
    assert a == (list + a)[|list|..] && b == (list + b)[|list|..];
  }

  /** The cleanup of an earlier success report that comes after a start falls on the replay just started. In every
      run that replay, which nobody has reported, is told a success exactly when the start was not settled: when a
      completion was pending and its tab was retained. */
  lemma SupersededSuccessIsMisplaced(events: seq<Event>, e: Event)
    requires Possible(INITIAL, events) && Starts(e) && Enabled(Run(INITIAL, events), e)
    ensures
      var st := Run(INITIAL, events);
      var begun := Step(st, e);
      var end := Step(begun, FinishSuccess);
      && e.task !in end.history.reported
      && (end.log == begun.log + [Terminal(e.task, Success)] <==> !Settled(st, e))
      && (Settled(st, e) ==> end.log == begun.log + if st.pending == [] then [] else [Terminal(e.task, Failure)])
  {
    var st := Run(INITIAL, events);
    RunReported(events);
    FinishAfterStart(st, e);
    SameTail(Step(st, e).log, Told(st, e.task), [Terminal(e.task, Success)]);
  }

  lemma StartSupersedes(st: State, e: Event)
    requires Starts(e)
    ensures
      var next := Step(st, e);
      && next.active.Some? && next.active.value.task == e.task && next.pending == st.pending
      && next.history.reported == st.history.reported
  {
  }

  lemma FinishTells(st: State)
    requires st.active.Some?
    ensures
      var next := Step(st, FinishSuccess);
      && next.history == st.history
      && next.log == st.log + Told(st, st.active.value.task)
  {
  }
}
