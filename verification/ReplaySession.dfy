/**
 The replay session of the background worker (extension/src/background.ts:1245-1588, 2935-3156): a session in
 memory, its persisted copy, two watchdog alarms, the replay tab, and the terminal broadcasts it makes. The
 worker can be evicted at any time; storage and alarms survive it.
 */
module ReplaySession {
  import opened Wrappers

  const TOTAL_TIMEOUT_MS := 1_800_000
  const IDLE_TIMEOUT_MS := 120_000
  const ALARM_MIN_MS := 30_000
  const RETAINED_TTL_MS := 1_800_000
  const HOP_LIMIT := 50
  const PROGRESS_CREDIT := 10

  datatype Session =
    Session(tab: int, task: int, startedAt: int, hopCount: int, lastProgressAt: int, domains: seq<string>)

  datatype Status = Success | Failure | Cancelled

  datatype Broadcast = Terminal(task: int, status: Status) | Forwarded(status: Status)

  datatype Retained = Retained(tab: int, task: int, at: int)

  /** A success report whose tab is being retained; the cleanup it leads to has not run yet. */
  datatype Completion = Completion(task: int, retained: bool)

  /** What has happened to tasks so far; the program does not keep it. */
  datatype History =
    History(started: set<int>, dropped: set<int>, reported: set<int>, accepted: map<int, nat>, progressed: map<int, nat>)

  datatype State = State(
    now: int,
    active: Option<Session>,
    pending: seq<Completion>,
    stored: Option<Session>,
    payloads: set<int>,
    retained: Option<Retained>,
    totals: map<int, int>,
    idles: set<int>,
    tabs: set<int>,
    log: seq<Broadcast>,
    history: History)

  const INITIAL := State(0, None, [], None, {}, None, map[], {}, {}, [], History({}, {}, {}, map[], map[]))

  function Max(a: int, b: int): int { if a > b then a else b }

  function Count(counts: map<int, nat>, task: int): nat { if task in counts then counts[task] else 0 }

  function Bump(counts: map<int, nat>, task: int): map<int, nat> { counts[task := Count(counts, task) + 1] }

  // ---------- pieces of the handlers ----------

  predicate EndsWith(text: string, suffix: string) {
    |suffix| <= |text| && text[|text| - |suffix|..] == suffix
  }

  /** `hostMatchesDomain`. */
  predicate HostMatches(host: string, domains: seq<string>) {
    exists d | d in domains :: host == d || EndsWith(host, "." + d)
  }

  /** `replayTaskMatches`. */
  predicate TaskMatches(reported: Option<int>, expected: int) { reported.None? || reported.value == expected }

  /** `cleanupReplaySession` for the session in memory. */
  function CleanupActive(st: State, status: Status, closeTab: bool): State {
    match st.active
    case None => st
    case Some(s) => CleanupSession(st.(active := None), s, status, closeTab)
  }

  /** The rest of `cleanupReplaySession`; a session rebuilt from storage leaves the one in memory in place. */
  function CleanupSession(st: State, s: Session, status: Status, closeTab: bool): State {
    st.(totals := st.totals - {s.task}, idles := st.idles - {s.task},
        stored := None, payloads := st.payloads - {s.task},
        tabs := if closeTab then st.tabs - {s.tab} else st.tabs,
        log := st.log + [Terminal(s.task, status)])
  }

  /** `closeRetainedReplayTab`. */
  function CloseRetained(st: State): State {
    match st.retained
    case None => st
    case Some(r) => st.(retained := None, tabs := st.tabs - {r.tab})
  }

  /** What a lost storage entry does to the replay it named. */
  function DropStored(st: State): State {
    match st.stored
    case None => st
    case Some(s) => st.(stored := None, history := st.history.(dropped := st.history.dropped + {s.task}))
  }

  // ---------- the events ----------

  datatype Event =
    | Tick(ms: nat)
    | StartReplay(tab: int, task: int, domains: seq<string>, tabCreated: bool, persisted: bool)
    | BootFailed(tab: int)
    | Progress(tab: int)
    | Complete(from: Option<int>, status: Status, reported: Option<int>, retainOk: bool)
    | FinishSuccess
    | TabUpdated(tab: int, host: Option<string>, injectOk: bool)
    | TabRemoved(tab: int)
    | TotalAlarm(task: int)
    | IdleAlarm(task: int)
    | Abort
    | Evict
    | Recover(complete: bool, host: Option<string>, injectOk: bool)

  /** The START_REPLAY handler, once the rule's entry has been accepted. */
  function OnStart(st: State, tab: int, task: int, domains: seq<string>, tabCreated: bool, persisted: bool): State {
    var clear := CleanupActive(CloseRetained(st), Failure, true);
    if !tabCreated || !persisted then clear
    else
      var s := Session(tab, task, st.now, 0, st.now, domains);
      var dropped := DropStored(clear);
      dropped.(active := Some(s), stored := Some(s), payloads := dropped.payloads + {task}, tabs := dropped.tabs + {tab},
               totals := dropped.totals[task := st.now + TOTAL_TIMEOUT_MS], idles := dropped.idles + {task},
               history := dropped.history.(started := dropped.history.started + {task}))
  }

  function OnBootFailed(st: State, tab: int): State {
    if st.active.Some? && st.active.value.tab == tab then CleanupActive(st, Failure, true) else st
  }

  function OnProgress(st: State, tab: int): State {
    if st.active.Some? && st.active.value.tab == tab then
      var s := st.active.value;
      var moved := s.(lastProgressAt := st.now, hopCount := Max(0, s.hopCount - PROGRESS_CREDIT));
      st.(active := Some(moved), stored := Some(moved),
          history := st.history.(progressed := Bump(st.history.progressed, s.task)))
    else st
  }

  /** REPLAY_COMPLETE from the tab of the session in memory. */
  function OnCompleteActive(st: State, s: Session, status: Status, reported: Option<int>, retainOk: bool): State {
    if !TaskMatches(reported, s.task) then st
    else if status.Success? then
      st.(pending := st.pending + [Completion(s.task, retainOk)],
          retained := if retainOk then Some(Retained(s.tab, s.task, st.now)) else st.retained,
          history := st.history.(reported := st.history.reported + {s.task}))
    else CleanupActive(st, status, true)
  }

  /** REPLAY_COMPLETE from a tab while no session is in memory: authorised against storage. */
  function OnCompleteStored(st: State, from: int, status: Status, reported: Option<int>, retainOk: bool): State {
    if st.retained.Some? && st.retained.value.tab == from then st
    else if st.stored.None? || st.stored.value.tab != from || !TaskMatches(reported, st.stored.value.task) then
      st.(tabs := st.tabs - {from})
    else
      var task := st.stored.value.task;
      st.(stored := None,
          retained := if status.Success? && retainOk then Some(Retained(from, task, st.now)) else st.retained,
          tabs := if status.Success? then st.tabs else st.tabs - {from},
          log := st.log + [Terminal(task, status)],
          history := if status.Success? then st.history.(reported := st.history.reported + {task}) else st.history)
  }

  function OnComplete(st: State, from: Option<int>, status: Status, reported: Option<int>, retainOk: bool): State {
    match from
    case None => st.(log := st.log + [Forwarded(status)])
    case Some(tab) =>
      if st.active.None? then OnCompleteStored(st, tab, status, reported, retainOk)
      else if st.active.value.tab == tab then OnCompleteActive(st, st.active.value, status, reported, retainOk)
      else st.(tabs := st.tabs - {tab})
  }

  /** The cleanup after the oldest success report, whatever session is in memory by then. */
  function OnFinishSuccess(st: State): State {
    if st.pending == [] then st
    else
      var rest := st.(pending := st.pending[1..]);
      if st.pending[0].retained then CleanupActive(rest, Success, false) else CleanupActive(rest, Failure, true)
  }

  /** The `onTabUpdated` listener, for a finished load. */
  function OnTabUpdated(st: State, tab: int, host: Option<string>, injectOk: bool): State {
    if st.active.None? || st.active.value.tab != tab || host.None? then st
    else if !HostMatches(host.value, st.active.value.domains) then CleanupActive(st, Failure, true)
    else
      var s := st.active.value.(hopCount := st.active.value.hopCount + 1);
      var hopped := st.(active := Some(s));
      if s.hopCount > HOP_LIMIT then CleanupActive(hopped, Failure, true)
      else
        var kept := hopped.(stored := Some(s), history := st.history.(accepted := Bump(st.history.accepted, s.task)));
        if s.task !in st.payloads || !injectOk then CleanupActive(kept, Failure, true) else kept
  }

  function OnTabRemoved(st: State, tab: int): State {
    var gone := st.(tabs := st.tabs - {tab});
    if st.active.Some? && st.active.value.tab == tab then CleanupActive(gone, Failure, false) else gone
  }

  /** The alarm acts on the persisted session alone. */
  function OnTotalAlarm(st: State, task: int): State {
    var fired := st.(totals := st.totals - {task});
    if st.stored.Some? && st.stored.value.task == task then CleanupSession(fired, st.stored.value, Failure, true) else fired
  }

  predicate Idle(st: State, task: int) {
    st.stored.Some? && st.stored.value.task == task && st.now - st.stored.value.lastProgressAt > IDLE_TIMEOUT_MS
  }

  function OnIdleAlarm(st: State, task: int): State {
    if Idle(st, task) then CleanupSession(st, st.stored.value, Failure, true) else st
  }

  function OnAbort(st: State): State {
    if st.active.None? then CloseRetained(st) else CleanupActive(st, Cancelled, true)
  }

  /** The worker dies: what it held in memory is gone. */
  function OnEvict(st: State): State { st.(active := None, pending := []) }

  function ReleaseExpired(st: State): State {
    if st.retained.Some? && st.now - st.retained.value.at > RETAINED_TTL_MS then CloseRetained(st) else st
  }

  /** `recoverReplaySessionOnStartup`. */
  function OnRecover(st: State, complete: bool, host: Option<string>, injectOk: bool): State {
    if st.active.Some? then st
    else
      var swept := ReleaseExpired(st);
      if swept.stored.None? then swept
      else
        var s := swept.stored.value;
        if st.now - s.startedAt > TOTAL_TIMEOUT_MS || s.tab !in swept.tabs || s.domains == [] then
          DropStored(swept.(payloads := swept.payloads - {s.task}))
        else
          var remaining := Max(0, TOTAL_TIMEOUT_MS - (st.now - s.startedAt));
          var armed := swept.(active := Some(s), totals := swept.totals[s.task := st.now + Max(ALARM_MIN_MS, remaining)],
                              idles := swept.idles + {s.task});
          if complete then OnTabUpdated(armed, s.tab, host, injectOk) else armed
  }

  /** A recovery is the recovery of a tab that still loads, then the listener if it has finished. */
  lemma RecoverLoads(st: State, host: Option<string>, injectOk: bool)
    requires st.active.None?
    ensures
      var armed := OnRecover(st, false, host, injectOk);
      OnRecover(st, true, host, injectOk)
      == if armed.active.Some? then OnTabUpdated(armed, armed.active.value.tab, host, injectOk) else armed
  {
  }

  function Step(st: State, e: Event): State {
    match e
    case Tick(ms) => st.(now := st.now + ms)
    case StartReplay(tab, task, domains, tabCreated, persisted) => OnStart(st, tab, task, domains, tabCreated, persisted)
    case BootFailed(tab) => OnBootFailed(st, tab)
    case Progress(tab) => OnProgress(st, tab)
    case Complete(from, status, reported, retainOk) => OnComplete(st, from, status, reported, retainOk)
    case FinishSuccess => OnFinishSuccess(st)
    case TabUpdated(tab, host, injectOk) => OnTabUpdated(st, tab, host, injectOk)
    case TabRemoved(tab) => OnTabRemoved(st, tab)
    case TotalAlarm(task) => OnTotalAlarm(st, task)
    case IdleAlarm(task) => OnIdleAlarm(st, task)
    case Abort => OnAbort(st)
    case Evict => OnEvict(st)
    case Recover(complete, host, injectOk) => OnRecover(st, complete, host, injectOk)
  }

  /** A start draws a task id never used before. */
  predicate Enabled(st: State, e: Event) { e.StartReplay? ==> e.task !in st.history.started }

  function Run(st: State, events: seq<Event>): State
    decreases |events|
  {
    if events == [] then st else Step(Run(st, events[..|events| - 1]), events[|events| - 1])
  }

  predicate Possible(st: State, events: seq<Event>)
    decreases |events|
  {
    events == [] ||
    (Possible(st, events[..|events| - 1]) && Enabled(Run(st, events[..|events| - 1]), events[|events| - 1]))
  }

  // ---------- the worker's own form ----------

  /** The module variables, storage cells, alarms and tabs that the handlers change in place. */
  class Background {
    var now: int
    var activeReplay: Option<Session>
    var pendingCompletions: seq<Completion>
    var storedSession: Option<Session>
    var storedPayloads: set<int>
    var retainedTab: Option<Retained>
    var totalAlarms: map<int, int>
    var idleAlarms: set<int>
    var tabs: set<int>
    var broadcasts: seq<Broadcast>
    ghost var history: History

    ghost function View(): State
      reads this
    {
      State(now, activeReplay, pendingCompletions, storedSession, storedPayloads, retainedTab, totalAlarms,
            idleAlarms, tabs, broadcasts, history)
    }

    constructor ()
      ensures View() == INITIAL
    {
      now, activeReplay, pendingCompletions := 0, None, [];
      storedSession, storedPayloads, retainedTab := None, {}, None;
      totalAlarms, idleAlarms, tabs, broadcasts := map[], {}, {}, [];
      history := History({}, {}, {}, map[], map[]);
    }

    /** `options.session ?? activeReplay`: `rebuilt` is a session read back from storage. */
    method CleanupReplaySession(status: Status, closeTab: bool, rebuilt: Option<Session>)
      modifies this
      ensures View() == match rebuilt
                        case Some(s) => CleanupSession(old(View()), s, status, closeTab)
                        case None => CleanupActive(old(View()), status, closeTab)
    {
      var session := if rebuilt.Some? then rebuilt else activeReplay;
      if session.None? {
        return;
      }
      if rebuilt.None? {
        activeReplay := None;
      }
      var s := session.value;
      totalAlarms := totalAlarms - {s.task};
      idleAlarms := idleAlarms - {s.task};
      storedSession := None;
      storedPayloads := storedPayloads - {s.task};
      if closeTab {
        tabs := tabs - {s.tab};
      }
      broadcasts := broadcasts + [Terminal(s.task, status)];
    }

    method CloseRetainedReplayTab() returns (closed: bool)
      modifies this
      ensures View() == CloseRetained(old(View())) && closed == old(retainedTab).Some?
    {
      closed := retainedTab.Some?;
      if closed {
        tabs := tabs - {retainedTab.value.tab};
      }
      retainedTab := None;
    }

    method HandleStartReplay(tab: int, task: int, domains: seq<string>, tabCreated: bool, persisted: bool)
      modifies this
      ensures View() == OnStart(old(View()), tab, task, domains, tabCreated, persisted)
    {
      var _ := CloseRetainedReplayTab();
      if activeReplay.Some? {
        CleanupReplaySession(Failure, true, None);
      }
      if !tabCreated {
        return;
      }
      if !persisted {
        return;
      }
      if storedSession.Some? {
        history := history.(dropped := history.dropped + {storedSession.value.task});
      }
      BeginSession(tab, task, domains);
    }

    /** From the created tab to the armed alarms. */
    method BeginSession(tab: int, task: int, domains: seq<string>)
      modifies this
      ensures
        var st := old(View());
        var s := Session(tab, task, st.now, 0, st.now, domains);
        View() == st.(active := Some(s), stored := Some(s), payloads := st.payloads + {task}, tabs := st.tabs + {tab},
                      totals := st.totals[task := st.now + TOTAL_TIMEOUT_MS], idles := st.idles + {task},
                      history := st.history.(started := st.history.started + {task}))
    {
      var session := Session(tab, task, now, 0, now, domains);
      tabs := tabs + {tab};
      storedSession := Some(session);
      storedPayloads := storedPayloads + {task};
      activeReplay := Some(session);
      totalAlarms := totalAlarms[task := now + TOTAL_TIMEOUT_MS];
      idleAlarms := idleAlarms + {task};
      history := history.(started := history.started + {task});
    }

    method HandleBootFailed(tab: int)
      modifies this
      ensures View() == OnBootFailed(old(View()), tab)
    {
      if activeReplay.Some? && activeReplay.value.tab == tab {
        CleanupReplaySession(Failure, true, None);
      }
    }

    method HandleProgress(tab: int)
      modifies this
      ensures View() == OnProgress(old(View()), tab)
    {
      if activeReplay.Some? && activeReplay.value.tab == tab {
        var s := activeReplay.value.(lastProgressAt := now);
        s := s.(hopCount := Max(0, s.hopCount - PROGRESS_CREDIT));
        activeReplay := Some(s);
        storedSession := Some(s);
        history := history.(progressed := Bump(history.progressed, s.task));
      }
    }

    method HandleComplete(from: Option<int>, status: Status, reported: Option<int>, retainOk: bool)
      modifies this
      ensures View() == OnComplete(old(View()), from, status, reported, retainOk)
    {
      if activeReplay.Some? && from == Some(activeReplay.value.tab) {
        if !TaskMatches(reported, activeReplay.value.task) {
          return;
        }
        var s := activeReplay.value;
        if status.Success? {
          if retainOk {
            retainedTab := Some(Retained(s.tab, s.task, now));
          }
          pendingCompletions := pendingCompletions + [Completion(s.task, retainOk)];
          history := history.(reported := history.reported + {s.task});
        } else {
          CleanupReplaySession(status, true, None);
        }
      } else if from.Some? {
        HandleCompleteElsewhere(from.value, status, reported, retainOk);
      } else {
        broadcasts := broadcasts + [Forwarded(status)];
      }
    }

    method HandleCompleteElsewhere(from: int, status: Status, reported: Option<int>, retainOk: bool)
      requires activeReplay.Some? ==> activeReplay.value.tab != from
      modifies this
      ensures View() == OnComplete(old(View()), Some(from), status, reported, retainOk)
    {
      if activeReplay.Some? {
        tabs := tabs - {from};
        return;
      }
      if retainedTab.Some? && retainedTab.value.tab == from {
        return;
      }
      if storedSession.None? || storedSession.value.tab != from || !TaskMatches(reported, storedSession.value.task) {
        tabs := tabs - {from};
        return;
      }
      var task := storedSession.value.task;
      if status.Success? {
        if retainOk {
          retainedTab := Some(Retained(from, task, now));
        }
        history := history.(reported := history.reported + {task});
      } else {
        tabs := tabs - {from};
      }
      storedSession := None;
      broadcasts := broadcasts + [Terminal(task, status)];
    }

    method FinishOldestSuccess()
      modifies this
      ensures View() == OnFinishSuccess(old(View()))
    {
      if pendingCompletions != [] {
        var completion := pendingCompletions[0];
        pendingCompletions := pendingCompletions[1..];
        if completion.retained {
          CleanupReplaySession(Success, false, None);
        } else {
          CleanupReplaySession(Failure, true, None);
        }
      }
    }

    method HandleTabUpdated(tab: int, host: Option<string>, injectOk: bool)
      modifies this
      ensures View() == OnTabUpdated(old(View()), tab, host, injectOk)
    {
      if activeReplay.None? || activeReplay.value.tab != tab || host.None? {
        return;
      }
      if !HostMatches(host.value, activeReplay.value.domains) {
        CleanupReplaySession(Failure, true, None);
        return;
      }
      var s := activeReplay.value.(hopCount := activeReplay.value.hopCount + 1);
      activeReplay := Some(s);
      if s.hopCount > HOP_LIMIT {
        CleanupReplaySession(Failure, true, None);
        return;
      }
      storedSession := Some(s);
      history := history.(accepted := Bump(history.accepted, s.task));
      if s.task !in storedPayloads {
        CleanupReplaySession(Failure, true, None);
        return;
      }
      if !injectOk {
        CleanupReplaySession(Failure, true, None);
      }
    }

    method HandleTabRemoved(tab: int)
      modifies this
      ensures View() == OnTabRemoved(old(View()), tab)
    {
      tabs := tabs - {tab};
      if activeReplay.Some? && activeReplay.value.tab == tab {
        CleanupReplaySession(Failure, false, None);
      }
    }

    /** The `onAlarm` dispatcher: `total` tells which of the two names matched. */
    method HandleAlarm(total: bool, task: int)
      modifies this
      ensures View() == if total then OnTotalAlarm(old(View()), task) else OnIdleAlarm(old(View()), task)
    {
      if total {
        totalAlarms := totalAlarms - {task};
      }
      var session := storedSession;
      if session.None? || session.value.task != task {
        return;
      }
      if total {
        CleanupReplaySession(Failure, true, session);
        return;
      }
      if now - session.value.lastProgressAt > IDLE_TIMEOUT_MS {
        CleanupReplaySession(Failure, true, session);
      }
    }

    method HandleAbort() returns (success: bool)
      modifies this
      ensures View() == OnAbort(old(View()))
      ensures success <==> old(activeReplay).Some? || old(retainedTab).Some?
    {
      if activeReplay.None? {
        success := CloseRetainedReplayTab();
        return;
      }
      CleanupReplaySession(Cancelled, true, None);
      success := true;
    }

    method LoseMemory()
      modifies this`activeReplay, this`pendingCompletions
      ensures View() == OnEvict(old(View()))
    {
      activeReplay, pendingCompletions := None, [];
    }

    /** The storage part of dropping a session that cannot be recovered. */
    method ClearReplayStorage(session: Session)
      requires storedSession == Some(session)
      modifies this
      ensures View() == DropStored(old(View()).(payloads := old(storedPayloads) - {session.task}))
    {
      storedSession := None;
      storedPayloads := storedPayloads - {session.task};
      history := history.(dropped := history.dropped + {session.task});
    }

    /** The session is back in memory; its total alarm is armed for the remaining time. */
    method Rearm(session: Session)
      modifies this
      ensures
        var st := old(View());
        var remaining := Max(0, TOTAL_TIMEOUT_MS - (st.now - session.startedAt));
        View() == st.(active := Some(session), totals := st.totals[session.task := st.now + Max(ALARM_MIN_MS, remaining)],
                      idles := st.idles + {session.task})
    {
      activeReplay := Some(session);
      var remaining := Max(0, TOTAL_TIMEOUT_MS - (now - session.startedAt));
      totalAlarms := totalAlarms[session.task := now + Max(ALARM_MIN_MS, remaining)];
      idleAlarms := idleAlarms + {session.task};
    }

    method ReleaseExpiredTab()
      modifies this
      ensures View() == ReleaseExpired(old(View()))
    {
      if retainedTab.Some? && now - retainedTab.value.at > RETAINED_TTL_MS {
        var _ := CloseRetainedReplayTab();
      }
    }

    /** Everything before the reaction to a tab that has finished loading. */
    method Revive() returns (revived: Option<Session>)
      requires activeReplay.None?
      modifies this
      ensures View() == OnRecover(old(View()), false, None, false) && revived == activeReplay
    {
      ReleaseExpiredTab();
      revived := storedSession;
      if revived.Some? {
        var session := revived.value;
        if now - session.startedAt > TOTAL_TIMEOUT_MS || session.tab !in tabs || session.domains == [] {
          ClearReplayStorage(session);
          revived := None;
        } else {
          Rearm(session);
        }
      }
    }

    method RecoverReplaySessionOnStartup(complete: bool, host: Option<string>, injectOk: bool)
      modifies this
      ensures View() == OnRecover(old(View()), complete, host, injectOk)
    {
      if activeReplay.Some? {
        return;
      }
      RecoverLoads(View(), host, injectOk);
      var revived := Revive();
      if revived.Some? && complete {
        HandleTabUpdated(revived.value.tab, host, injectOk);
      }
    }
  }
}
