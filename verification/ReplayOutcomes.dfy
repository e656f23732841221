/**
 What each event means for a replay: which loads it survives, what ends it and how, and what becomes of its tab. The
 host rule is stated by the labels of host names (extension/src/background.ts:1162-1166, 1353-1419).
 */
module ReplayOutcomes {
  import opened Wrappers
  import opened ReplaySession

  // ---------- hosts ----------

  /** The labels of a host name: what stands between its dots. */
  function Labels(host: string): (r: seq<string>)
    ensures r != []
  {
    if host == "" then [""]
    else
      var rest := Labels(host[1..]);
      if host[0] == '.' then [""] + rest else [[host[0]] + rest[0]] + rest[1..]
  }

  /** The host is the domain, or has more labels before those of the domain. */
  predicate Under(host: string, domain: string) {
    exists k | 0 <= k < |Labels(host)| :: Labels(host)[k..] == Labels(domain)
  }

  predicate OnDomain(host: string, domains: seq<string>) { exists d | d in domains :: Under(host, d) }

  lemma {:induction false} LabelsSeparate(a: string, b: string)
    requires Labels(a) == Labels(b)
    ensures a == b
  {
    if a != "" && b != "" {
      var restA, restB := Labels(a[1..]), Labels(b[1..]);
      assert |Labels(a)[0]| == 0 <==> a[0] == '.';
      assert |Labels(b)[0]| == 0 <==> b[0] == '.';
      if a[0] == '.' {
        assert restA == Labels(a)[1..] && restB == Labels(b)[1..];
      } else {
        assert a[0] == Labels(a)[0][0] && b[0] == Labels(b)[0][0];
        assert restA[0] == Labels(a)[0][1..] && restB[0] == Labels(b)[0][1..];
        assert restA == [restA[0]] + Labels(a)[1..] && restB == [restB[0]] + Labels(b)[1..];
      }
      LabelsSeparate(a[1..], b[1..]);
    }
  }

  lemma {:induction false} LabelsBelow(sub: string, domain: string)
    ensures Labels(sub + "." + domain) == Labels(sub) + Labels(domain)
  {
    var host := sub + "." + domain;
    if sub == "" {
      assert host[1..] == domain;
    } else {
      assert host[1..] == sub[1..] + "." + domain;
      LabelsBelow(sub[1..], domain);
    }
  }

  lemma {:induction false} EndsBelow(host: string, domain: string, k: nat)
    requires 0 < k < |Labels(host)| && Labels(host)[k..] == Labels(domain)
    ensures EndsWith(host, "." + domain)
  {
    var rest := Labels(host[1..]);
    if host[0] == '.' && k == 1 {
      assert rest == Labels(host)[1..];
      LabelsSeparate(host[1..], domain);
      assert host == "." + host[1..];
    } else {
      var j := if host[0] == '.' then k - 1 else k;
      assert rest[j..] == Labels(host)[k..];
      EndsBelow(host[1..], domain, j);
    }
  }

  /** The check of the listener, by labels. */
  lemma HostRule(host: string, domains: seq<string>)
    ensures HostMatches(host, domains) <==> OnDomain(host, domains)
  {
    forall d | d in domains ensures host == d || EndsWith(host, "." + d) <==> Under(host, d) {
      HostRuleFor(host, d);
    }
  }

  lemma HostRuleFor(host: string, domain: string)
    ensures host == domain || EndsWith(host, "." + domain) <==> Under(host, domain)
  {
    if host == domain {
      assert Labels(host)[0..] == Labels(domain);
    } else if EndsWith(host, "." + domain) {
      var sub := host[..|host| - |domain| - 1];
      assert host == sub + "." + domain;
      LabelsBelow(sub, domain);
      assert Labels(host)[|Labels(sub)|..] == Labels(domain);
    } else if Under(host, domain) {
      var k :| 0 <= k < |Labels(host)| && Labels(host)[k..] == Labels(domain);
      if k == 0 {
        LabelsSeparate(host, domain);
      } else {
        EndsBelow(host, domain, k);
      }
    }
  }

  // ---------- loads ----------

  /** The replay may go on after its tab has loaded a page of this host. */
  predicate Welcome(s: Session, payloads: set<int>, host: string, injectOk: bool) {
    OnDomain(host, s.domains) && s.hopCount < 50 && s.task in payloads && injectOk
  }

  /** After a finished load in its tab the replay goes on, one hop further, exactly when the host is on one of its
      domains, fewer than fifty hops are used up, its payload is stored and the runner can be injected; otherwise its
      task is told a failure and its tab is closed. A load in another tab, or of no host, changes nothing. */
  lemma LoadDecides(st: State, tab: int, host: Option<string>, injectOk: bool)
    ensures
      var next := Step(st, TabUpdated(tab, host, injectOk));
      if st.active.None? || st.active.value.tab != tab || host.None? then next == st
      else
        var s := st.active.value;
        var hopped := Some(s.(hopCount := s.hopCount + 1));
        if Welcome(s, st.payloads, host.value, injectOk) then
          && next == st.(active := hopped, stored := hopped, history := next.history)
          && Count(next.history.accepted, s.task) == Count(st.history.accepted, s.task) + 1
        else
          next == st.(active := None, stored := None, payloads := st.payloads - {s.task}, totals := st.totals - {s.task},
                      idles := st.idles - {s.task}, tabs := st.tabs - {tab}, log := st.log + [Terminal(s.task, Failure)],
                      history := next.history)
  {
    if st.active.Some? && host.Some? {
      HostRule(host.value, st.active.value.domains);
    }
  }

  predicate Starts(e: Event, task: int) { e.StartReplay? && e.tabCreated && e.persisted && e.task == task }

  /** The host whose finished load the event reports or finds. */
  function LoadedHost(e: Event): Option<string> {
    match e
    case TabUpdated(_, host, _) => host
    case Recover(complete, host, _) => if complete then host else None
    case _ => None
  }

  /** The session's domains are those its task was started with. */
  predicate Begun(events: seq<Event>, s: Session) { exists e | e in events :: Starts(e, s.task) && e.domains == s.domains }

  predicate AllBegun(events: seq<Event>, st: State) {
    && (st.active.Some? ==> Begun(events, st.active.value))
    && (st.stored.Some? ==> Begun(events, st.stored.value))
  }

  lemma StepBegun(events: seq<Event>, st: State, e: Event)
    requires AllBegun(events, st)
    ensures AllBegun(events + [e], Step(st, e))
  {
    forall s | Begun(events, s) ensures Begun(events + [e], s) {
      var b :| b in events && Starts(b, s.task) && b.domains == s.domains;
      assert b in events + [e];
    }
    assert e in events + [e];
  }

  lemma {:induction false} RunBegun(events: seq<Event>)
    ensures AllBegun(events, Run(INITIAL, events))
  {
    if events != [] {
      var n := |events| - 1;
      RunBegun(events[..n]);
      StepBegun(events[..n], Run(INITIAL, events[..n]), events[n]);
      assert events[..n] + [events[n]] == events;
    }
  }

  lemma LoadDecidesAccepted(st: State, tab: int, host: Option<string>, injectOk: bool, task: int)
    ensures Count(OnTabUpdated(st, tab, host, injectOk).history.accepted, task) != Count(st.history.accepted, task)
            ==> host.Some? && st.active.Some? && st.active.value.task == task && OnDomain(host.value, st.active.value.domains)
  {
    if st.active.Some? && host.Some? {
      HostRule(host.value, st.active.value.domains);
    }
  }

  lemma OthersAcceptNothing(st: State, e: Event)
    requires !e.TabUpdated? && !e.Recover?
    ensures Step(st, e).history.accepted == st.history.accepted
  {
  }

  lemma RecoveryAccepts(st: State, complete: bool, host: Option<string>, injectOk: bool, task: int)
    ensures Count(OnRecover(st, complete, host, injectOk).history.accepted, task) != Count(st.history.accepted, task)
            ==> && complete && host.Some? && st.stored.Some? && st.stored.value.task == task
                && OnDomain(host.value, st.stored.value.domains)
  {
    if st.active.None? {
      RecoverLoads(st, host, injectOk);
      var armed := OnRecover(st, false, host, injectOk);
      if armed.active.Some? {
        LoadDecidesAccepted(armed, armed.active.value.tab, host, injectOk, task);
      }
    }
  }

  lemma AcceptedStep(st: State, e: Event, task: int)
    ensures Count(Step(st, e).history.accepted, task) != Count(st.history.accepted, task)
            ==> && LoadedHost(e).Some?
                && ((st.active.Some? && st.active.value.task == task && OnDomain(LoadedHost(e).value, st.active.value.domains))
                    || (st.stored.Some? && st.stored.value.task == task
                        && OnDomain(LoadedHost(e).value, st.stored.value.domains)))
  {
    match e
    case TabUpdated(tab, host, injectOk) => LoadDecidesAccepted(st, tab, host, injectOk, task);
    case Recover(complete, host, injectOk) => RecoveryAccepts(st, complete, host, injectOk, task);
    case _ => OthersAcceptNothing(st, e);
  }

  /** In every run: the event that makes a task accept a navigation is a finished load of a host on one of the domains
      that the task was started with. */
  lemma NavigationsStayOnDomains(events: seq<Event>, task: int)
    requires events != []
    ensures
      var n := |events| - 1;
      Count(Run(INITIAL, events).history.accepted, task) != Count(Run(INITIAL, events[..n]).history.accepted, task)
      ==> LoadedHost(events[n]).Some?
          && exists e | e in events[..n] :: Starts(e, task) && OnDomain(LoadedHost(events[n]).value, e.domains)
  {
    var n := |events| - 1;
    RunBegun(events[..n]);
    AcceptedStep(Run(INITIAL, events[..n]), events[n], task);
  }

  // ---------- what ends a replay ----------

  predicate InMemory(st: State, task: int) { st.active.Some? && st.active.value.task == task }

  /** The tab replays the task, as far as the worker's memory goes. */
  predicate Replaying(st: State, tab: int, task: int) { InMemory(st, task) && st.active.value.tab == tab }

  predicate Persisted(st: State, task: int) { st.stored.Some? && st.stored.value.task == task }

  /** A report that names no task is taken for the tab's own. */
  predicate Names(reported: Option<int>, task: int) { reported.Some? ==> reported.value == task }

  /** What a recovery finds: the persisted session is at most thirty minutes old, its tab is open and not one whose
      retention has just run out, and its hosts are known. */
  predicate Recoverable(st: State) {
    && st.active.None? && st.stored.Some? && st.now <= st.stored.value.startedAt + 1_800_000
    && st.stored.value.tab in st.tabs && st.stored.value.domains != []
    && !(st.retained.Some? && st.retained.value.tab == st.stored.value.tab && st.now > st.retained.value.at + 1_800_000)
  }

  /** The event tells that the task is over, with this status. */
  predicate Over(st: State, e: Event, task: int, status: Status) {
    match e
    case StartReplay(_, _, _, _, _) => InMemory(st, task) && status == Failure
    case BootFailed(tab) => Replaying(st, tab, task) && status == Failure
    case Complete(Some(tab), result, reported, _) =>
      && status == result && Names(reported, task)
      && if st.active.Some? then Replaying(st, tab, task) && result != Success
         else Persisted(st, task) && st.stored.value.tab == tab && (st.retained.Some? ==> st.retained.value.tab != tab)
    case FinishSuccess =>
      InMemory(st, task) && st.pending != [] && status == if st.pending[0].retained then Success else Failure
    case TabUpdated(tab, Some(host), injectOk) =>
      Replaying(st, tab, task) && !Welcome(st.active.value, st.payloads, host, injectOk) && status == Failure
    case TabRemoved(tab) => Replaying(st, tab, task) && status == Failure
    case TotalAlarm(named) => named == task && Persisted(st, task) && status == Failure
    case IdleAlarm(named) =>
      named == task && Persisted(st, task) && st.now > st.stored.value.lastProgressAt + 120_000 && status == Failure
    case Abort => InMemory(st, task) && status == Cancelled
    case Recover(true, Some(host), injectOk) =>
      && Recoverable(st) && Persisted(st, task)
      && !Welcome(st.stored.value, st.payloads, host, injectOk) && status == Failure
    case _ => false
  }

  lemma OneMoreTold(log: seq<Broadcast>)
    ensures forall a: Broadcast, b: Broadcast :: log + [a] == log + [b] <==> a == b
    ensures forall a: Broadcast :: log + [a] != log
  {
    forall a: Broadcast, b: Broadcast ensures log + [a] == log + [b] <==> a == b {
      assert (log + [a])[|log|] == a && (log + [b])[|log|] == b;
    }
    forall a: Broadcast ensures log + [a] != log {
      assert |log + [a]| != |log|;
    }
  }

  lemma LoadOver(st: State, tab: int, host: Option<string>, injectOk: bool, task: int, status: Status)
    ensures
      var next := OnTabUpdated(st, tab, host, injectOk);
      && (next.log == st.log + [Terminal(task, status)]
          <==> && host.Some? && Replaying(st, tab, task) && status == Failure
               && !Welcome(st.active.value, st.payloads, host.value, injectOk))
      && (next.log == st.log || next.log == st.log + [Terminal(st.active.value.task, Failure)])
  {
    LoadDecides(st, tab, host, injectOk);
    OneMoreTold(st.log);
  }

  lemma RecoverOver(st: State, complete: bool, host: Option<string>, injectOk: bool, task: int, status: Status)
    ensures OnRecover(st, complete, host, injectOk).log == st.log + [Terminal(task, status)]
            <==> Over(st, Recover(complete, host, injectOk), task, status)
  {
    OneMoreTold(st.log);
    if st.active.None? {
      RecoverLoads(st, host, injectOk);
      var armed := OnRecover(st, false, host, injectOk);
      assert armed.log == st.log;
      assert armed.active.Some? <==> Recoverable(st);
      if armed.active.Some? {
        assert armed.active == st.stored && armed.payloads == st.payloads;
        LoadOver(armed, armed.active.value.tab, host, injectOk, task, status);
      }
    }
  }

  lemma CompleteOver(st: State, e: Event, task: int, status: Status)
    requires e.Complete?
    ensures Step(st, e).log == st.log + [Terminal(task, status)] <==> Over(st, e, task, status)
  {
    OneMoreTold(st.log);
    if e.from.None? {
      assert Step(st, e).log == st.log + [Forwarded(e.status)];
    } else if st.active.Some? {
      assert Step(st, e).log in {st.log, st.log + [Terminal(st.active.value.task, e.status)]};
    }
  }

  lemma AlarmOver(st: State, e: Event, task: int, status: Status)
    requires e.TotalAlarm? || e.IdleAlarm?
    ensures Step(st, e).log == st.log + [Terminal(task, status)] <==> Over(st, e, task, status)
  {
    OneMoreTold(st.log);
  }

  lemma HandlerOver(st: State, e: Event, task: int, status: Status)
    requires !e.Complete? && !e.TabUpdated? && !e.Recover? && !e.TotalAlarm? && !e.IdleAlarm?
    ensures Step(st, e).log == st.log + [Terminal(task, status)] <==> Over(st, e, task, status)
  {
    OneMoreTold(st.log);
  }

  /** A task is told that it is over, and how, exactly by these events. */
  lemma OverWhen(st: State, e: Event, task: int, status: Status)
    ensures Step(st, e).log == st.log + [Terminal(task, status)] <==> Over(st, e, task, status)
  {
    match e
    case TabUpdated(tab, host, injectOk) => LoadOver(st, tab, host, injectOk, task, status);
    case Recover(complete, host, injectOk) => RecoverOver(st, complete, host, injectOk, task, status);
    case Complete(_, _, _, _) => CompleteOver(st, e, task, status);
    case TotalAlarm(_) => AlarmOver(st, e, task, status);
    case IdleAlarm(_) => AlarmOver(st, e, task, status);
    case _ => HandlerOver(st, e, task, status);
  }

  /** The session that the event ends. */
  function Ended(st: State): Session
    requires st.active.Some? || st.stored.Some?
  {
    if st.active.Some? then st.active.value else st.stored.value
  }

  /** What is over is no longer persisted, nor in memory unless an alarm ended it; its tab stays open after a success
      and is closed otherwise. No other tab is touched, but by a recovery, which may release a retained one. */
  lemma OverClosesTab(st: State, e: Event, task: int, status: Status)
    requires Over(st, e, task, status) && (st.active.Some? ==> st.stored == st.active) && !e.StartReplay?
    ensures
      var s, next := Ended(st), Step(st, e);
      && s.task == task && next.stored == None
      && next.active == (if e.TotalAlarm? || e.IdleAlarm? then st.active else None)
      && (if e.Recover? then s.tab !in next.tabs
          else next.tabs == if status.Success? then st.tabs else st.tabs - {s.tab})
  {
    match e
    case TabUpdated(tab, host, injectOk) => LoadDecides(st, tab, host, injectOk);
    case Recover(complete, host, injectOk) =>
      RecoverLoads(st, host, injectOk);
      LoadDecides(OnRecover(st, false, host, injectOk), st.stored.value.tab, host, injectOk);
    case _ =>
  }

  // ---------- what starts and feeds one ----------

  /** A start first ends what was there, the retained tab included; then it takes effect exactly when its tab was
      created and its session persisted: a new session in memory and in storage, with its payload, no hops, and the
      total alarm due in thirty minutes. */
  lemma StartInstalls(st: State, tab: int, task: int, domains: seq<string>, tabCreated: bool, persisted: bool)
    ensures
      var next := Step(st, StartReplay(tab, task, domains, tabCreated, persisted));
      var gone := (if st.active.Some? then {st.active.value.tab} else {})
                 + if st.retained.Some? then {st.retained.value.tab} else {};
      && next.retained == None
      && if tabCreated && persisted then
           && next.active == next.stored == Some(Session(tab, task, st.now, 0, st.now, domains))
           && task in next.payloads && task in next.idles
           && task in next.totals && next.totals[task] == st.now + 1_800_000
           && next.tabs == (st.tabs - gone) + {tab}
         else next.active == None && next.tabs == st.tabs - gone
  {
  }

  /** Progress from the tab of the session in memory pays back ten hops, or all of them, and counts as activity now,
      in memory and in storage; from any other tab it changes nothing. */
  lemma ProgressPays(st: State, tab: int)
    ensures
      var next := Step(st, Progress(tab));
      if st.active.None? || st.active.value.tab != tab then next == st
      else
        var s := st.active.value;
        var paid := Some(s.(hopCount := if s.hopCount <= 10 then 0 else s.hopCount - 10, lastProgressAt := st.now));
        next == st.(active := paid, stored := paid, history := next.history)
  {
  }

  // ---------- reports, alarms and recoveries ----------

  /** What a report from a tab comes to. A success of the replay in memory waits for its cleanup, its tab retained if that
      worked; one of the persisted replay is over at once. A report for another task from the replay's own tab, or from
      the retained tab, changes nothing; any other tab that reports is closed. */
  lemma ReportAnswers(st: State, tab: int, status: Status, reported: Option<int>, retainOk: bool)
    ensures
      var next := Step(st, Complete(Some(tab), status, reported, retainOk));
      if st.active.Some? && st.active.value.tab == tab then
        var task := st.active.value.task;
        if !Names(reported, task) then next == st
        else
          status.Success? ==>
            next == st.(pending := st.pending + [Completion(task, retainOk)], history := next.history,
                        retained := if retainOk then Some(Retained(tab, task, st.now)) else st.retained)
      else if st.active.Some? then next == st.(tabs := st.tabs - {tab})
      else if st.retained.Some? && st.retained.value.tab == tab then next == st
      else if st.stored.Some? && st.stored.value.tab == tab && Names(reported, st.stored.value.task) then
        && next.stored == None && next.tabs == (if status.Success? then st.tabs else st.tabs - {tab})
        && next.retained == (if status.Success? && retainOk then Some(Retained(tab, st.stored.value.task, st.now))
                             else st.retained)
      else next == st.(tabs := st.tabs - {tab})
  {
  }

  /** The cleanups after success reports come in the order of the reports. */
  lemma CleanupsAreInOrder(st: State)
    ensures
      var next := Step(st, FinishSuccess);
      if st.pending == [] then next == st
      else next.pending == st.pending[1..] && next.active == None && next.retained == st.retained
  {
  }

  lemma AlarmFiresOnce(st: State, task: int, ms: nat)
    ensures
      var fired := Step(st, TotalAlarm(task));
      && task !in fired.totals
      && forall t | t in st.totals && t != task :: t in fired.totals && fired.totals[t] == st.totals[t]
    ensures Step(st, Tick(ms)) == st.(now := st.now + ms)
  {
  }

  /** A recovery makes a recoverable session the one in memory, with both alarms armed, the total one for what is left
      of thirty minutes and for thirty seconds at least; any other session is dropped with its payload. */
  lemma RecoveryAnswers(st: State, host: Option<string>, injectOk: bool)
    requires st.active.None? && st.stored.Some?
    ensures
      var s, next := st.stored.value, Step(st, Recover(false, host, injectOk));
      var left := s.startedAt + 1_800_000 - st.now;
      if Recoverable(st) then
        && next.active == next.stored == st.stored && next.payloads == st.payloads
        && s.task in next.idles && s.task in next.totals
        && next.totals[s.task] == st.now + (if left < 30_000 then 30_000 else left)
      else next.active == next.stored == None && next.payloads == st.payloads - {s.task}
  {
  }
}
