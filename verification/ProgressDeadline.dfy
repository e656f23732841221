/**
 The progress-aware wait of extension/src/background.ts: a deadline that strict forward progress
 extends, up to an absolute ceiling, and the loop that polls a job under it.
 */
module ProgressDeadline {
  import opened Wrappers

  const LLM_FETCH_TIMEOUT_MS := 180_000
  const LLM_PROGRESS_STALL_TIMEOUT_MS := 600_000
  const MAX_TOTAL_MS := 30 * 60 * 1000
  const REQUIREMENT_POLL_INTERVAL_MS := 750

  /** A progress report and the clock when it was observed. */
  datatype Report = Report(at: int, completed: int)

  function Min(a: int, b: int): int { if a <= b then a else b }

  // ---------- what a history of reports means ----------

  /** The most chunks reported so far; -1 before any report. */
  function Best(history: seq<Report>): int {
    if history == [] then -1
    else
      var last, before := history[|history| - 1], Best(history[..|history| - 1]);
      if last.completed > before then last.completed else before
  }

  /** Report `k` is forward progress: it beats every report before it. */
  predicate Strict(history: seq<Report>, k: nat)
    requires k < |history|
  {
    history[k].completed > Best(history[..k])
  }

  /** The last strict report among the first `n`, if there is one. */
  function LastStrictBelow(history: seq<Report>, n: nat): (r: Option<nat>)
    requires n <= |history|
    ensures r.Some? ==> r.value < n
  {
    if n == 0 then None
    else if Strict(history, n - 1) then Some(n - 1)
    else LastStrictBelow(history, n - 1)
  }

  function LastStrict(history: seq<Report>): Option<nat> { LastStrictBelow(history, |history|) }

  lemma {:induction false} LastStrictIsLast(history: seq<Report>, n: nat, k: nat)
    requires k < n <= |history| && Strict(history, k)
    ensures LastStrictBelow(history, n).Some? && k <= LastStrictBelow(history, n).value
  {
    if k < n - 1 {
      LastStrictIsLast(history, n - 1, k);
    }
  }

  lemma {:induction false} LaterReportsDoNotMatter(history: seq<Report>, longer: seq<Report>, n: nat)
    requires n <= |history| && history <= longer
    ensures LastStrictBelow(history, n) == LastStrictBelow(longer, n)
  {
    if n > 0 {
      assert history[..n - 1] == longer[..n - 1];
      LaterReportsDoNotMatter(history, longer, n - 1);
    }
  }

  datatype Settings = Settings(startedAt: int, baseTimeoutMs: int, stallTimeoutMs: int, maxTotalMs: int)

  function Ceiling(s: Settings): int { s.startedAt + s.maxTotalMs }

  /** The base timeout until there is progress, then one stall window past the last progress; never past the ceiling. */
  function DeadlineAfter(s: Settings, history: seq<Report>): int {
    match LastStrict(history)
    case None => Min(s.startedAt + s.baseTimeoutMs, Ceiling(s))
    case Some(k) => Min(history[k].at + s.stallTimeoutMs, Ceiling(s))
  }

  ghost predicate ClockOrder(history: seq<Report>) {
    forall i, j | 0 <= i < j < |history| :: history[i].at <= history[j].at
  }

  /**
   A strict report at time t keeps the wait open until min(t + stall, start + maxTotal), whatever is
   reported after it, and no history moves the deadline past the ceiling.
   */
  lemma StrictReportKeepsOpen(s: Settings, history: seq<Report>, k: nat)
    requires ClockOrder(history) && k < |history| && Strict(history, k)
    ensures Min(history[k].at + s.stallTimeoutMs, Ceiling(s)) <= DeadlineAfter(s, history) <= Ceiling(s)
  {
    LastStrictIsLast(history, |history|, k);
    var last := LastStrict(history).value;
    assert history[k].at <= history[last].at;
  }

  /** Repeated or falling counts change nothing: the deadline is that of the strict reports alone. */
  lemma StaleReportIgnored(s: Settings, history: seq<Report>, report: Report)
    requires report.completed <= Best(history)
    ensures DeadlineAfter(s, history + [report]) == DeadlineAfter(s, history)
    ensures Best(history + [report]) == Best(history)
  {
    var longer := history + [report];
    assert longer[..|history|] == history;
    assert !Strict(longer, |history|);
    LaterReportsDoNotMatter(history, longer, |history|);
  }

  lemma StrictReportExtends(s: Settings, history: seq<Report>, report: Report)
    requires report.completed > Best(history)
    ensures DeadlineAfter(s, history + [report]) == Min(report.at + s.stallTimeoutMs, Ceiling(s))
    ensures Best(history + [report]) == report.completed
  {
    var longer := history + [report];
    assert longer[..|history|] == history;
    assert Strict(longer, |history|);
  }

  // ---------- the closure ----------

  class Deadline {
    const stallTimeoutMs: int
    const absoluteDeadline: int
    var deadline: int
    var lastCompleted: int
    ghost const settings: Settings
    ghost var history: seq<Report>

    ghost predicate Valid()
      reads this
    {
      && stallTimeoutMs == settings.stallTimeoutMs
      && absoluteDeadline == Ceiling(settings)
      && lastCompleted == Best(history)
      && deadline == DeadlineAfter(settings, history)
    }

    /** `createProgressDeadline`; `now` is the clock at creation. */
    constructor (now: int, baseTimeoutMs: int, stallTimeoutMs: int, maxTotalMs: int := MAX_TOTAL_MS)
      ensures Valid() && history == []
      ensures settings == Settings(now, baseTimeoutMs, stallTimeoutMs, maxTotalMs)
    {
      this.stallTimeoutMs := stallTimeoutMs;
      absoluteDeadline := now + maxTotalMs;
      deadline := Min(now + baseTimeoutMs, now + maxTotalMs);
      lastCompleted := -1;
      settings := Settings(now, baseTimeoutMs, stallTimeoutMs, maxTotalMs);
      history := [];
    }

    method Expired(now: int) returns (r: bool)
      requires Valid()
      ensures r <==> now >= DeadlineAfter(settings, history)
    {
      r := now >= deadline;
    }

    method Observe(now: int, completed: int)
      requires Valid()
      modifies this
      ensures Valid() && history == old(history) + [Report(now, completed)]
    {
      if completed > lastCompleted {
        StrictReportExtends(settings, history, Report(now, completed));
        lastCompleted := completed;
        deadline := Min(now + stallTimeoutMs, absoluteDeadline);
      } else {
        StaleReportIgnored(settings, history, Report(now, completed));
      }
      history := history + [Report(now, completed)];
    }
  }

  // ---------- the poll loop ----------

  datatype Reply =
    | NoJob
    | Terminal
    | Running(chunkCount: Option<int>, completedChunks: Option<int>)
    | RequestFailed

  /** One round: the clock at the deadline check, what the server answered, and the clock at the answer. */
  datatype Round = Round(asked: int, reply: Reply, answered: int)

  datatype Outcome = Finished | MissingJob | NetworkError | TimedOut | StillPolling

  /** The clock never runs backwards and every round sleeps for the poll interval. */
  ghost predicate Paced(start: int, rounds: seq<Round>) {
    && (forall i | 0 <= i < |rounds| :: start <= rounds[i].asked <= rounds[i].answered)
    && (forall i | 0 < i < |rounds| :: rounds[i].asked >= rounds[i - 1].answered + REQUIREMENT_POLL_INTERVAL_MS)
  }

  lemma {:induction false} PacedClock(start: int, rounds: seq<Round>, i: nat)
    requires Paced(start, rounds) && i < |rounds|
    ensures rounds[i].asked >= start + REQUIREMENT_POLL_INTERVAL_MS * i
  {
    if i > 0 {
      PacedClock(start, rounds, i - 1);
    }
  }

  function GetOr(value: Option<int>, default: int): int { if value.Some? then value.value else default }

  /** Only a running job that knows its chunk count reports progress. */
  function Reports(round: Round): seq<Report> {
    if round.reply.Running? && GetOr(round.reply.chunkCount, 0) > 0
    then [Report(round.answered, GetOr(round.reply.completedChunks, 0))] else []
  }

  /** The reports in the first `n` rounds. */
  function Observations(rounds: seq<Round>, n: nat): seq<Report>
    requires n <= |rounds|
  {
    if n == 0 then [] else Observations(rounds, n - 1) + Reports(rounds[n - 1])
  }

  /** Is the wait still open when round `i` is about to start? */
  predicate StillOpen(s: Settings, rounds: seq<Round>, i: nat)
    requires i < |rounds|
  {
    rounds[i].asked < DeadlineAfter(s, Observations(rounds, i))
  }

  /** Does the loop end in this round? */
  function EndOf(round: Round, open: bool): Option<Outcome> {
    if !open then Some(TimedOut)
    else
      match round.reply
      case RequestFailed => Some(NetworkError)
      case NoJob => Some(MissingJob)
      case Terminal => Some(Finished)
      case Running(_, _) => None
  }

  /** How the poll loop ends when it stands before round `i`, and how many requests it has made by then. */
  function Run(s: Settings, rounds: seq<Round>, i: nat): (Outcome, nat)
    requires i <= |rounds|
    decreases |rounds| - i
  {
    if i == |rounds| then (StillPolling, i)
    else
      match EndOf(rounds[i], StillOpen(s, rounds, i))
      case Some(outcome) => (outcome, if outcome.TimedOut? then i else i + 1)
      case None => Run(s, rounds, i + 1)
  }

  /** From round `i` up to round `n` the wait was open and the job was running. */
  predicate OpenRunning(s: Settings, rounds: seq<Round>, i: nat, n: nat)
    requires i <= n <= |rounds|
    decreases n - i
  {
    i < n ==> StillOpen(s, rounds, i) && rounds[i].reply.Running? && OpenRunning(s, rounds, i + 1, n)
  }

  lemma DeadlineBelowCeiling(s: Settings, history: seq<Report>)
    ensures DeadlineAfter(s, history) <= Ceiling(s)
  {
  }

  /** Whatever the server reports, the loop makes at most 30 min / 750 ms = 2400 requests. */
  lemma {:induction false} PollBound(s: Settings, rounds: seq<Round>, i: nat)
    requires s.maxTotalMs == MAX_TOTAL_MS && Paced(s.startedAt, rounds) && i <= |rounds| && i <= 2400
    ensures Run(s, rounds, i).1 <= 2400
    decreases |rounds| - i
  {
    if i < |rounds| && StillOpen(s, rounds, i) {
      PacedClock(s.startedAt, rounds, i);
      DeadlineBelowCeiling(s, Observations(rounds, i));
      if rounds[i].reply.Running? {
        assert EndOf(rounds[i], true).None?;
        PollBound(s, rounds, i + 1);
      }
    }
  }

  /** The wait ran out before round `n`, and every round since `i` found it open and the job running. */
  predicate ClosedAt(s: Settings, rounds: seq<Round>, i: nat, n: nat)
    requires i <= n <= |rounds|
  {
    n < |rounds| && !StillOpen(s, rounds, n) && OpenRunning(s, rounds, i, n)
  }

  lemma ClosedLater(s: Settings, rounds: seq<Round>, i: nat, n: nat)
    requires i < n <= |rounds|
    ensures ClosedAt(s, rounds, i, n)
            <==> EndOf(rounds[i], StillOpen(s, rounds, i)).None? && ClosedAt(s, rounds, i + 1, n)
  {
    var open := StillOpen(s, rounds, i);
    assert EndOf(rounds[i], open).None? <==> open && rounds[i].reply.Running?;
  }

  lemma ClosedNow(s: Settings, rounds: seq<Round>, i: nat)
    requires i <= |rounds|
    ensures ClosedAt(s, rounds, i, i) <==> i < |rounds| && !StillOpen(s, rounds, i)
  {
  }

  /** What standing before round `i` comes to. */
  lemma RunStep(s: Settings, rounds: seq<Round>, i: nat)
    requires i < |rounds|
    ensures
      match EndOf(rounds[i], StillOpen(s, rounds, i))
      case Some(outcome) =>
        Run(s, rounds, i).0 == outcome && Run(s, rounds, i).1 == (if outcome.TimedOut? then i else i + 1)
        && (outcome.TimedOut? <==> !StillOpen(s, rounds, i))
      case None => Run(s, rounds, i) == Run(s, rounds, i + 1)
  {
  }

  lemma EndedHere(s: Settings, rounds: seq<Round>, i: nat)
    requires i < |rounds| && EndOf(rounds[i], StillOpen(s, rounds, i)).Some?
    ensures i <= Run(s, rounds, i).1 <= |rounds|
    ensures Run(s, rounds, i).0.TimedOut? <==> ClosedAt(s, rounds, i, Run(s, rounds, i).1)
  {
    RunStep(s, rounds, i);
    ClosedNow(s, rounds, i);
    ClosedLater(s, rounds, i, i + 1);
  }

  lemma RunsOn(s: Settings, rounds: seq<Round>, i: nat)
    requires i < |rounds| && EndOf(rounds[i], StillOpen(s, rounds, i)).None?
    requires i + 1 <= Run(s, rounds, i + 1).1 <= |rounds|
    requires Run(s, rounds, i + 1).0.TimedOut? <==> ClosedAt(s, rounds, i + 1, Run(s, rounds, i + 1).1)
    ensures i <= Run(s, rounds, i).1 <= |rounds|
    ensures Run(s, rounds, i).0.TimedOut? <==> ClosedAt(s, rounds, i, Run(s, rounds, i).1)
  {
    RunStep(s, rounds, i);
    ClosedLater(s, rounds, i, Run(s, rounds, i + 1).1);
  }

  /** The loop gives up only at a deadline check that found the wait closed, after nothing but running replies. */
  lemma {:induction false} TimesOutOnlyWhenClosed(s: Settings, rounds: seq<Round>, i: nat)
    requires i <= |rounds|
    ensures i <= Run(s, rounds, i).1 <= |rounds|
    ensures Run(s, rounds, i).0.TimedOut? <==> ClosedAt(s, rounds, i, Run(s, rounds, i).1)
    decreases |rounds| - i
  {
    if i == |rounds| {
      ClosedNow(s, rounds, i);
    } else if EndOf(rounds[i], StillOpen(s, rounds, i)).Some? {
      EndedHere(s, rounds, i);
    } else {
      TimesOutOnlyWhenClosed(s, rounds, i + 1);
      RunsOn(s, rounds, i);
    }
  }

  // ---------- which replies keep the loop open ----------

  /** The reply of a running job that knows how many chunks it has. */
  predicate Counted(round: Round) {
    match round.reply
    case Running(Some(chunks), _) => chunks > 0
    case _ => false
  }

  /** How many of them it says are done. */
  function Done(round: Round): int
    requires Counted(round)
  {
    match round.reply.completedChunks
    case None => 0
    case Some(n) => n
  }

  /** The reply counts more chunks done than every one before it. */
  predicate Advances(rounds: seq<Round>, k: nat)
    requires k < |rounds|
  {
    && Counted(rounds[k]) && Done(rounds[k]) >= 0
    && forall i | 0 <= i < k && Counted(rounds[i]) :: Done(rounds[i]) < Done(rounds[k])
  }

  lemma BestAppended(history: seq<Report>, report: Report)
    ensures Best(history + [report]) == if report.completed > Best(history) then report.completed else Best(history)
  {
    assert (history + [report])[..|history|] == history;
  }

  lemma ReportsAre(round: Round)
    ensures Reports(round) == if Counted(round) then [Report(round.answered, Done(round))] else []
  {
  }

  lemma BestStep(rounds: seq<Round>, n: nat)
    requires n < |rounds|
    ensures
      var best := Best(Observations(rounds, n));
      Best(Observations(rounds, n + 1))
      == if Counted(rounds[n]) && Done(rounds[n]) > best then Done(rounds[n]) else best
  {
    ReportsAre(rounds[n]);
    var history := Observations(rounds, n);
    if Counted(rounds[n]) {
      BestAppended(history, Report(rounds[n].answered, Done(rounds[n])));
    } else {
      assert history + [] == history;
    }
  }

  /** The most chunks that the first `n` rounds counted, or -1. */
  function Most(rounds: seq<Round>, n: nat): (most: int)
    requires n <= |rounds|
    ensures most >= -1 && forall i | 0 <= i < n && Counted(rounds[i]) :: Done(rounds[i]) <= most
    ensures most == -1 || exists i | 0 <= i < n && Counted(rounds[i]) :: Done(rounds[i]) == most
  {
    if n == 0 then -1
    else
      var before := Most(rounds, n - 1);
      if Counted(rounds[n - 1]) && Done(rounds[n - 1]) > before then Done(rounds[n - 1]) else before
  }

  lemma {:induction false} BestIsMost(rounds: seq<Round>, n: nat)
    requires n <= |rounds|
    ensures Best(Observations(rounds, n)) == Most(rounds, n)
  {
    if n > 0 {
      var m := n - 1;
      BestIsMost(rounds, m);
      BestStep(rounds, m);
      assert Most(rounds, m + 1) == Best(Observations(rounds, m + 1));
    }
  }

  lemma AdvancesIs(rounds: seq<Round>, k: nat)
    requires k < |rounds|
    ensures Advances(rounds, k) <==> Counted(rounds[k]) && Done(rounds[k]) > Best(Observations(rounds, k))
  {
    BestIsMost(rounds, k);
  }

  lemma DeadlineStep(s: Settings, rounds: seq<Round>, n: nat)
    requires n < |rounds|
    ensures DeadlineAfter(s, Observations(rounds, n + 1))
            == if Advances(rounds, n) then Min(rounds[n].answered + s.stallTimeoutMs, Ceiling(s))
               else DeadlineAfter(s, Observations(rounds, n))
  {
    AdvancesIs(rounds, n);
    ReportsAre(rounds[n]);
    var history := Observations(rounds, n);
    if Advances(rounds, n) {
      StrictReportExtends(s, history, Report(rounds[n].answered, Done(rounds[n])));
    } else if Counted(rounds[n]) {
      StaleReportIgnored(s, history, Report(rounds[n].answered, Done(rounds[n])));
    } else {
      assert history + [] == history;
    }
  }

  predicate NoneAdvances(rounds: seq<Round>, from: nat, n: nat)
    requires n <= |rounds|
  {
    forall i | from <= i < n :: !Advances(rounds, i)
  }

  /** The deadlines before each round. */
  function Deadlines(s: Settings, rounds: seq<Round>): (r: seq<int>)
    ensures |r| == |rounds| + 1
  {
    seq(|rounds| + 1, n requires 0 <= n <= |rounds| => DeadlineAfter(s, Observations(rounds, n)))
  }

  predicate ExtendsAt(s: Settings, rounds: seq<Round>, deadlines: seq<int>, n: nat)
    requires |deadlines| == |rounds| + 1 && n < |rounds|
  {
    deadlines[n + 1]
    == if Advances(rounds, n) then Min(rounds[n].answered + s.stallTimeoutMs, Ceiling(s)) else deadlines[n]
  }

  predicate Extends(s: Settings, rounds: seq<Round>, deadlines: seq<int>)
    requires |deadlines| == |rounds| + 1
  {
    && deadlines[0] == Min(s.startedAt + s.baseTimeoutMs, Ceiling(s))
    && forall n | 0 <= n < |rounds| :: ExtendsAt(s, rounds, deadlines, n)
  }

  lemma DeadlinesExtendAt(s: Settings, rounds: seq<Round>, n: nat)
    requires n < |rounds|
    ensures ExtendsAt(s, rounds, Deadlines(s, rounds), n)
  {
    DeadlineStep(s, rounds, n);
  }

  lemma FirstDeadline(s: Settings, rounds: seq<Round>)
    ensures Deadlines(s, rounds)[0] == Min(s.startedAt + s.baseTimeoutMs, Ceiling(s))
  {
    assert Observations(rounds, 0) == [];
  }

  lemma DeadlinesExtend(s: Settings, rounds: seq<Round>)
    ensures Extends(s, rounds, Deadlines(s, rounds))
  {
    FirstDeadline(s, rounds);
    forall n | 0 <= n < |rounds| ensures ExtendsAt(s, rounds, Deadlines(s, rounds), n) {
      DeadlinesExtendAt(s, rounds, n);
    }
  }

  lemma {:induction false} BaseDeadline(s: Settings, rounds: seq<Round>, deadlines: seq<int>, n: nat)
    requires |deadlines| == |rounds| + 1 && Extends(s, rounds, deadlines) && n <= |rounds| && NoneAdvances(rounds, 0, n)
    ensures deadlines[n] == Min(s.startedAt + s.baseTimeoutMs, Ceiling(s))
  {
    if n > 0 {
      BaseDeadline(s, rounds, deadlines, n - 1);
      assert ExtendsAt(s, rounds, deadlines, n - 1);
    }
  }

  /** The last reply that advances sets the deadline. */
  lemma {:induction false} AdvancedDeadline(s: Settings, rounds: seq<Round>, deadlines: seq<int>, k: nat, n: nat)
    requires |deadlines| == |rounds| + 1 && Extends(s, rounds, deadlines)
    requires k < n <= |rounds| && Advances(rounds, k) && NoneAdvances(rounds, k + 1, n)
    ensures deadlines[n] == Min(rounds[k].answered + s.stallTimeoutMs, Ceiling(s))
    decreases n
  {
    assert ExtendsAt(s, rounds, deadlines, n - 1);
    if k < n - 1 {
      AdvancedDeadline(s, rounds, deadlines, k, n - 1);
    }
  }

  lemma {:induction false} LastAdvance(rounds: seq<Round>, n: nat) returns (last: nat)
    requires n <= |rounds| && !NoneAdvances(rounds, 0, n)
    ensures last < n && Advances(rounds, last) && NoneAdvances(rounds, last + 1, n)
  {
    if Advances(rounds, n - 1) {
      last := n - 1;
    } else {
      last := LastAdvance(rounds, n - 1);
    }
  }

  /** Some reply before round `j` advances and is less than a stall window old. */
  predicate AdvancedLately(rounds: seq<Round>, j: nat)
    requires j < |rounds|
  {
    exists i | 0 <= i < j && Advances(rounds, i) :: rounds[j].asked < rounds[i].answered + 600_000
  }

  /** Before the round at `j` the wait is open exactly until the ceiling of thirty minutes, and for three minutes while
      no reply has advanced, or ten minutes after a reply that did. */
  lemma OpenWhen(start: int, rounds: seq<Round>, j: nat)
    requires Paced(start, rounds) && j < |rounds|
    ensures
      StillOpen(Settings(start, LLM_FETCH_TIMEOUT_MS, LLM_PROGRESS_STALL_TIMEOUT_MS, MAX_TOTAL_MS), rounds, j)
      <==> && rounds[j].asked < start + 1_800_000
           && ((NoneAdvances(rounds, 0, j) && rounds[j].asked < start + 180_000) || AdvancedLately(rounds, j))
  {
    var s := Settings(start, LLM_FETCH_TIMEOUT_MS, LLM_PROGRESS_STALL_TIMEOUT_MS, MAX_TOTAL_MS);
    DeadlinesExtend(s, rounds);
    if NoneAdvances(rounds, 0, j) {
      BaseDeadline(s, rounds, Deadlines(s, rounds), j);
    } else {
      var last := LastAdvance(rounds, j);
      AdvancedDeadline(s, rounds, Deadlines(s, rounds), last, j);
      forall i | 0 <= i < j && Advances(rounds, i) ensures rounds[i].answered <= rounds[last].answered {
        if i <= last {
          AnsweredInOrder(start, rounds, i, last);
        }
      }
    }
  }

  lemma {:induction false} AnsweredInOrder(start: int, rounds: seq<Round>, i: nat, j: nat)
    requires Paced(start, rounds) && i <= j < |rounds|
    ensures rounds[i].answered <= rounds[j].answered
    decreases j
  {
    if i < j {
      AnsweredInOrder(start, rounds, i, j - 1);
    }
  }

  lemma RunsOnce(s: Settings, rounds: seq<Round>, i: nat)
    requires i < |rounds| && StillOpen(s, rounds, i) && rounds[i].reply.Running?
    ensures Run(s, rounds, i) == Run(s, rounds, i + 1)
  {
    RunStep(s, rounds, i);
  }

  /** The first `n` rounds found the wait open and the job running. */
  predicate OpenBefore(s: Settings, rounds: seq<Round>, n: nat)
    requires n <= |rounds|
  {
    forall i | 0 <= i < n :: StillOpen(s, rounds, i) && rounds[i].reply.Running?
  }

  lemma {:induction false} RunsThrough(s: Settings, rounds: seq<Round>, n: nat)
    requires n <= |rounds| && OpenBefore(s, rounds, n)
    ensures Run(s, rounds, 0) == Run(s, rounds, n)
  {
    if n > 0 {
      RunsThrough(s, rounds, n - 1);
      RunsOnce(s, rounds, n - 1);
    }
  }

  /** The loop ends at the first check that finds the wait closed, or at the first reply that is not one of a running
      job, and tells which. */
  lemma LoopEndsAtFirst(s: Settings, rounds: seq<Round>, n: nat)
    requires n < |rounds| && OpenBefore(s, rounds, n) && (StillOpen(s, rounds, n) ==> !rounds[n].reply.Running?)
    ensures
      Run(s, rounds, 0)
      == if !StillOpen(s, rounds, n) then (TimedOut, n)
         else
           match rounds[n].reply
           case NoJob => (MissingJob, n + 1)
           case Terminal => (Finished, n + 1)
           case _ => (NetworkError, n + 1)
  {
    RunsThrough(s, rounds, n);
    RunStep(s, rounds, n);
  }

  /** A job that gets one chunk further in every round, asked and answered every 750 ms. */
  function Steady(start: int, n: nat): (rounds: seq<Round>)
    ensures |rounds| == n
  {
    seq(n, i requires 0 <= i < n => Round(start + 750 * i, Running(Some(1), Some(i)), start + 750 * i))
  }

  /** The bound is reached: as long as such a job runs, 2400 requests are made and no more. */
  lemma BoundIsReached(start: int)
    ensures
      var s := Settings(start, LLM_FETCH_TIMEOUT_MS, LLM_PROGRESS_STALL_TIMEOUT_MS, MAX_TOTAL_MS);
      Paced(start, Steady(start, 2401)) && Run(s, Steady(start, 2401), 0) == (TimedOut, 2400)
  {
    var s := Settings(start, LLM_FETCH_TIMEOUT_MS, LLM_PROGRESS_STALL_TIMEOUT_MS, MAX_TOTAL_MS);
    var rounds := Steady(start, 2401);
    forall j | 0 <= j < 2401 ensures StillOpen(s, rounds, j) <==> j < 2400 {
      SteadyIsOpen(start, 2401, j);
    }
    LoopEndsAtFirst(s, rounds, 2400);
  }

  lemma SteadyIsOpen(start: int, n: nat, j: nat)
    requires j < n
    ensures Paced(start, Steady(start, n))
    ensures
      var s := Settings(start, LLM_FETCH_TIMEOUT_MS, LLM_PROGRESS_STALL_TIMEOUT_MS, MAX_TOTAL_MS);
      StillOpen(s, Steady(start, n), j) <==> j < 2400
  {
    var rounds := Steady(start, n);
    OpenWhen(start, rounds, j);
    if j > 0 {
      assert Advances(rounds, j - 1);
      assert rounds[j].asked < rounds[j - 1].answered + 600_000;
    }
  }

  /** One round of the loop's body. */
  method PollOnce(deadline: Deadline, round: Round) returns (ended: Option<Outcome>)
    requires deadline.Valid()
    modifies deadline
    ensures ended == EndOf(round, round.asked < DeadlineAfter(deadline.settings, old(deadline.history)))
    ensures deadline.Valid()
    ensures ended.None? ==> deadline.history == old(deadline.history) + Reports(round)
  {
    var expired := deadline.Expired(round.asked);
    if expired {
      return Some(TimedOut);
    }
    ended := None;
    match round.reply {
      case RequestFailed => ended := Some(NetworkError);
      case NoJob => ended := Some(MissingJob);
      case Terminal => ended := Some(Finished);
      case Running(chunkCount, completedChunks) =>
        if GetOr(chunkCount, 0) > 0 {
          deadline.Observe(round.answered, GetOr(completedChunks, 0));
        }
    }
  }

  /**
   `pollRequirementJob` (and `pollDSLWorkflow`, the same loop): `rounds` is what the clock and the
   server do, `asked` is how many requests are made.
   */
  method PollRequirementJob(start: int, rounds: seq<Round>) returns (outcome: Outcome, asked: nat)
    requires Paced(start, rounds)
    ensures
      var s := Settings(start, LLM_FETCH_TIMEOUT_MS, LLM_PROGRESS_STALL_TIMEOUT_MS, MAX_TOTAL_MS);
      (outcome, asked) == Run(s, rounds, 0)
    ensures asked <= 2400
  {
    ghost var s := Settings(start, LLM_FETCH_TIMEOUT_MS, LLM_PROGRESS_STALL_TIMEOUT_MS, MAX_TOTAL_MS);
    PollBound(s, rounds, 0);
    var deadline := new Deadline(start, LLM_FETCH_TIMEOUT_MS, LLM_PROGRESS_STALL_TIMEOUT_MS);
    asked := 0;
    while asked < |rounds|
      invariant asked <= |rounds|
      invariant deadline.Valid() && fresh(deadline) && deadline.settings == s
      invariant deadline.history == Observations(rounds, asked)
      invariant Run(s, rounds, asked) == Run(s, rounds, 0)
    {
      var ended := PollOnce(deadline, rounds[asked]);
      if ended.Some? {
        return ended.value, if ended.value.TimedOut? then asked else asked + 1;
      }
      asked := asked + 1;
    }
    outcome := StillPolling;
  }
}
