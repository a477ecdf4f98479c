/**
 The availability state of a device over a history of polls: failure and recovery
 thresholds, the logged host events, the recorded dates and the running statistics.
 Times are real numbers; a date is an abstract clock reading.
 */
module Availability {

  datatype Status = Unknown | Down | Recovering | Up

  /** The condition of a device, as kept between polls. */
  datatype State = State(status: Status, eventCount: int, failDate: int, recoveryDate: int)

  datatype Statistics = Statistics(
    totalPolls: int, failedPolls: int,
    curTime: real, minTime: real, maxTime: real, avgTime: real, availability: real)

  datatype Host = Host(state: State, statistics: Statistics)

  datatype Config = Config(failureCount: int, recoveryCount: int)

  /** One poll: whether the device answered, the response time and the date. */
  datatype Poll = Poll(up: bool, time: real, date: int)

  // ---- One poll ----

  /** host_failure_transition; the Boolean asks for a log message. */
  function FailureTransition(cfg: Config, h: State, date: int): (State, bool) {
    match h.status
    case Up =>
      var count := h.eventCount + 1;
      if count >= cfg.failureCount then
        (h.(status := Down, eventCount := count, failDate := if cfg.failureCount == 1 then date else h.failDate), true)
      else
        (h.(eventCount := count, failDate := if count == 1 then date else h.failDate), false)
    case Recovering => (h.(status := Down, eventCount := 1), false)
    case Unknown => (h.(status := Down, eventCount := 0), false)
    case Down => (h.(eventCount := h.eventCount + 1), false)
  }

  /** host_recovery_transition */
  function RecoveryTransition(cfg: Config, h: State, date: int): (State, bool) {
    if h.status != Down && h.status != Recovering then (h.(status := Up, eventCount := 0), false)
    else
      var count := if h.status == Down then 1 else h.eventCount + 1;
      if count >= cfg.recoveryCount then
        (h.(status := Up, eventCount := 0, recoveryDate := if cfg.recoveryCount == 1 then date else h.recoveryDate),
         true)
      else
        (h.(status := Recovering, eventCount := count, recoveryDate := if count == 1 then date else h.recoveryDate),
         false)
  }

  /** What a poll does to the condition; the Boolean says whether a host event is logged. */
  function Transition(cfg: Config, h: State, p: Poll): (State, bool) {
    if p.up then RecoveryTransition(cfg, h, p.date) else FailureTransition(cfg, h, p.date)
  }

  predicate Countable(s: Statistics) {
    0 <= s.failedPolls <= s.totalPolls
  }

  /** host_response_statistics, after the poll has been counted. */
  function ResponseStatistics(s: Statistics, time: real): Statistics
    requires s.totalPolls > s.failedPolls
  {
    s.(curTime := time,
       maxTime := if time > s.maxTime then time else s.maxTime,
       minTime := if time < s.minTime then time else s.minTime,
       avgTime := ((s.totalPolls - 1 - s.failedPolls) as real * s.avgTime + time) /
                  (s.totalPolls - s.failedPolls) as real)
  }

  /** What a poll does to the statistics. */
  function Measured(s: Statistics, p: Poll): (r: Statistics)
    requires Countable(s)
    ensures Countable(r)
  {
    var counted := s.(totalPolls := s.totalPolls + 1);
    var r := if p.up then ResponseStatistics(counted, p.time) else counted.(failedPolls := s.failedPolls + 1);
    r.(availability := Percent(r.totalPolls - r.failedPolls, r.totalPolls))
  }

  function Percent(part: int, whole: int): real
    requires whole != 0
  {
    100.0 * part as real / whole as real
  }

  /** The record as the program keeps it, updated in place. */
  class HostRecord {
    var state: State
    var statistics: Statistics

    constructor (host: Host)
      ensures state == host.state && statistics == host.statistics
    {
      state, statistics := host.state, host.statistics;
    }

    /** update_host_status */
    method UpdateHostStatus(cfg: Config, p: Poll) returns (event: bool)
      requires Countable(statistics)
      modifies this
      ensures (state, event) == Transition(cfg, old(state), p)
      ensures statistics == Measured(old(statistics), p)
    {
      statistics := statistics.(totalPolls := statistics.totalPolls + 1);
      var moved;
      if !p.up {
        statistics := statistics.(failedPolls := statistics.failedPolls + 1);
        moved := FailureTransition(cfg, state, p.date);
      } else {
        statistics := ResponseStatistics(statistics, p.time);
        moved := RecoveryTransition(cfg, state, p.date);
      }
      state, event := moved.0, moved.1;
      statistics :=
        statistics.(availability := Percent(statistics.totalPolls - statistics.failedPolls, statistics.totalPolls));
    }
  }

  // ---- Histories ----

  /** The condition after a history. */
  function After(cfg: Config, start: State, polls: seq<Poll>): State {
    if polls == [] then start
    else Transition(cfg, After(cfg, start, polls[..|polls| - 1]), polls[|polls| - 1]).0
  }

  /** The statistics after a history. */
  function Total(start: Statistics, polls: seq<Poll>): (s: Statistics)
    requires Countable(start)
    ensures Countable(s)
  {
    if polls == [] then start else Measured(Total(start, polls[..|polls| - 1]), polls[|polls| - 1])
  }

  datatype Event = WentDown | CameBack

  /** The host events logged over a history, oldest first. */
  function Events(cfg: Config, start: State, polls: seq<Poll>): seq<Event> {
    if polls == [] then []
    else
      var n := |polls| - 1;
      var (h, event) := Transition(cfg, After(cfg, start, polls[..n]), polls[n]);
      Events(cfg, start, polls[..n]) + (if event then [if h.status == Down then WentDown else CameBack] else [])
  }

  function FailuresNeeded(cfg: Config): int { if cfg.failureCount < 1 then 1 else cfg.failureCount }
  function SuccessesNeeded(cfg: Config): int { if cfg.recoveryCount < 1 then 1 else cfg.recoveryCount }

  /** How many polls at the end of a history all went the given way. */
  function Streak(polls: seq<Poll>, up: bool): nat {
    if polls == [] || polls[|polls| - 1].up != up then 0 else 1 + Streak(polls[..|polls| - 1], up)
  }

  predicate ReportedDown(h: State) {
    h.status in {Down, Recovering}
  }

  /** What a run that began before the history counts when it starts; the record brings it along. */
  function Carried(start: State, up: bool): int {
    if start.status == (if up then Recovering else Up) then start.eventCount else 0
  }

  /** How long the run at the end of a history is, one that was under way in the starting record included. */
  function Run(start: State, polls: seq<Poll>, up: bool): int {
    Streak(polls, up) + if Streak(polls, up) == |polls| then Carried(start, up) else 0
  }

  /** What a history leaves in the record. */
  predicate StateInv(cfg: Config, start: State, polls: seq<Poll>, h: State) {
    && h.eventCount >= 0
    && (match h.status
        case Unknown => polls == []
        case Up => h.eventCount == Run(start, polls, false) && (polls != [] ==> h.eventCount < FailuresNeeded(cfg))
        case Down => Streak(polls, true) == 0
        case Recovering =>
          h.eventCount == Run(start, polls, true) && (polls != [] ==> 0 < h.eventCount < SuccessesNeeded(cfg)))
    && (start.status == Unknown && polls != [] && Streak(polls, false) == |polls| ==> h.status == Down)
    && (start.status == Unknown && polls != [] && Streak(polls, true) == |polls| ==> h.status == Up)
  }

  /** The records a device can be loaded with: any status, and a count of events. */
  predicate Starts(start: State) {
    start.eventCount >= 0
  }

  lemma {:induction false} StateAfter(cfg: Config, start: State, polls: seq<Poll>)
    requires Starts(start)
    ensures StateInv(cfg, start, polls, After(cfg, start, polls))
  {
    if polls != [] {
      var n := |polls| - 1;
      StateAfter(cfg, start, polls[..n]);
      StateStep(cfg, start, polls[..n], polls[n], After(cfg, start, polls[..n]));
      assert polls[..n] + [polls[n]] == polls;
    }
  }

  lemma StateStep(cfg: Config, start: State, rest: seq<Poll>, p: Poll, h: State)
    requires Starts(start) && StateInv(cfg, start, rest, h) && (rest == [] ==> h == start)
    ensures StateInv(cfg, start, rest + [p], Transition(cfg, h, p).0)
  {
    OneMore(rest, p);
    StreakBound(rest, true);
    StreakBound(rest, false);
  }

  lemma OneMore(rest: seq<Poll>, p: Poll)
    ensures Streak(rest + [p], p.up) == Streak(rest, p.up) + 1 && Streak(rest + [p], !p.up) == 0
  {
    assert (rest + [p])[..|rest|] == rest;
  }

  lemma {:induction false} StreakBound(polls: seq<Poll>, up: bool)
    ensures Streak(polls, up) <= |polls|
  {
    if polls != [] { StreakBound(polls[..|polls| - 1], up); }
  }

  lemma AfterOneMore(cfg: Config, start: State, polls: seq<Poll>, p: Poll)
    ensures After(cfg, start, polls + [p]) == Transition(cfg, After(cfg, start, polls), p).0
  {
    assert (polls + [p])[..|polls|] == polls;
  }

  /**
   A device that is up is reported down exactly by the failure at which the run, with what the record
   brought along, reaches the required length, and a reported device comes up likewise; a device of
   unknown status takes the condition of its first poll.
   */
  lemma TurnsExactly(cfg: Config, start: State, polls: seq<Poll>, p: Poll)
    requires Starts(start)
    ensures var before, after := After(cfg, start, polls), After(cfg, start, polls + [p]);
            && (before.status == Up ==>
                (ReportedDown(after) <==> Run(start, polls + [p], false) >= FailuresNeeded(cfg)))
            && (ReportedDown(before) ==>
                (after.status == Up <==> Run(start, polls + [p], true) >= SuccessesNeeded(cfg)))
            && (before.status == Up && ReportedDown(after) ==> after.status == Down)
            && (before.status == Unknown ==> after.status == if p.up then Up else Down)
            && (after.status == Up || ReportedDown(after))
  {
    StateAfter(cfg, start, polls);
    AfterOneMore(cfg, start, polls, p);
    OneMore(polls, p);
    StreakBound(polls, p.up);
  }

  /** The k-th poll of a history completes a run of n polls that all went one way. */
  predicate RunEnds(polls: seq<Poll>, k: nat, n: int, up: bool) {
    0 < n <= k <= |polls| && forall j | k - n <= j < k :: polls[j].up == up
  }

  lemma {:induction false} StreakIsRun(polls: seq<Poll>, n: nat, up: bool)
    requires n > 0
    ensures RunEnds(polls, |polls|, n, up) <==> Streak(polls, up) >= n
    decreases |polls|
  {
    if polls != [] && polls[|polls| - 1].up == up && n > 1 {
      var rest := polls[..|polls| - 1];
      StreakIsRun(rest, n - 1, up);
      if RunEnds(rest, |rest|, n - 1, up) {
        assert forall j | |polls| - n <= j < |polls| :: polls[j].up == up by {
          forall j | |polls| - n <= j < |polls| - 1 ensures polls[j].up == up { assert rest[j].up == up; }
        }
      }
      if RunEnds(polls, |polls|, n, up) {
        assert forall j | |rest| - (n - 1) <= j < |rest| :: rest[j].up == up;
      }
    }
  }

  function Needed(cfg: Config, up: bool): int {
    if up then SuccessesNeeded(cfg) else FailuresNeeded(cfg)
  }

  /**
   The k-th poll decides the condition: it completes a run of the required length, or everything so far
   went one way and either completes the run in the starting record or settles an unknown status.
   */
  predicate Decides(cfg: Config, start: State, polls: seq<Poll>, k: nat, up: bool) {
    || RunEnds(polls, k, Needed(cfg, up), up)
    || (RunEnds(polls, k, k, up) &&
        (start.status == Unknown ||
         (start.status == (if up then Recovering else Up) && start.eventCount + k >= Needed(cfg, up))))
  }

  /** The last decision, the condition in the starting record being the first, was that the device is down. */
  ghost predicate LastDecidedDown(cfg: Config, start: State, polls: seq<Poll>) {
    || (ReportedDown(start) && forall j: nat | 0 < j <= |polls| :: !Decides(cfg, start, polls, j, true))
    || exists k: nat :: Decides(cfg, start, polls, k, false) &&
                        forall j: nat | k < j <= |polls| :: !Decides(cfg, start, polls, j, true)
  }

  lemma RunsOfPrefix(polls: seq<Poll>, p: Poll, k: nat, n: int, up: bool)
    requires k <= |polls|
    ensures RunEnds(polls + [p], k, n, up) <==> RunEnds(polls, k, n, up)
  {
    var longer := polls + [p];
    assert forall j | 0 <= j < |polls| :: longer[j] == polls[j];
  }

  lemma DecidesPrefix(cfg: Config, start: State, polls: seq<Poll>, p: Poll, k: nat, up: bool)
    requires k <= |polls|
    ensures Decides(cfg, start, polls + [p], k, up) <==> Decides(cfg, start, polls, k, up)
  {
    RunsOfPrefix(polls, p, k, Needed(cfg, up), up);
    RunsOfPrefix(polls, p, k, k, up);
  }

  lemma DecidesAtEnd(cfg: Config, start: State, polls: seq<Poll>, up: bool)
    requires Starts(start) && polls != []
    ensures Decides(cfg, start, polls, |polls|, up) <==>
            (Run(start, polls, up) >= Needed(cfg, up) || (start.status == Unknown && Streak(polls, up) == |polls|))
  {
    StreakIsRun(polls, Needed(cfg, up), up);
    StreakIsRun(polls, |polls|, up);
    StreakBound(polls, up);
  }

  /**
   A declarative reading of the state machine, from any starting record: the device is reported down
   exactly when the last decision was that it is down.
   */
  lemma {:induction false} ReportsLastRun(cfg: Config, start: State, polls: seq<Poll>)
    requires Starts(start)
    ensures ReportedDown(After(cfg, start, polls)) <==> LastDecidedDown(cfg, start, polls)
  {
    if polls == [] {
      return;
    }
    var n := |polls| - 1;
    var rest, p := polls[..n], polls[n];
    assert polls == rest + [p];
    ReportsLastRun(cfg, start, rest);
    ReportStep(cfg, start, rest, p);
    LastDecisionStep(cfg, start, rest, p);
  }

  /** How one more poll changes the report. */
  lemma ReportStep(cfg: Config, start: State, rest: seq<Poll>, p: Poll)
    requires Starts(start)
    ensures var polls := rest + [p];
            ReportedDown(After(cfg, start, polls)) <==>
            (Decides(cfg, start, polls, |polls|, false) ||
             (ReportedDown(After(cfg, start, rest)) && !Decides(cfg, start, polls, |polls|, true)))
  {
    var polls := rest + [p];
    StateAfter(cfg, start, rest);
    TurnsExactly(cfg, start, rest, p);
    DecidesAtEnd(cfg, start, polls, false);
    DecidesAtEnd(cfg, start, polls, true);
    OneMore(rest, p);
  }

  /** How one more poll changes which decision came last. */
  lemma LastDecisionStep(cfg: Config, start: State, rest: seq<Poll>, p: Poll)
    ensures var polls := rest + [p];
            LastDecidedDown(cfg, start, polls) <==>
              (Decides(cfg, start, polls, |polls|, false) ||
               (LastDecidedDown(cfg, start, rest) && !Decides(cfg, start, polls, |polls|, true)))
  {
    var polls := rest + [p];
    forall k: nat, up: bool | k <= |rest|
      ensures Decides(cfg, start, polls, k, up) <==> Decides(cfg, start, rest, k, up)
    {
      DecidesPrefix(cfg, start, rest, p, k, up);
    }
    if k: nat :| Decides(cfg, start, rest, k, false)
                 && forall j: nat | k < j <= |rest| :: !Decides(cfg, start, rest, j, true) {
      assert Decides(cfg, start, polls, k, false);
    }
    if k: nat :| Decides(cfg, start, polls, k, false)
                 && forall j: nat | k < j <= |polls| :: !Decides(cfg, start, polls, j, true) {
      if k <= |rest| {
        assert Decides(cfg, start, rest, k, false);
      }
    }
  }

  // ---- Events and dates ----

  /** Whether a device counts as down before its first event: as its record says, or as its first poll settles. */
  predicate FirstDown(start: State, polls: seq<Poll>) {
    if start.status == Unknown then polls != [] && !polls[0].up else ReportedDown(start)
  }

  /** Events in turn, the first of them a return exactly when the device was down first. */
  predicate Alternates(events: seq<Event>, firstDown: bool) {
    forall k | 0 <= k < |events| :: events[k] == if (k % 2 == 0) == firstDown then CameBack else WentDown
  }

  lemma OneMoreEvent(events: seq<Event>, firstDown: bool, e: Event)
    requires Alternates(events, firstDown) && e == if (|events| % 2 == 0) == firstDown then CameBack else WentDown
    ensures Alternates(events + [e], firstDown)
  {
  }

  /**
   Host events alternate. The first one is the device going down, unless it counted as down at the start:
   then it is its return. A device is reported down exactly when the latest event, or without one the start, says so.
   */
  lemma {:induction false} EventsAlternate(cfg: Config, start: State, polls: seq<Poll>)
    requires Starts(start)
    ensures var events := Events(cfg, start, polls);
            && Alternates(events, FirstDown(start, polls))
            && (ReportedDown(After(cfg, start, polls)) <==> ((|events| % 2 == 0) == FirstDown(start, polls)))
  {
    if polls != [] {
      var n := |polls| - 1;
      var rest, p := polls[..n], polls[n];
      assert polls == rest + [p];
      EventsOneMore(cfg, start, rest, p);
      AfterOneMore(cfg, start, rest, p);
      if rest == [] {
        FirstEvent(cfg, start, p);
        assert [] + EventOf(cfg, start, p) == EventOf(cfg, start, p);
      } else {
        EventsAlternate(cfg, start, rest);
        KnownStatus(cfg, start, rest);
        assert FirstDown(start, polls) == FirstDown(start, rest) by { assert polls[0] == rest[0]; }
        AlternateStep(cfg, Events(cfg, start, rest), FirstDown(start, rest), After(cfg, start, rest), p);
      }
    }
  }

  lemma FirstEvent(cfg: Config, start: State, p: Poll)
    requires Starts(start)
    ensures var events := EventOf(cfg, start, p);
            && Alternates(events, FirstDown(start, [p]))
            && (ReportedDown(Transition(cfg, start, p).0) <==> ((|events| % 2 == 0) == FirstDown(start, [p])))
  {
    EventIffTurns(cfg, start, p);
  }

  lemma KnownStatus(cfg: Config, start: State, polls: seq<Poll>)
    requires Starts(start)
    ensures After(cfg, start, polls).eventCount >= 0 && (polls != [] ==> After(cfg, start, polls).status != Unknown)
  {
    StateAfter(cfg, start, polls);
  }

  lemma AlternateStep(cfg: Config, events: seq<Event>, firstDown: bool, h: State, p: Poll)
    requires h.eventCount >= 0 && h.status != Unknown
    requires Alternates(events, firstDown) && (ReportedDown(h) <==> ((|events| % 2 == 0) == firstDown))
    ensures var more := events + EventOf(cfg, h, p);
            && Alternates(more, firstDown)
            && (ReportedDown(Transition(cfg, h, p).0) <==> ((|more| % 2 == 0) == firstDown))
  {
    EventIffTurns(cfg, h, p);
    var e := EventOf(cfg, h, p);
    if e == [] { assert events + e == events; } else { OneMoreEvent(events, firstDown, e[0]); }
  }

  /**
   An event is logged by exactly the polls that change the reported condition, but not by one that settles an
   unknown status.
   */
  lemma EventIffReportChanges(cfg: Config, start: State, polls: seq<Poll>, p: Poll)
    requires Starts(start)
    ensures var before, after := After(cfg, start, polls), After(cfg, start, polls + [p]);
            && |Events(cfg, start, polls + [p])| - |Events(cfg, start, polls)| ==
               (if before.status != Unknown && ReportedDown(before) != ReportedDown(after) then 1 else 0)
            && (before.status == Unknown ==> polls == [])
  {
    StateAfter(cfg, start, polls);
    AfterOneMore(cfg, start, polls, p);
    EventsOneMore(cfg, start, polls, p);
    EventIffTurns(cfg, After(cfg, start, polls), p);
  }

  /** The event of one more poll. */
  function EventOf(cfg: Config, h: State, p: Poll): seq<Event> {
    var (after, event) := Transition(cfg, h, p);
    if event then [if after.status == Down then WentDown else CameBack] else []
  }

  lemma EventsOneMore(cfg: Config, start: State, polls: seq<Poll>, p: Poll)
    ensures Events(cfg, start, polls + [p]) == Events(cfg, start, polls) + EventOf(cfg, After(cfg, start, polls), p)
  {
    assert (polls + [p])[..|polls|] == polls;
  }

  lemma EventIffTurns(cfg: Config, h: State, p: Poll)
    requires h.eventCount >= 0
    ensures var after := Transition(cfg, h, p).0;
            EventOf(cfg, h, p) == (if h.status == Unknown || ReportedDown(h) == ReportedDown(after) then []
                                   else [if ReportedDown(h) then CameBack else WentDown])
  {
  }

  /** The date of the first poll of the run that ends a history. */
  function RunStart(polls: seq<Poll>, up: bool): int
    requires Streak(polls, up) > 0
  {
    var rest := polls[..|polls| - 1];
    if Streak(rest, up) > 0 then RunStart(rest, up) else polls[|polls| - 1].date
  }

  /** The record brought along a run under way, and the whole history continues it. */
  predicate Continues(start: State, polls: seq<Poll>, up: bool) {
    Streak(polls, up) == |polls| && Carried(start, up) > 0
  }

  /** The date the run at the end of a history began; of a run the record brought along, the date in the record. */
  function RunDate(start: State, polls: seq<Poll>, up: bool): int
    requires Run(start, polls, up) > 0
  {
    if Continues(start, polls, up) then (if up then start.recoveryDate else start.failDate)
    else RunStart(polls, up)
  }

  /** While a run is under way the record holds the date it began. */
  lemma {:induction false} DatesFollowRuns(cfg: Config, start: State, polls: seq<Poll>)
    requires Starts(start)
    ensures var h := After(cfg, start, polls);
            Dated(start, polls, h)
  {
    if polls != [] {
      var n := |polls| - 1;
      var rest, p := polls[..n], polls[n];
      assert polls == rest + [p];
      DatesFollowRuns(cfg, start, rest);
      StateAfter(cfg, start, rest);
      DatedStep(cfg, start, rest, p, After(cfg, start, rest));
    }
  }

  predicate Dated(start: State, polls: seq<Poll>, h: State) {
    && (h.status == Up && h.eventCount > 0 ==>
          Run(start, polls, false) > 0 && h.failDate == RunDate(start, polls, false))
    && (h.status == Recovering && h.eventCount > 0 ==>
          Run(start, polls, true) > 0 && h.recoveryDate == RunDate(start, polls, true))
  }

  lemma DatedStep(cfg: Config, start: State, rest: seq<Poll>, p: Poll, h: State)
    requires Starts(start) && StateInv(cfg, start, rest, h) && Dated(start, rest, h) && (rest == [] ==> h == start)
    ensures Dated(start, rest + [p], Transition(cfg, h, p).0)
  {
    OneMore(rest, p);
    StreakBound(rest, p.up);
    if Run(start, rest + [p], p.up) > 0 { DateStep(cfg, start, rest, p); }
  }

  lemma DateStep(cfg: Config, start: State, rest: seq<Poll>, p: Poll)
    requires Starts(start) && Run(start, rest + [p], p.up) > 0
    ensures RunDate(start, rest + [p], p.up) ==
            if Run(start, rest, p.up) > 0 then RunDate(start, rest, p.up) else p.date
  {
    OneMore(rest, p);
    StreakBound(rest, p.up);
    assert (rest + [p])[..|rest|] == rest;
  }

  /**
   The date stored when a device goes down is that of the first poll of the run that caused it, exactly
   when the threshold is at least two, or is one and the run began with this poll, or is below one and
   the run was brought along, or the date that stays in the record happens to be this poll's.
   */
  lemma FailDateIff(cfg: Config, start: State, polls: seq<Poll>, p: Poll)
    requires Starts(start)
    ensures var before, after := After(cfg, start, polls), After(cfg, start, polls + [p]);
            before.status == Up && ReportedDown(after) ==>
            && Run(start, polls + [p], false) > 0
            && (after.failDate == RunDate(start, polls + [p], false) <==>
                || cfg.failureCount >= 2
                || (cfg.failureCount == 1 && before.eventCount == 0)
                || (cfg.failureCount < 1 && before.eventCount > 0)
                || before.failDate == p.date)
  {
    StateAfter(cfg, start, polls);
    DatesFollowRuns(cfg, start, polls);
    AfterOneMore(cfg, start, polls, p);
    OneMore(polls, p);
    StreakBound(polls, p.up);
    if Run(start, polls + [p], p.up) > 0 { DateStep(cfg, start, polls, p); }
  }

  /** The same of the date stored when a device comes back; what counts is the run the record brought along. */
  lemma RecoveryDateIff(cfg: Config, start: State, polls: seq<Poll>, p: Poll)
    requires Starts(start)
    ensures var before, after := After(cfg, start, polls), After(cfg, start, polls + [p]);
            var counted := before.status == Recovering && before.eventCount > 0;
            ReportedDown(before) && after.status == Up ==>
            && Run(start, polls + [p], true) > 0
            && (after.recoveryDate == RunDate(start, polls + [p], true) <==>
                || cfg.recoveryCount >= 2
                || (cfg.recoveryCount == 1 && !counted)
                || (cfg.recoveryCount < 1 && counted)
                || before.recoveryDate == p.date)
  {
    StateAfter(cfg, start, polls);
    DatesFollowRuns(cfg, start, polls);
    AfterOneMore(cfg, start, polls, p);
    OneMore(polls, p);
    StreakBound(polls, p.up);
    if Run(start, polls + [p], p.up) > 0 { DateStep(cfg, start, polls, p); }
  }

  /**
   With a threshold of at least one, a device whose record brought no run along has its events dated by their
   runs.
   */
  lemma EventDates(cfg: Config, start: State, polls: seq<Poll>, p: Poll)
    requires Starts(start) && Carried(start, false) == 0 && Carried(start, true) == 0
    ensures var before, after := After(cfg, start, polls), After(cfg, start, polls + [p]);
            && (before.status == Up && ReportedDown(after) && cfg.failureCount >= 1 ==>
                  Streak(polls + [p], false) > 0 && after.failDate == RunStart(polls + [p], false))
            && (ReportedDown(before) && !ReportedDown(after) && cfg.recoveryCount >= 1 ==>
                  Streak(polls + [p], true) > 0 && after.recoveryDate == RunStart(polls + [p], true))
  {
    StateAfter(cfg, start, polls);
    FailDateIff(cfg, start, polls, p);
    RecoveryDateIff(cfg, start, polls, p);
    TurnsExactly(cfg, start, polls, p);
  }

  /** A threshold below one acts as one but records no date: the stored ones stay what they were. */
  lemma LowThresholdKeepsDates(cfg: Config, start: State, polls: seq<Poll>, p: Poll)
    requires Starts(start)
    ensures var before, after := After(cfg, start, polls), After(cfg, start, polls + [p]);
            && (cfg.failureCount < 1 ==> after.failDate == before.failDate)
            && (cfg.recoveryCount < 1 ==> after.recoveryDate == before.recoveryDate)
  {
    StateAfter(cfg, start, polls);
    AfterOneMore(cfg, start, polls, p);
  }

  /** A threshold of zero: one failed poll has the device reported down without its date. */
  lemma ZeroThresholdLosesDate(date: int, stored: int)
    requires stored != date
    ensures var start, p := State(Up, 0, stored, 0), Poll(false, 0.0, date);
            var after := After(Config(0, 1), start, [p]);
            ReportedDown(after) && after.failDate == stored && RunStart([p], false) == date
  {
    var start, p := State(Up, 0, stored, 0), Poll(false, 0.0, date);
    assert [p][..0] == [];
    assert After(Config(0, 1), start, []) == start;
    assert Streak([], false) == 0;
  }

  /** A threshold lowered to one while failures were being counted dates the event by its last poll. */
  lemma LoweredThresholdLosesDate(date: int, stored: int)
    requires stored != date
    ensures var start, p := State(Up, 2, stored, 0), Poll(false, 0.0, date);
            var after := After(Config(1, 1), start, [p]);
            ReportedDown(after) && after.failDate == date && RunDate(start, [p], false) == stored
  {
    var start, p := State(Up, 2, stored, 0), Poll(false, 0.0, date);
    assert [p][..0] == [];
    assert After(Config(1, 1), start, []) == start;
    assert Streak([p], false) == 1 + Streak([], false) == 1;
  }

  // ---- Statistics ----

  function Successes(polls: seq<Poll>): nat {
    if polls == [] then 0 else Successes(polls[..|polls| - 1]) + if polls[|polls| - 1].up then 1 else 0
  }

  /** Total response time of the polls that were answered. */
  function TotalTime(polls: seq<Poll>): real {
    if polls == [] then 0.0
    else TotalTime(polls[..|polls| - 1]) + if polls[|polls| - 1].up then polls[|polls| - 1].time else 0.0
  }

  lemma {:induction false} Counters(start: Statistics, polls: seq<Poll>)
    requires Countable(start)
    ensures var h := Total(start, polls);
            && h.totalPolls == start.totalPolls + |polls|
            && h.totalPolls - h.failedPolls == start.totalPolls - start.failedPolls + Successes(polls)
  {
    if polls != [] { Counters(start, polls[..|polls| - 1]); }
  }

  /** The average times the number of answered polls it stands for, by repeated addition. */
  function Times(n: int, x: real): real {
    if n <= 0 then 0.0 else x + Times(n - 1, x)
  }

  lemma {:induction false} TimesIsProduct(n: int, x: real)
    requires n >= 0
    ensures Times(n, x) == n as real * x
  {
    if n > 0 { TimesIsProduct(n - 1, x); }
  }

  lemma AverageStep(n: int, avg: real, time: real, next: real)
    requires n > 0 && next == ((n - 1) as real * avg + time) / n as real
    ensures Times(n, next) == Times(n - 1, avg) + time
  {
    TimesIsProduct(n - 1, avg);
    TimesIsProduct(n, next);
    var sum := (n - 1) as real * avg + time;
    assert n as real * next == sum by { Cancel(n as real, sum); }
  }

  /** The response time that the average stands for. */
  function Weight(s: Statistics): real {
    Times(s.totalPolls - s.failedPolls, s.avgTime)
  }

  lemma MeasuredWeight(s: Statistics, p: Poll)
    requires Countable(s)
    ensures Weight(Measured(s, p)) == Weight(s) + if p.up then p.time else 0.0
  {
    var n, next := s.totalPolls + 1 - s.failedPolls, Measured(s, p).avgTime;
    if p.up { AverageStep(n, s.avgTime, p.time, next); }
  }

  lemma {:induction false} WeightedAverage(start: Statistics, polls: seq<Poll>)
    requires Countable(start)
    ensures Weight(Total(start, polls)) == Weight(start) + TotalTime(polls)
  {
    if polls != [] {
      var n := |polls| - 1;
      WeightedAverage(start, polls[..n]);
      MeasuredWeight(Total(start, polls[..n]), polls[n]);
    }
  }

  lemma Cancel(n: real, x: real)
    requires n != 0.0
    ensures n * (x / n) == x
  {
  }

  /** From a fresh record the running average is the true mean of the answered polls' response times. */
  lemma AverageIsMean(start: Statistics, polls: seq<Poll>)
    requires Countable(start) && start.totalPolls == start.failedPolls && Successes(polls) > 0
    ensures Total(start, polls).avgTime == TotalTime(polls) / Successes(polls) as real
  {
    Counters(start, polls);
    WeightedAverage(start, polls);
    MeanOf(Successes(polls), Total(start, polls).avgTime, TotalTime(polls));
  }

  lemma MeanOf(n: nat, x: real, sum: real)
    requires n > 0 && Times(n, x) == sum
    ensures x == sum / n as real
  {
    TimesIsProduct(n, x);
    Cancel(n as real, sum);
    SameFactor(n as real, x, sum / n as real);
  }

  lemma SameFactor(n: real, x: real, y: real)
    requires n != 0.0 && n * x == n * y
    ensures x == y
  {
    assert n * (x - y) == 0.0;
  }

  /** The extremes bound every answered poll and are attained by one of them or by the starting values. */
  lemma {:induction false} Extremes(start: Statistics, polls: seq<Poll>)
    requires Countable(start)
    ensures var h := Total(start, polls);
            && h.minTime <= start.minTime && h.maxTime >= start.maxTime
            && (forall k | 0 <= k < |polls| && polls[k].up :: h.minTime <= polls[k].time <= h.maxTime)
            && (h.minTime == start.minTime || exists k :: 0 <= k < |polls| && polls[k].up && polls[k].time == h.minTime)
            && (h.maxTime == start.maxTime || exists k :: 0 <= k < |polls| && polls[k].up && polls[k].time == h.maxTime)
  {
    if polls != [] {
      var n := |polls| - 1;
      var rest, h := polls[..n], Total(start, polls);
      Extremes(start, rest);
      var was := Total(start, rest);
      assert forall k | 0 <= k < n :: rest[k] == polls[k];
      assert polls[n].up ==> h.minTime == polls[n].time || h.minTime == was.minTime;
      assert polls[n].up ==> h.maxTime == polls[n].time || h.maxTime == was.maxTime;
    }
  }

  /** The current time is that of the latest answered poll. */
  lemma {:induction false} CurrentIsLatest(start: Statistics, polls: seq<Poll>, k: nat)
    requires Countable(start) && k < |polls| && polls[k].up && forall j | k < j < |polls| :: !polls[j].up
    ensures Total(start, polls).curTime == polls[k].time
    decreases |polls|
  {
    if k < |polls| - 1 { CurrentIsLatest(start, polls[..|polls| - 1], k); }
  }

  /** After at least one poll the availability is the percentage of polls answered. */
  lemma AvailabilityIsShare(start: Statistics, polls: seq<Poll>)
    requires Countable(start) && polls != []
    ensures Total(start, polls).availability ==
            Percent(start.totalPolls - start.failedPolls + Successes(polls), start.totalPolls + |polls|)
    ensures 0.0 <= Total(start, polls).availability <= 100.0
  {
    Counters(start, polls);
    var part, whole := start.totalPolls - start.failedPolls + Successes(polls), start.totalPolls + |polls|;
    assert Total(start, polls).availability == Percent(part, whole);
    assert 0 <= part <= whole;
    Share(part, whole);
  }

  lemma Share(part: int, whole: int)
    requires 0 <= part <= whole && whole > 0
    ensures 0.0 <= Percent(part, whole) <= 100.0
  {
    RatioBound(part as real, whole as real, 100.0 * part as real / whole as real);
  }

  lemma RatioBound(x: real, y: real, q: real)
    requires 0.0 <= x <= y && y > 0.0 && q * y == 100.0 * x
    ensures 0.0 <= q <= 100.0
  {
    SameSign(q, y);
    assert (100.0 - q) * y == 100.0 * (y - x);
    SameSign(100.0 - q, y);
  }

  lemma SameSign(a: real, y: real)
    requires y > 0.0 && a * y >= 0.0
    ensures a >= 0.0
  {
  }
}
