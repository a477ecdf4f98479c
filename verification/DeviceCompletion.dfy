/**
 One device polled by several threads: each partition selects its window, writes
 its output and completes; the last one to complete advances the schedule.
 A step is one section run with LOCK_THDET held or one database call, so a run
 is an arbitrary interleaving.  Outcomes of database calls are free Booleans.
 */
module DeviceCompletion {
  import opened DevicePartition

  datatype Option<+T> = None | Some(value: T)

  /** A poller_item row as far as scheduling sees it. */
  datatype Item = Item(id: nat, rrdStep: int, nextStep: int)

  /** The device as the launcher found it. */
  datatype Config = Config(configured: int, total: nat, counted: nat, oneProfile: bool, interval: int, table: seq<Item>)

  datatype Pc = Idle | Selecting | Writing | Completing | Scheduling | Timing | Reporting | Flagging | Gone

  /** One polling thread; `counted` is set once it has passed the locked section of complete_poll_host. */
  datatype Part = Part(
    pc: Pc, window: Option<seq<Item>>,
    outputFailed: bool, pollFailed: bool,
    counted: bool, last: bool, update: bool, writeFailed: bool)

  /** `table` is the database; `advances` counts the schedule updates that reached it. */
  datatype State = State(
    table: seq<Item>, parts: seq<Part>, threadsComplete: nat,
    complete: bool, outputFailed: bool, pollFailed: bool,
    exitFailed: bool, advances: nat)

  const FRESH := Part(Idle, None, false, false, false, false, false, false)

  // ---- The schedule ----

  function Due(table: seq<Item>): seq<Item> {
    if table == [] then [] else (if table[0].nextStep <= 0 then [table[0]] else []) + Due(table[1..])
  }

  /** The IF expression of the schedule update. */
  function NextStep(rrdStep: int, nextStep: int, interval: int): int {
    if rrdStep == interval then 0
    else if nextStep - interval < 0 then rrdStep - interval
    else nextStep - interval
  }

  function Advance(table: seq<Item>, interval: int): seq<Item> {
    if table == [] then []
    else [table[0].(nextStep := NextStep(table[0].rrdStep, table[0].nextStep, interval))] +
         Advance(table[1..], interval)
  }

  /** An item's rrd_next_step after a number of schedule updates. */
  function StepAfter(rrdStep: int, interval: int, polls: nat): int {
    if polls == 0 then 0 else NextStep(rrdStep, StepAfter(rrdStep, interval, polls - 1), interval)
  }

  /** After n full periods of `every` polls plus r more, the item waits for the rest of the period. */
  lemma {:induction false} ScheduleClosedForm(every: nat, interval: int, periods: nat, r: nat)
    requires interval > 0 && every > 0 && r < every
    ensures StepAfter(every * interval, interval, periods * every + r) == if r == 0 then 0 else (every - r) * interval
    decreases periods, r
  {
    var polls := periods * every + r;
    if every == 1 {
      OneStep(interval, polls);
    } else if r > 0 {
      assert polls - 1 == periods * every + (r - 1);
      ScheduleClosedForm(every, interval, periods, r - 1);
      assert (every - (r - 1)) * interval == (every - r) * interval + interval;
      assert every * interval == (every - 1) * interval + interval;
      MinimumWait(every, interval, r);
    } else if periods > 0 {
      assert polls - 1 == (periods - 1) * every + (every - 1);
      ScheduleClosedForm(every, interval, periods - 1, every - 1);
      assert (every - (every - 1)) * interval == interval;
      MinimumWait(every, interval, every);
    }
  }

  lemma MinimumWait(every: nat, interval: int, r: nat)
    requires interval > 0 && every > 1 && 0 < r <= every
    ensures every * interval != interval
    ensures (every - r) * interval >= 0
  {
    assert every * interval == (every - 2) * interval + 2 * interval;
    assert (every - 2) * interval >= 0;
  }

  lemma {:induction false} OneStep(interval: int, polls: nat)
    requires interval > 0
    ensures StepAfter(1 * interval, interval, polls) == 0
  {
  }

  /** An item whose step is `every` poller intervals is due on every `every`-th poll and on no other. */
  lemma DueOncePerStep(every: nat, interval: int, periods: nat, r: nat)
    requires interval > 0 && every > 0 && r < every
    ensures StepAfter(every * interval, interval, periods * every + r) <= 0 <==> r == 0
  {
    ScheduleClosedForm(every, interval, periods, r);
    Positive(every - r, interval);
  }

  lemma Positive(a: int, b: int)
    requires a > 0 && b > 0
    ensures a * b > 0
  {
  }

  /** What the partitions of a device choose from: with a single profile every item is due at every poll. */
  function Chosen(cfg: Config, table: seq<Item>): seq<Item> {
    if cfg.oneProfile then table else Due(table)
  }

  // ---- The steps ----

  function PartitionOf(cfg: Config): Partition {
    Prepare(cfg.configured, cfg.total, cfg.counted, false)
  }

  /** The count query does not filter on the poller id, so it sees at least the rows a partition can select. */
  ghost predicate ConfigOk(cfg: Config) {
    |Chosen(cfg, cfg.table)| <= cfg.counted
  }

  function Initial(cfg: Config): State {
    State(cfg.table, seq(PartitionOf(cfg).threads, _ => FRESH), 0, false, false, false, false, 0)
  }

  /** The rows partition i + 1 of the device must select. */
  function Share(cfg: Config, table: seq<Item>, i: nat): seq<Item> {
    Window(Chosen(cfg, table), PartitionOf(cfg).items, i + 1)
  }

  datatype Load = NoConnection | Missing | Failed | Loaded

  datatype Step =
    | Start(i: nat, load: Load)
    | Select(i: nat, ok: bool)
    | Write(i: nat, ok: bool)
    | Complete(i: nat)
    | UpdateSchedule(i: nat, ok: bool)
    | WriteTime(i: nat, ok: bool)
    | Report(i: nat, errors: bool, ok: bool)
    | Flag(i: nat)
    | OtherDeviceFails

  predicate At(st: State, i: nat, pc: Pc) {
    i < |st.parts| && st.parts[i].pc == pc
  }

  predicate Enabled(st: State, step: Step) {
    match step
    case Start(i, _) => At(st, i, Idle)
    case Select(i, _) => At(st, i, Selecting)
    case Write(i, _) => At(st, i, Writing)
    case Complete(i) => At(st, i, Completing)
    case UpdateSchedule(i, _) => At(st, i, Scheduling)
    case WriteTime(i, _) => At(st, i, Timing)
    case Report(i, _, _) => At(st, i, Reporting)
    case Flag(i) => At(st, i, Flagging)
    case OtherDeviceFails => true
  }

  function Put(st: State, i: nat, part: Part): State
    requires i < |st.parts|
  {
    st.(parts := st.parts[i := part])
  }

  /** The part of poll_host before the items are selected. */
  function Started(part: Part, load: Load): Part {
    match load
    case NoConnection => part.(pc := Completing, pollFailed := true)
    case Failed => part.(pc := Completing, pollFailed := true)
    case Missing => part.(pc := Gone)
    case Loaded => part.(pc := Selecting)
  }

  function Selected(part: Part, rows: seq<Item>, ok: bool): Part {
    if ok then part.(pc := if rows == [] then Completing else Writing, window := Some(rows))
    else part.(pc := Completing, pollFailed := true)
  }

  /** complete_poll_host, the section under LOCK_THDET. */
  function Completed(cfg: Config, st: State, i: nat): State
    requires i < |st.parts|
  {
    var part := st.parts[i];
    var outputFailed, pollFailed := st.outputFailed || part.outputFailed, st.pollFailed || part.pollFailed;
    var total := st.threadsComplete + 1;
    var last := total == |st.parts|;
    var good := last && !outputFailed && !pollFailed;
    var update := good && !cfg.oneProfile;
    var pc := if part.pollFailed then Gone else if update then Scheduling else if last then Timing else Reporting;
    State(st.table, st.parts[i := part.(pc := pc, counted := true, last := last, update := update)], total,
          if last then good else st.complete, outputFailed, pollFailed,
          st.exitFailed || part.outputFailed || part.pollFailed, st.advances)
  }

  function Reported(part: Part, errors: bool, ok: bool): Part {
    var writeFailed := part.writeFailed || (errors && !ok);
    part.(pc := if writeFailed then Flagging else Gone, writeFailed := writeFailed)
  }

  function Apply(cfg: Config, st: State, step: Step): State
    requires Enabled(st, step)
  {
    match step
    case Start(i, load) => Put(st, i, Started(st.parts[i], load))
    case Select(i, ok) => Put(st, i, Selected(st.parts[i], Share(cfg, st.table, i), ok))
    case Write(i, ok) => Put(st, i, st.parts[i].(pc := Completing, outputFailed := !ok))
    case Complete(i) => Completed(cfg, st, i)
    case UpdateSchedule(i, ok) =>
      var moved := Put(st, i, st.parts[i].(pc := Timing, writeFailed := !ok));
      if ok then moved.(table := Advance(st.table, cfg.interval), advances := st.advances + 1) else moved
    case WriteTime(i, ok) => Put(st, i, st.parts[i].(pc := Reporting, writeFailed := st.parts[i].writeFailed || !ok))
    case Report(i, errors, ok) => Put(st, i, Reported(st.parts[i], errors, ok))
    case Flag(i) => Put(st, i, st.parts[i].(pc := Gone)).(outputFailed := true, complete := false, exitFailed := true)
    case OtherDeviceFails => st.(exitFailed := true)
  }

  // ---- The invariant ----

  /** A partition whose select and output writes went well. */
  predicate Clean(part: Part) {
    part.counted && !part.outputFailed && !part.pollFailed
  }

  predicate Early(pc: Pc) {
    pc in {Idle, Selecting, Writing, Completing}
  }

  /** Facts about one partition; `all` says whether every partition has been counted. */
  predicate PartInv(cfg: Config, i: nat, p: Part, all: bool, outputFailed: bool, pollFailed: bool) {
    && (Early(p.pc) ==> !p.counted && !p.last && !p.update && !p.writeFailed)
    && (p.pc in {Scheduling, Timing, Reporting, Flagging} ==> p.counted)
    && (p.counted && p.outputFailed ==> outputFailed)
    && (p.counted && p.pollFailed ==> pollFailed)
    && (p.pc in {Idle, Selecting} ==> !p.pollFailed && !p.outputFailed)
    && (p.window.Some? ==> p.window.value == Share(cfg, cfg.table, i))
    && ((p.pc == Completing || p.counted) && !p.pollFailed ==> p.window.Some?)
    && (p.pc == Writing ==> p.window.Some? && !p.pollFailed)
    && (p.last ==> all)
    && (p.update ==> p.last)
    && (p.pc == Scheduling ==> p.update)
    && (p.pc == Flagging ==> p.writeFailed)
    && (p.pc == Gone && p.writeFailed ==> outputFailed)
    && (p.writeFailed ==> p.counted)
  }

  /** How many partitions have been counted. */
  function Tally(parts: seq<Part>): nat {
    if parts == [] then 0 else Tally(parts[..|parts| - 1]) + (if parts[|parts| - 1].counted then 1 else 0)
  }

  ghost predicate OneLast(parts: seq<Part>) {
    forall i, j | 0 <= i < |parts| && 0 <= j < |parts| :: parts[i].last && parts[j].last ==> i == j
  }

  ghost predicate UpdateOnlyIfClean(parts: seq<Part>) {
    forall i, j | 0 <= i < |parts| && 0 <= j < |parts| :: parts[i].update ==> Clean(parts[j])
  }

  ghost predicate Advanced(parts: seq<Part>) {
    exists i :: 0 <= i < |parts| && parts[i].update && parts[i].pc != Scheduling
  }

  predicate Spoiled(p: Part) {
    p.counted && (p.outputFailed || (p.writeFailed && p.pc == Gone))
  }

  /** A failure flag of the device is some partition's doing. */
  ghost predicate Blamed(st: State) {
    && (st.outputFailed ==> exists i :: 0 <= i < |st.parts| && Spoiled(st.parts[i]))
    && (st.pollFailed ==> exists i :: 0 <= i < |st.parts| && st.parts[i].counted && st.parts[i].pollFailed)
  }

  ghost predicate PartsInv(cfg: Config, st: State) {
    forall i | 0 <= i < |st.parts| ::
      PartInv(cfg, i, st.parts[i], st.threadsComplete == |st.parts|, st.outputFailed, st.pollFailed)
  }

  ghost predicate Inv(cfg: Config, st: State) {
    && |st.parts| == PartitionOf(cfg).threads
    && st.threadsComplete == Tally(st.parts)
    && PartsInv(cfg, st)
    && OneLast(st.parts)
    && UpdateOnlyIfClean(st.parts)
    && Blamed(st)
    && (st.complete <==> st.threadsComplete == |st.parts| && !st.outputFailed && !st.pollFailed)
    && (st.outputFailed || st.pollFailed ==> st.exitFailed)
    && (if st.advances == 0 then st.table == cfg.table else st.advances == 1 && Advanced(st.parts))
    && (cfg.oneProfile ==> forall i | 0 <= i < |st.parts| :: !st.parts[i].update)
  }

  // ---- Counting partitions ----

  lemma {:induction false} TallyBounds(parts: seq<Part>)
    ensures Tally(parts) <= |parts|
    ensures Tally(parts) == |parts| ==> forall i | 0 <= i < |parts| :: parts[i].counted
  {
    if parts != [] { TallyBounds(parts[..|parts| - 1]); }
  }

  lemma {:induction false} TallyMoves(parts: seq<Part>, i: nat, part: Part)
    requires i < |parts|
    ensures Tally(parts[i := part]) ==
            Tally(parts) + (if part.counted then 1 else 0) - (if parts[i].counted then 1 else 0)
  {
    var n := |parts| - 1;
    if i < n {
      TallyMoves(parts[..n], i, part);
      assert parts[i := part][..n] == parts[..n][i := part];
    } else {
      assert parts[i := part][..n] == parts[..n];
    }
  }

  lemma {:induction false} TallyFresh(n: nat)
    ensures Tally(seq(n, _ => FRESH)) == 0
  {
    if n > 0 {
      TallyFresh(n - 1);
      assert seq(n, _ => FRESH)[..n - 1] == seq(n - 1, _ => FRESH);
    }
  }

  // ---- Every step keeps the invariant ----

  /** A partition keeps what the others rely on when it moves on. */
  predicate MovesOn(p: Part, q: Part) {
    && q.counted == p.counted && q.last == p.last && q.update == p.update
    && (q.counted ==> q.outputFailed == p.outputFailed && q.pollFailed == p.pollFailed)
    && (p.pc == Gone ==> q == p)
  }

  /** Existing blame and an existing advance survive any partition moving on. */
  lemma MemoryKept(st: State, i: nat, p: Part)
    requires i < |st.parts| && MovesOn(st.parts[i], p)
    ensures Blamed(st) ==> Blamed(Put(st, i, p))
    ensures Advanced(st.parts) && (p.pc == Scheduling ==> st.parts[i].pc == Scheduling) ==>
            Advanced(Put(st, i, p).parts)
  {
    var parts := Put(st, i, p).parts;
    if k :| 0 <= k < |st.parts| && Spoiled(st.parts[k]) {
      assert Spoiled(parts[k]);
    }
    if k :| 0 <= k < |st.parts| && st.parts[k].counted && st.parts[k].pollFailed {
      assert parts[k].counted && parts[k].pollFailed;
    }
    if k :| 0 <= k < |st.parts| && st.parts[k].update && st.parts[k].pc != Scheduling {
      assert parts[k].update;
    }
  }

  /** The part of the invariant about who is last and who may update survives too. */
  lemma RolesKept(parts: seq<Part>, i: nat, p: Part)
    requires i < |parts| && MovesOn(parts[i], p)
    ensures OneLast(parts) ==> OneLast(parts[i := p])
    ensures UpdateOnlyIfClean(parts) ==> UpdateOnlyIfClean(parts[i := p])
    ensures Tally(parts[i := p]) == Tally(parts)
  {
    TallyMoves(parts, i, p);
  }

  /** Moving one partition, with the device's shared fields unchanged. */
  lemma MoveKeeps(cfg: Config, st: State, i: nat, p: Part)
    requires Inv(cfg, st) && i < |st.parts| && MovesOn(st.parts[i], p)
    requires PartInv(cfg, i, p, st.threadsComplete == |st.parts|, st.outputFailed, st.pollFailed)
    requires p.pc == Scheduling ==> st.parts[i].pc == Scheduling
    ensures Inv(cfg, Put(st, i, p))
  {
    RolesKept(st.parts, i, p);
    MemoryKept(st, i, p);
  }

  /** While some partition is not counted the schedule has not moved. */
  lemma UncountedMeansUnmoved(cfg: Config, st: State, i: nat)
    requires Inv(cfg, st) && i < |st.parts| && !st.parts[i].counted
    ensures st.advances == 0 && st.threadsComplete < |st.parts| && !st.complete
    ensures forall j | 0 <= j < |st.parts| :: !st.parts[j].last && !st.parts[j].update
  {
    TallyBounds(st.parts);
  }

  lemma StartKeeps(cfg: Config, st: State, i: nat, load: Load)
    requires Inv(cfg, st) && At(st, i, Idle)
    ensures Inv(cfg, Put(st, i, Started(st.parts[i], load)))
  {
    UncountedMeansUnmoved(cfg, st, i);
    MoveKeeps(cfg, st, i, Started(st.parts[i], load));
  }

  lemma SelectKeeps(cfg: Config, st: State, i: nat, ok: bool)
    requires Inv(cfg, st) && At(st, i, Selecting)
    ensures Inv(cfg, Put(st, i, Selected(st.parts[i], Share(cfg, st.table, i), ok)))
  {
    UncountedMeansUnmoved(cfg, st, i);
    MoveKeeps(cfg, st, i, Selected(st.parts[i], Share(cfg, st.table, i), ok));
  }

  lemma WriteKeeps(cfg: Config, st: State, i: nat, ok: bool)
    requires Inv(cfg, st) && At(st, i, Writing)
    ensures Inv(cfg, Put(st, i, st.parts[i].(pc := Completing, outputFailed := !ok)))
  {
    UncountedMeansUnmoved(cfg, st, i);
    MoveKeeps(cfg, st, i, st.parts[i].(pc := Completing, outputFailed := !ok));
  }

  lemma CompleteKeeps(cfg: Config, st: State, i: nat)
    requires Inv(cfg, st) && At(st, i, Completing)
    ensures Inv(cfg, Completed(cfg, st, i))
  {
    UncountedMeansUnmoved(cfg, st, i);
    var st' := Completed(cfg, st, i);
    TallyMoves(st.parts, i, st'.parts[i]);
    TallyBounds(st'.parts);
    assert PartsInv(cfg, st') by { CompleteKeepsParts(cfg, st, i); }
    assert Blamed(st') by { CompleteBlames(cfg, st, i); }
    assert OneLast(st'.parts);
    assert UpdateOnlyIfClean(st'.parts) by { CompleteUpdatesClean(cfg, st, i); }
  }

  lemma CompleteUpdatesClean(cfg: Config, st: State, i: nat)
    requires PartsInv(cfg, st) && i < |st.parts| && Tally(Completed(cfg, st, i).parts) == st.threadsComplete + 1
    requires forall j | 0 <= j < |st.parts| :: !st.parts[j].update
    ensures UpdateOnlyIfClean(Completed(cfg, st, i).parts)
  {
    var st' := Completed(cfg, st, i);
    TallyBounds(st'.parts);
    forall k, j | 0 <= k < |st'.parts| && 0 <= j < |st'.parts| && st'.parts[k].update ensures Clean(st'.parts[j]) {
      assert k == i && st'.parts[j].counted;
      assert PartInv(cfg, j, st.parts[j], st.threadsComplete == |st.parts|, st.outputFailed, st.pollFailed);
    }
  }

  lemma CompleteKeepsParts(cfg: Config, st: State, i: nat)
    requires Inv(cfg, st) && At(st, i, Completing)
    requires forall j | 0 <= j < |st.parts| :: !st.parts[j].last && !st.parts[j].update
    ensures PartsInv(cfg, Completed(cfg, st, i))
  {
    var st' := Completed(cfg, st, i);
    forall k | 0 <= k < |st'.parts|
      ensures PartInv(cfg, k, st'.parts[k], st'.threadsComplete == |st'.parts|, st'.outputFailed, st'.pollFailed)
    {
      assert PartInv(cfg, k, st.parts[k], st.threadsComplete == |st.parts|, st.outputFailed, st.pollFailed);
    }
  }

  lemma CompleteBlames(cfg: Config, st: State, i: nat)
    requires Blamed(st) && At(st, i, Completing) && !st.parts[i].counted
    ensures Blamed(Completed(cfg, st, i))
  {
    var st' := Completed(cfg, st, i);
    if st.outputFailed {
      var k :| 0 <= k < |st.parts| && Spoiled(st.parts[k]);
      assert Spoiled(st'.parts[k]);
    } else if st.parts[i].outputFailed {
      assert Spoiled(st'.parts[i]);
    }
    if st.pollFailed {
      var k :| 0 <= k < |st.parts| && st.parts[k].counted && st.parts[k].pollFailed;
      assert st'.parts[k].counted && st'.parts[k].pollFailed;
    } else if st.parts[i].pollFailed {
      assert st'.parts[i].counted && st'.parts[i].pollFailed;
    }
  }

  /** The one partition that may update the schedule has not done so yet. */
  lemma SchedulingIsFirst(cfg: Config, st: State, i: nat)
    requires Inv(cfg, st) && At(st, i, Scheduling)
    ensures st.advances == 0
  {
    assert PartInv(cfg, i, st.parts[i], st.threadsComplete == |st.parts|, st.outputFailed, st.pollFailed);
  }

  lemma UpdateKeeps(cfg: Config, st: State, i: nat, ok: bool)
    requires Inv(cfg, st) && At(st, i, Scheduling)
    ensures Inv(cfg, Apply(cfg, st, UpdateSchedule(i, ok)))
  {
    var p := st.parts[i].(pc := Timing, writeFailed := !ok);
    SchedulingIsFirst(cfg, st, i);
    MoveKeeps(cfg, st, i, p);
    assert Put(st, i, p).parts[i].update && Put(st, i, p).parts[i].pc != Scheduling;
  }

  lemma FlagKeeps(cfg: Config, st: State, i: nat)
    requires Inv(cfg, st) && At(st, i, Flagging)
    ensures Inv(cfg, Apply(cfg, st, Flag(i)))
  {
    var p := st.parts[i].(pc := Gone);
    var st' := Apply(cfg, st, Flag(i));
    assert PartInv(cfg, i, st.parts[i], st.threadsComplete == |st.parts|, st.outputFailed, st.pollFailed);
    RolesKept(st.parts, i, p);
    assert PartsInv(cfg, st') by { FlagKeepsParts(cfg, st, i); }
    assert Blamed(st') by {
      assert Spoiled(st'.parts[i]);
      MemoryKept(st, i, p);
    }
    assert st.advances == 1 ==> Advanced(st'.parts) by { MemoryKept(st, i, p); }
  }

  lemma FlagKeepsParts(cfg: Config, st: State, i: nat)
    requires PartsInv(cfg, st) && At(st, i, Flagging)
    ensures PartsInv(cfg, Apply(cfg, st, Flag(i)))
  {
    var st' := Apply(cfg, st, Flag(i));
    forall k | 0 <= k < |st'.parts|
      ensures PartInv(cfg, k, st'.parts[k], st'.threadsComplete == |st'.parts|, st'.outputFailed, st'.pollFailed)
    {
      assert PartInv(cfg, k, st.parts[k], st.threadsComplete == |st.parts|, st.outputFailed, st.pollFailed);
    }
  }

  lemma TimeKeeps(cfg: Config, st: State, i: nat, ok: bool)
    requires Inv(cfg, st) && At(st, i, Timing)
    ensures Inv(cfg, Put(st, i, st.parts[i].(pc := Reporting, writeFailed := st.parts[i].writeFailed || !ok)))
  {
    assert PartInv(cfg, i, st.parts[i], st.threadsComplete == |st.parts|, st.outputFailed, st.pollFailed);
    MoveKeeps(cfg, st, i, st.parts[i].(pc := Reporting, writeFailed := st.parts[i].writeFailed || !ok));
  }

  lemma ReportKeeps(cfg: Config, st: State, i: nat, errors: bool, ok: bool)
    requires Inv(cfg, st) && At(st, i, Reporting)
    ensures Inv(cfg, Put(st, i, Reported(st.parts[i], errors, ok)))
  {
    assert PartInv(cfg, i, st.parts[i], st.threadsComplete == |st.parts|, st.outputFailed, st.pollFailed);
    MoveKeeps(cfg, st, i, Reported(st.parts[i], errors, ok));
  }

  lemma OtherKeeps(cfg: Config, st: State)
    requires Inv(cfg, st)
    ensures Inv(cfg, st.(exitFailed := true))
  {
  }

  lemma StepKeeps(cfg: Config, st: State, step: Step)
    requires Inv(cfg, st) && Enabled(st, step)
    ensures Inv(cfg, Apply(cfg, st, step))
  {
    match step
    case Start(i, load) => StartKeeps(cfg, st, i, load);
    case Select(i, ok) => SelectKeeps(cfg, st, i, ok);
    case Write(i, ok) => WriteKeeps(cfg, st, i, ok);
    case Complete(i) => CompleteKeeps(cfg, st, i);
    case UpdateSchedule(i, ok) => UpdateKeeps(cfg, st, i, ok);
    case WriteTime(i, ok) => TimeKeeps(cfg, st, i, ok);
    case Report(i, errors, ok) => ReportKeeps(cfg, st, i, errors, ok);
    case Flag(i) => FlagKeeps(cfg, st, i);
    case OtherDeviceFails => OtherKeeps(cfg, st);
  }

  // ---- Whole runs ----

  ghost predicate Possible(cfg: Config, st: State, steps: seq<Step>)
    decreases |steps|
  {
    steps == [] || (Enabled(st, steps[0]) && Possible(cfg, Apply(cfg, st, steps[0]), steps[1..]))
  }

  ghost function After(cfg: Config, st: State, steps: seq<Step>): State
    requires Possible(cfg, st, steps)
    decreases |steps|
  {
    if steps == [] then st else After(cfg, Apply(cfg, st, steps[0]), steps[1..])
  }

  lemma {:induction false} RunKeeps(cfg: Config, st: State, steps: seq<Step>)
    requires Inv(cfg, st) && Possible(cfg, st, steps)
    ensures Inv(cfg, After(cfg, st, steps))
    decreases |steps|
  {
    if steps != [] {
      StepKeeps(cfg, st, steps[0]);
      RunKeeps(cfg, Apply(cfg, st, steps[0]), steps[1..]);
    }
  }

  lemma Reachable(cfg: Config, steps: seq<Step>)
    requires Possible(cfg, Initial(cfg), steps)
    ensures Inv(cfg, After(cfg, Initial(cfg), steps))
  {
    TallyFresh(PartitionOf(cfg).threads);
    RunKeeps(cfg, Initial(cfg), steps);
  }

  /** What the first n partitions selected, in thread order. */
  function SelectedRows(parts: seq<Part>, n: nat): seq<Item>
    requires n <= |parts|
  {
    if n == 0 then []
    else SelectedRows(parts, n - 1) + (if parts[n - 1].window.Some? then parts[n - 1].window.value else [])
  }

  lemma {:induction false} SelectedAreWindows(cfg: Config, st: State, n: nat)
    requires Inv(cfg, st) && n <= |st.parts|
    requires forall j | 0 <= j < |st.parts| :: Clean(st.parts[j])
    ensures SelectedRows(st.parts, n) == Windows(Chosen(cfg, cfg.table), PartitionOf(cfg).items, n)
  {
    if n > 0 {
      SelectedAreWindows(cfg, st, n - 1);
      assert PartInv(cfg, n - 1, st.parts[n - 1], st.threadsComplete == |st.parts|, st.outputFailed, st.pollFailed);
    }
  }

  /**
   In every run the schedule advances at most once.  When it does, or is about to,
   every partition has selected and written without error, and what they selected,
   in thread order, is exactly the list of due items.
   */
  lemma ScheduleAdvancesOnceAfterEverything(cfg: Config, steps: seq<Step>)
    requires ConfigOk(cfg) && Possible(cfg, Initial(cfg), steps)
    ensures var st := After(cfg, Initial(cfg), steps);
            && st.advances <= (if cfg.oneProfile then 0 else 1)
            && (st.advances == 1 || (exists i :: At(st, i, Scheduling)) ==>
                  && (forall j | 0 <= j < |st.parts| :: Clean(st.parts[j]))
                  && SelectedRows(st.parts, |st.parts|) == Chosen(cfg, cfg.table))
            && ((exists i :: At(st, i, Scheduling)) ==> st.table == cfg.table)
  {
    Reachable(cfg, steps);
    var st := After(cfg, Initial(cfg), steps);
    if st.advances == 1 || (exists i :: At(st, i, Scheduling)) {
      var i: nat :| i < |st.parts| && st.parts[i].update;
      SelectedAreWindows(cfg, st, |st.parts|);
      WindowsCoverOnce(Chosen(cfg, cfg.table), cfg.configured, cfg.total, cfg.counted, false);
    }
    if i: nat :| At(st, i, Scheduling) {
      SchedulingIsFirst(cfg, st, i);
    }
  }

  ghost predicate Quiescent(st: State) {
    forall i | 0 <= i < |st.parts| :: st.parts[i].pc in {Idle, Gone}
  }

  /**
   Once nothing is running, the device is complete exactly when every partition
   reached completion and every select and every write of every partition succeeded,
   whatever the order of late completion-write failures; a failure flag means a failing exit code.
   */
  lemma CompleteIffEverythingSucceeded(cfg: Config, steps: seq<Step>)
    requires Possible(cfg, Initial(cfg), steps) && Quiescent(After(cfg, Initial(cfg), steps))
    ensures var st := After(cfg, Initial(cfg), steps);
            && (st.complete <==> forall i | 0 <= i < |st.parts| :: Clean(st.parts[i]) && !st.parts[i].writeFailed)
            && (st.complete <==> st.threadsComplete == |st.parts| && !st.outputFailed && !st.pollFailed)
            && (st.outputFailed || st.pollFailed ==> st.exitFailed)
  {
    Reachable(cfg, steps);
    var st := After(cfg, Initial(cfg), steps);
    TallyBounds(st.parts);
    if forall i | 0 <= i < |st.parts| :: Clean(st.parts[i]) && !st.parts[i].writeFailed {
      TallyFull(st.parts);
    }
  }

  lemma {:induction false} TallyFull(parts: seq<Part>)
    requires forall i | 0 <= i < |parts| :: parts[i].counted
    ensures Tally(parts) == |parts|
  {
    if parts != [] { TallyFull(parts[..|parts| - 1]); }
  }

  // ---- One active profile ----

  /**
   What the second count query finds in the table the partitions select from.  With one active profile
   everything is selected, but a device with a single thread still counts the due items only.
   */
  function CountedIn(oneProfile: bool, threads: nat, table: seq<Item>): nat {
    if oneProfile && threads > 1 then |table| else |Due(table)|
  }

  lemma {:induction false} DueAtMostAll(table: seq<Item>)
    ensures |Due(table)| <= |table|
  {
    if table != [] { DueAtMostAll(table[1..]); }
  }

  /**
   The windows of a device's threads hold every item it should select, except where one profile is active,
   one thread polls the device and only some of its items are due: then as many items as are due are taken.
   */
  lemma AllSelectedIff(configured: int, total: nat, oneProfile: bool, interval: int, table: seq<Item>)
    ensures var threads := Capped(if configured < 1 then 1 else configured, total, false);
            var cfg := Config(configured, total, CountedIn(oneProfile, threads, table), oneProfile, interval, table);
            Windows(Chosen(cfg, table), PartitionOf(cfg).items, threads) == Chosen(cfg, table) <==>
            !(oneProfile && threads == 1 && 0 < |Due(table)| < |table|)
  {
    var threads := Capped(if configured < 1 then 1 else configured, total, false);
    var cfg := Config(configured, total, CountedIn(oneProfile, threads, table), oneProfile, interval, table);
    DueAtMostAll(table);
    if |Chosen(cfg, table)| <= cfg.counted {
      WindowsCoverOnce(Chosen(cfg, table), configured, total, cfg.counted, false);
    } else {
      OneWindow(table, cfg.counted);
    }
  }

  lemma OneWindow<T>(rows: seq<T>, items: nat)
    requires items < |rows|
    ensures |Windows(rows, items, 1)| == (if items == 0 then |rows| else items)
    ensures items == 0 ==> Windows(rows, items, 1) == rows
  {
    assert Windows(rows, items, 1) == Windows(rows, items, 0) + Window(rows, items, 1);
  }

  /** With one profile and one thread, a device with one item due and one not loses an item. */
  lemma OneThreadMissesItem(a: Item, b: Item)
    requires a.nextStep <= 0 < b.nextStep
    ensures var cfg := Config(1, 2, CountedIn(true, 1, [a, b]), true, 300, [a, b]);
            Chosen(cfg, cfg.table) == [a, b] && Windows([a, b], PartitionOf(cfg).items, 1) == [a]
  {
    var table := [a, b];
    assert table[1..] == [b] && [b][1..] == [];
    assert Due(table[1..]) == [];
    assert Due(table) == [a];
    assert Windows(table, 1, 1) == Windows(table, 1, 0) + Window(table, 1, 1);
  }
}
