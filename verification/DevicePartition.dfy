/**
 How a device's due items are divided: the launcher picks a thread count and a
 window size per device, and each polling thread selects its LIMIT window.
 Counting and selecting use the same due filter, or none with a single profile;
 the count may exceed the selection because only the
 selection filters on the poller id.
 */
module DevicePartition {

  /** A device's effective thread count and window size, as prepare_device_partition leaves them for thread 1. */
  datatype Partition = Partition(threads: nat, items: nat)

  /** SQL CEIL(n / d). */
  function CeilDiv(n: nat, d: nat): nat
    requires d > 0
  {
    if n == 0 then 0 else if n <= d then 1 else 1 + CeilDiv(n - d, d)
  }

  /** Each preparation counts the items and lowers the thread count to them, unless there are none. */
  function Capped(threads: nat, total: nat, pingOnly: bool): (r: nat)
    requires threads >= 1
    ensures 1 <= r <= threads
  {
    if pingOnly then 1 else if total != 0 && total < threads then total else threads
  }

  /**
   What prepare_device_partition leaves for the first thread, when its first query counts `total` items and
   its second `counted`; launch_poll_workers has raised a configured thread count below one to one.
   */
  function Prepare(configured: int, total: nat, counted: nat, pingOnly: bool): (p: Partition)
    ensures p.threads >= 1
  {
    var threads := Capped(if configured < 1 then 1 else configured, total, pingOnly);
    Partition(threads, if threads > 1 then CeilDiv(counted, threads) else counted)
  }

  /** The least multiple of d that reaches n. */
  lemma {:induction false} CeilCovers(n: nat, d: nat)
    requires d > 0
    ensures n <= d * CeilDiv(n, d) < n + d
    decreases n
  {
    if n > d {
      CeilCovers(n - d, d);
    }
  }

  /** The windows together are at least as long as the count, and a device with items has windows. */
  lemma PrepareCovers(configured: int, total: nat, counted: nat, pingOnly: bool)
    ensures var p := Prepare(configured, total, counted, pingOnly);
            counted <= p.items * p.threads && (counted > 0 ==> p.items > 0)
  {
    var p := Prepare(configured, total, counted, pingOnly);
    if p.threads > 1 {
      CeilCovers(counted, p.threads);
    }
  }

  /** Rows of "LIMIT offset, items" for one thread; a window size of zero leaves the query unlimited. */
  function Window<T>(rows: seq<T>, items: nat, hostThread: nat): seq<T>
    requires hostThread >= 1
  {
    if items == 0 then rows
    else
      var offset := items * (hostThread - 1);
      if |rows| <= offset then [] else if |rows| <= offset + items then rows[offset..] else rows[offset..offset + items]
  }

  /** The windows of threads 1 to n, one after the other. */
  function Windows<T>(rows: seq<T>, items: nat, n: nat): seq<T> {
    if n == 0 then [] else Windows(rows, items, n - 1) + Window(rows, items, n)
  }

  lemma {:induction false} WindowsArePrefix<T>(rows: seq<T>, items: nat, n: nat)
    requires items > 0
    ensures Windows(rows, items, n) == if |rows| <= items * n then rows else rows[..items * n]
  {
    if n > 0 {
      WindowsArePrefix(rows, items, n - 1);
      assert items * n == items * (n - 1) + items;
    } else {
      assert items * n == 0;
    }
  }

  /**
   The windows of a device's threads, in thread order, are its selected rows: nothing is skipped and nothing is
   read twice.
   */
  lemma WindowsCoverOnce<T>(rows: seq<T>, configured: int, total: nat, counted: nat, pingOnly: bool)
    requires |rows| <= counted
    ensures var p := Prepare(configured, total, counted, pingOnly);
            Windows(rows, p.items, p.threads) == rows
  {
    var p := Prepare(configured, total, counted, pingOnly);
    if counted == 0 {
      assert rows == [];
      EmptyWindows(rows, p.items, p.threads);
    } else {
      PrepareCovers(configured, total, counted, pingOnly);
      WindowsArePrefix(rows, p.items, p.threads);
    }
  }

  lemma {:induction false} EmptyWindows<T>(rows: seq<T>, items: nat, n: nat)
    requires rows == []
    ensures Windows(rows, items, n) == []
  {
    if n > 0 { EmptyWindows(rows, items, n - 1); }
  }

  /** Multiples of a window size are a window apart. */
  lemma {:induction false} Spread(items: nat, a: nat, b: nat)
    requires a < b
    ensures items * a + items <= items * b
    decreases b
  {
    if a + 1 < b {
      Spread(items, a, b - 1);
    }
  }

  lemma {:induction false} Quotient(k: nat, items: nat) returns (q: nat)
    requires items > 0
    ensures items * q <= k < items * q + items
    decreases k
  {
    q := 0;
    if k >= items {
      var q' := Quotient(k - items, items);
      q := q' + 1;
    }
  }

  /** The window of thread h holds position k exactly when h is one more than k's quotient by the window size. */
  lemma WindowHolds(length: nat, items: nat, k: nat, q: nat, h: nat)
    requires k < length && 1 <= h
    requires items * q <= k < items * q + items
    ensures (items * (h - 1) <= k < items * (h - 1) + items) <==> h == q + 1
  {
    if h - 1 < q {
      Spread(items, h - 1, q);
    } else if h - 1 > q {
      Spread(items, q, h - 1);
    }
  }

  /** Position k of the selected rows is in the window of exactly one thread. */
  lemma ExactlyOneWindow<T>(rows: seq<T>, items: nat, threads: nat, k: nat) returns (owner: nat)
    requires items > 0 && k < |rows| <= items * threads
    ensures 1 <= owner <= threads
    ensures forall h | 1 <= h <= threads ::
              (items * (h - 1) <= k < items * (h - 1) + |Window(rows, items, h)|) <==> h == owner
  {
    var q := Quotient(k, items);
    owner := q + 1;
    if q >= threads {
      if q > threads { Spread(items, threads, q); }
      assert false;
    }
    forall h | 1 <= h <= threads
      ensures (items * (h - 1) <= k < items * (h - 1) + |Window(rows, items, h)|) <==> h == owner
    {
      WindowHolds(|rows|, items, k, q, h);
      WindowLength(rows, items, h);
    }
  }

  lemma WindowLength<T>(rows: seq<T>, items: nat, h: nat)
    requires h >= 1 && items > 0
    ensures var offset := items * (h - 1);
            |Window(rows, items, h)| ==
            if |rows| <= offset then 0 else if |rows| <= offset + items then |rows| - offset else items
  {
  }

  // ---- Launching ----

  datatype Row = Row(hostId: int, deviceThreads: int)
  datatype Detail = Detail(hostId: int, hostThreads: nat, dataIds: nat)
  datatype Launch = Launch(device: nat, hostThread: nat)

  /** The two counts made when a thread is prepared; every thread of a device counts anew. */
  datatype Counts = Counts(total: nat, counted: nat)

  /** The counts made for thread t of the d-th device. */
  type Counting = (nat, nat) -> Counts

  /** The devices in launch order; poller 1 polls the items without a device first. */
  function Devices(hasDevice0: bool, rows: seq<Row>): seq<Row> {
    (if hasDevice0 then [Row(0, 1)] else []) + rows
  }

  /** What is recorded of a device with its first thread. */
  function DetailOf(row: Row, d: nat, counting: Counting, pingOnly: bool): (r: Detail)
    ensures r.hostThreads >= 1
  {
    var c := counting(d, 1);
    var p := Prepare(row.deviceThreads, c.total, c.counted, pingOnly);
    Detail(row.hostId, p.threads, p.items)
  }

  function Details(devices: seq<Row>, counting: Counting, pingOnly: bool): (details: seq<Detail>)
    ensures |details| == |devices|
  {
    seq(|devices|, d requires 0 <= d < |devices| => DetailOf(devices[d], d, counting, pingOnly))
  }

  /** The thread count once thread t is prepared; h is the recorded one. */
  function ThreadsAt(counting: Counting, d: nat, pingOnly: bool, h: nat, t: nat): (r: nat)
    requires h >= 1 && t >= 1
    ensures 1 <= r <= h
  {
    if t == 1 then h else Capped(ThreadsAt(counting, d, pingOnly, h, t - 1), counting(d, t).total, pingOnly)
  }

  /** The last thread launched, when thread t is reached: the first that is not below the thread count. */
  function LastThread(counting: Counting, d: nat, pingOnly: bool, h: nat, t: nat): (r: nat)
    requires h >= 1 && 1 <= t <= h
    ensures t <= r <= h
    decreases h - t
  {
    if t >= ThreadsAt(counting, d, pingOnly, h, t) then t else LastThread(counting, d, pingOnly, h, t + 1)
  }

  /** How many threads of each device are launched. */
  function Sizes(details: seq<Detail>, counting: Counting, pingOnly: bool): (sizes: seq<nat>)
    requires forall d | 0 <= d < |details| :: details[d].hostThreads >= 1
    ensures |sizes| == |details|
  {
    seq(|details|, d requires 0 <= d < |details| => LastThread(counting, d, pingOnly, details[d].hostThreads, 1))
  }

  // ---- When a device gets all its threads ----

  /** Every recount before the last thread finds no items or at least as many as there are threads. */
  predicate Steady(counting: Counting, d: nat, h: nat) {
    forall t | 2 <= t < h :: counting(d, t).total == 0 || counting(d, t).total >= h
  }

  lemma {:induction false} SteadyThreads(counting: Counting, d: nat, h: nat, t: nat)
    requires 1 <= t <= h && (forall u | 2 <= u <= t :: counting(d, u).total == 0 || counting(d, u).total >= h)
    ensures ThreadsAt(counting, d, false, h, t) == h
    decreases t
  {
    if t > 1 { SteadyThreads(counting, d, h, t - 1); }
  }

  lemma {:induction false} ThreadsShrink(counting: Counting, d: nat, h: nat, t: nat, u: nat)
    requires 1 <= t <= u && h >= 1
    ensures ThreadsAt(counting, d, false, h, u) <= ThreadsAt(counting, d, false, h, t)
    decreases u
  {
    if t < u { ThreadsShrink(counting, d, h, t, u - 1); }
  }

  lemma {:induction false} SteadyLaunches(counting: Counting, d: nat, h: nat, t: nat)
    requires 1 <= t <= h && Steady(counting, d, h)
    ensures LastThread(counting, d, false, h, t) == h
    decreases h - t
  {
    if t < h {
      SteadyThreads(counting, d, h, t);
      SteadyLaunches(counting, d, h, t + 1);
    }
  }

  /** A thread count at or below the thread before the last one keeps the last one from starting. */
  lemma {:induction false} ShortLaunch(counting: Counting, d: nat, h: nat, t: nat)
    requires 1 <= t < h && ThreadsAt(counting, d, false, h, h - 1) < h
    ensures LastThread(counting, d, false, h, t) < h
    decreases h - t
  {
    if t < h - 1 { ShortLaunch(counting, d, h, t + 1); }
  }

  /** As many threads are launched as are recorded exactly when the recounts are steady. */
  lemma AllLaunchedIffSteady(counting: Counting, d: nat, h: nat)
    requires h >= 1
    ensures LastThread(counting, d, false, h, 1) == h <==> Steady(counting, d, h)
  {
    if Steady(counting, d, h) {
      SteadyLaunches(counting, d, h, 1);
    } else {
      var t :| 2 <= t < h && counting(d, t).total != 0 && counting(d, t).total < h;
      ThreadsShrink(counting, d, h, t, h - 1);
      assert ThreadsAt(counting, d, false, h, t) <= counting(d, t).total;
      ShortLaunch(counting, d, h, 1);
    }
  }

  /** When pinging only, every device has one thread and it is launched. */
  lemma PingOnlyLaunchesOne(row: Row, d: nat, counting: Counting)
    ensures DetailOf(row, d, counting, true).hostThreads == 1 && LastThread(counting, d, true, 1, 1) == 1
  {
  }

  /** A device of three threads whose items have shrunk to two when its second thread is prepared gets two threads. */
  lemma ShrinkingCountLosesThread()
    ensures LastThread((d, t) => Counts(if t == 1 then 9 else 2, 9), 0, false, 3, 1) == 2
  {
    var counting: Counting := (d, t) => Counts(if t == 1 then 9 else 2, 9);
    assert ThreadsAt(counting, 0, false, 3, 1) == 3;
    assert ThreadsAt(counting, 0, false, 3, 2) == 2;
    assert LastThread(counting, 0, false, 3, 2) == 2;
  }

  // ---- The launch order ----

  /** The first n threads of one device. */
  function Threads(device: nat, n: nat): (s: seq<Launch>)
    ensures |s| == n
  {
    if n == 0 then [] else Threads(device, n - 1) + [Launch(device, n)]
  }

  /** Every thread of the first n devices, in launch order. */
  function Plan(sizes: seq<nat>, n: nat): seq<Launch>
    requires n <= |sizes|
  {
    if n == 0 then [] else Plan(sizes, n - 1) + Threads(n - 1, sizes[n - 1])
  }

  /** How many threads come before device d. */
  function Start(sizes: seq<nat>, d: nat): nat
    requires d <= |sizes|
  {
    if d == 0 then 0 else Start(sizes, d - 1) + sizes[d - 1]
  }

  lemma {:induction false} ThreadAt(device: nat, n: nat, k: nat)
    requires k < n
    ensures Threads(device, n)[k] == Launch(device, k + 1)
    decreases n
  {
    if k < n - 1 { ThreadAt(device, n - 1, k); }
  }

  /** Entry Start(d) + k of the plan is thread k + 1 of device d. */
  lemma {:induction false} PlanAt(sizes: seq<nat>, n: nat, d: nat, k: nat)
    requires d < n <= |sizes| && k < sizes[d]
    ensures |Plan(sizes, n)| == Start(sizes, n)
    ensures Start(sizes, d) + k < Start(sizes, n)
    ensures Start(sizes, d + 1) == Start(sizes, d) + sizes[d]
    ensures Plan(sizes, n)[Start(sizes, d) + k] == Launch(d, k + 1)
    decreases n
  {
    PlanLength(sizes, n);
    PlanLength(sizes, n - 1);
    if d < n - 1 {
      PlanAt(sizes, n - 1, d, k);
    } else {
      ThreadAt(d, sizes[d], k);
    }
  }

  lemma {:induction false} PlanLength(sizes: seq<nat>, n: nat)
    requires n <= |sizes|
    ensures |Plan(sizes, n)| == Start(sizes, n)
  {
    if n > 0 { PlanLength(sizes, n - 1); }
  }

  /** The plan's entries before Start(d) belong to devices before d. */
  lemma {:induction false} PlanBelow(sizes: seq<nat>, n: nat, d: nat, i: nat)
    requires d <= n <= |sizes| && i < Start(sizes, d)
    ensures i < |Plan(sizes, n)| && Plan(sizes, n)[i].device < d
    decreases n, d
  {
    PlanLength(sizes, n);
    PlanLength(sizes, n - 1);
    if i < Start(sizes, n - 1) {
      PlanBelow(sizes, n - 1, if d == n then n - 1 else d, i);
    } else {
      assert d == n by { if d < n { StartGrows(sizes, d, n - 1); } }
      ThreadAt(n - 1, sizes[n - 1], i - Start(sizes, n - 1));
    }
  }

  lemma {:induction false} StartGrows(sizes: seq<nat>, m: nat, n: nat)
    requires m <= n <= |sizes|
    ensures Start(sizes, m) <= Start(sizes, n)
    decreases n
  {
    if m < n { StartGrows(sizes, m, n - 1); }
  }

  /** prepare_device_partition for the thread numbered `current`. */
  method PreparePartition(counts: Counts, pingOnly: bool, current: nat, threads: nat, items: nat)
    returns (threads': nat, items': nat)
    requires threads >= 1
    ensures threads' == Capped(threads, counts.total, pingOnly)
    ensures current == 1 ==> Partition(threads', items') == Prepare(threads, counts.total, counts.counted, pingOnly)
    ensures threads' == 1 ==> items' == counts.counted
    ensures current != 1 && threads' > 1 ==> items' == items
  {
    threads', items' := threads, items;
    if pingOnly {
      threads' := 1;
    } else if counts.total != 0 && counts.total < threads {
      threads' := counts.total;
    }
    if threads' > 1 {
      if current == 1 { items' := CeilDiv(counts.counted, threads'); }
    } else {
      items' := counts.counted;
    }
  }

  /** What launch_poll_workers leaves behind. */
  ghost predicate Outcome(all: seq<Detail>, sizes: seq<nat>, numRows: nat, starts: nat -> bool,
                          launched: seq<Launch>, details: seq<Detail>, failed: bool)
  {
    && launched <= Plan(sizes, |sizes|)
    && details <= all
    && (forall i | 0 <= i < |launched| :: starts(i) && launched[i].device < |details|)
    && (!failed <==> launched == Plan(sizes, |sizes|) && |all| == numRows)
    && (launched != Plan(sizes, |sizes|) ==> !starts(|launched|))
  }

  /** Closing the launch loop: the threads launched are a stretch of the plan that ends within the recorded devices. */
  lemma Closing(all: seq<Detail>, sizes: seq<nat>, numRows: nat, starts: nat -> bool,
                launched: seq<Launch>, details: seq<Detail>, failed: bool)
    requires |sizes| == |all| && launched <= Plan(sizes, |sizes|) && details <= all
    requires |launched| <= Start(sizes, |details|)
    requires forall i | 0 <= i < |launched| :: starts(i)
    requires !failed <==> launched == Plan(sizes, |sizes|) && |all| == numRows
    requires launched != Plan(sizes, |sizes|) ==> !starts(|launched|)
    ensures Outcome(all, sizes, numRows, starts, launched, details, failed)
  {
    forall i | 0 <= i < |launched| ensures launched[i].device < |details| {
      PlanBelow(sizes, |sizes|, |details|, i);
    }
  }

  /** Appending the next entry of a list to a prefix of it. */
  lemma PrefixGrows<T>(prefix: seq<T>, whole: seq<T>, x: T)
    requires prefix <= whole && |prefix| < |whole| && whole[|prefix|] == x
    ensures prefix + [x] <= whole
  {
  }

  /** The loop's variables: the device being launched and how far its partition has got. */
  datatype Cursor = Cursor(fetched: nat, hostId: int, current: nat, threads: nat, items: nat, changeHost: bool)

  /** The thread just prepared, against what is recorded of its device. */
  ghost predicate Prepared(c: Cursor, detail: Detail, counting: Counting, d: nat, pingOnly: bool) {
    && detail.hostThreads >= 1 && 1 <= c.current <= detail.hostThreads
    && c.threads == ThreadsAt(counting, d, pingOnly, detail.hostThreads, c.current)
    && LastThread(counting, d, pingOnly, detail.hostThreads, 1) ==
       LastThread(counting, d, pingOnly, detail.hostThreads, c.current)
    && (c.changeHost <==> c.current == LastThread(counting, d, pingOnly, detail.hostThreads, 1))
    && (c.current == 1 ==> Detail(c.hostId, c.threads, c.items) == detail)
  }

  ghost predicate CursorInv(c: Cursor, rows: seq<Row>, hasDevice0: bool, counting: Counting, pingOnly: bool,
                            counter: nat) {
    var devices := Devices(hasDevice0, rows);
    && counter <= |devices| && c.fetched <= |rows|
    && c.fetched + (if hasDevice0 then 1 else 0) == counter + (if c.changeHost then 0 else 1)
    && (!c.changeHost ==> counter < |devices| && c.hostId == devices[counter].hostId)
    && (!c.changeHost && c.current == 0 ==> c.threads == 1 == devices[counter].deviceThreads)
    && (!c.changeHost && c.current > 0 ==>
        Prepared(c, DetailOf(devices[counter], counter, counting, pingOnly), counting, counter, pingOnly))
  }

  /** The next thread of a device whose last prepared thread was not its last one. */
  lemma NextIsPrepared(c: Cursor, n: Cursor, detail: Detail, counting: Counting, d: nat, pingOnly: bool)
    requires Prepared(c, detail, counting, d, pingOnly) && !c.changeHost
    requires n.current == c.current + 1 && n.threads == Capped(c.threads, counting(d, n.current).total, pingOnly)
    requires n.changeHost <==> n.current >= n.threads
    ensures Prepared(n, detail, counting, d, pingOnly)
  {
    var h := detail.hostThreads;
    assert c.current < LastThread(counting, d, pingOnly, h, c.current);
  }

  lemma FirstIsPrepared(n: Cursor, row: Row, counting: Counting, d: nat, pingOnly: bool)
    requires n.current == 1 && n.hostId == row.hostId && (n.changeHost <==> n.current >= n.threads)
    requires Partition(n.threads, n.items) ==
             Prepare(row.deviceThreads, counting(d, 1).total, counting(d, 1).counted, pingOnly)
    ensures Prepared(n, DetailOf(row, d, counting, pingOnly), counting, d, pingOnly)
  {
  }

  /** The head of one turn: fetch the next device when the last one is done, then prepare its partition. */
  method NextThread(c: Cursor, rows: seq<Row>, hasDevice0: bool, counting: Counting, pingOnly: bool, counter: nat)
    returns (n: Cursor)
    requires CursorInv(c, rows, hasDevice0, counting, pingOnly, counter)
    requires c.changeHost ==> c.fetched < |rows|
    ensures var devices := Devices(hasDevice0, rows);
            && counter < |devices|
            && n.current == (if c.changeHost then 1 else c.current + 1)
            && n.fetched == (if c.changeHost then c.fetched + 1 else c.fetched)
            && Prepared(n, DetailOf(devices[counter], counter, counting, pingOnly), counting, counter, pingOnly)
            && CursorInv(n, rows, hasDevice0, counting, pingOnly, if n.changeHost then counter + 1 else counter)
  {
    var fetched, hostId, threads, current := c.fetched, c.hostId, c.threads, c.current + 1;
    ghost var row := Devices(hasDevice0, rows)[counter];
    if c.changeHost {
      hostId := rows[fetched].hostId;
      threads := if rows[fetched].deviceThreads < 1 then 1 else rows[fetched].deviceThreads;
      fetched, current := fetched + 1, 1;
    }
    var threads', items' := PreparePartition(counting(counter, current), pingOnly, current, threads, c.items);
    n := Cursor(fetched, hostId, current, threads', items', current >= threads');
    if current == 1 {
      FirstIsPrepared(n, row, counting, counter, pingOnly);
    } else {
      NextIsPrepared(c, n, DetailOf(row, counter, counting, pingOnly), counting, counter, pingOnly);
    }
  }

  /** What is launched and recorded when `done` threads of device `counter` run. */
  ghost predicate Progress(all: seq<Detail>, sizes: seq<nat>, counter: nat, done: nat,
                           launched: seq<Launch>, details: seq<Detail>, starts: nat -> bool)
  {
    && counter <= |all| == |sizes|
    && launched <= Plan(sizes, |sizes|) && |launched| == Start(sizes, counter) + done
    && details <= all && |details| == counter + (if done == 0 then 0 else 1)
    && (forall i | 0 <= i < |launched| :: starts(i))
  }

  /** The tail of one turn: record the device with its first thread, then start the thread. */
  method StartThread(c: Cursor, counter: nat, launched: seq<Launch>, details: seq<Detail>, starts: nat -> bool,
                     ghost all: seq<Detail>, ghost sizes: seq<nat>, ghost numRows: nat)
    returns (ok: bool, launched': seq<Launch>, details': seq<Detail>)
    requires counter < |all| == |sizes| && 1 <= c.current <= sizes[counter]
    requires c.changeHost <==> c.current == sizes[counter]
    requires c.current == 1 ==> Detail(c.hostId, c.threads, c.items) == all[counter]
    requires Progress(all, sizes, counter, c.current - 1, launched, details, starts)
    ensures ok && c.changeHost ==> Progress(all, sizes, counter + 1, 0, launched', details', starts)
    ensures ok && !c.changeHost ==> Progress(all, sizes, counter, c.current, launched', details', starts)
    ensures !ok ==> Outcome(all, sizes, numRows, starts, launched', details', true)
  {
    launched', details' := launched, details;
    if c.current == 1 {
      PrefixGrows(details, all, all[counter]);
      details' := details + [Detail(c.hostId, c.threads, c.items)];
    }
    PlanAt(sizes, |sizes|, counter, c.current - 1);
    ok := starts(|launched|);
    if ok {
      PrefixGrows(launched, Plan(sizes, |sizes|), Launch(counter, c.current));
      launched' := launched + [Launch(counter, c.current)];
    } else {
      Closing(all, sizes, numRows, starts, launched', details', true);
    }
  }

  /** The loop's state: where the cursor stands, and what is launched and recorded. */
  ghost predicate Underway(c: Cursor, rows: seq<Row>, hasDevice0: bool, counting: Counting, pingOnly: bool,
                           counter: nat, launched: seq<Launch>, details: seq<Detail>, starts: nat -> bool)
  {
    var all := Details(Devices(hasDevice0, rows), counting, pingOnly);
    && CursorInv(c, rows, hasDevice0, counting, pingOnly, counter)
    && Progress(all, Sizes(all, counting, pingOnly), counter,
                if c.changeHost then 0 else c.current, launched, details, starts)
  }

  /** Threads of the current device still to come at most. */
  ghost function Left(rows: seq<Row>, hasDevice0: bool, counting: Counting, pingOnly: bool, counter: nat,
                      current: nat): nat {
    var devices := Devices(hasDevice0, rows);
    if counter < |devices| && current <= DetailOf(devices[counter], counter, counting, pingOnly).hostThreads
    then DetailOf(devices[counter], counter, counting, pingOnly).hostThreads - current else 0
  }

  /** One turn of the loop. */
  method LaunchOne(c: Cursor, rows: seq<Row>, hasDevice0: bool, counting: Counting, pingOnly: bool, counter: nat,
                   ghost numRows: nat, launched: seq<Launch>, details: seq<Detail>, starts: nat -> bool)
    returns (c': Cursor, counter': nat, ok: bool, launched': seq<Launch>, details': seq<Detail>)
    requires Underway(c, rows, hasDevice0, counting, pingOnly, counter, launched, details, starts)
    requires c.changeHost ==> c.fetched < |rows|
    ensures ok ==> Underway(c', rows, hasDevice0, counting, pingOnly, counter', launched', details', starts)
    ensures ok ==> counter' == counter + (if c'.changeHost then 1 else 0)
    ensures ok ==> c'.fetched == c.fetched + (if c.changeHost then 1 else 0)
    ensures ok && !c.changeHost && !c'.changeHost ==>
              Left(rows, hasDevice0, counting, pingOnly, counter', c'.current) <
              Left(rows, hasDevice0, counting, pingOnly, counter, c.current)
    ensures !ok ==> var all := Details(Devices(hasDevice0, rows), counting, pingOnly);
                    Outcome(all, Sizes(all, counting, pingOnly), numRows, starts, launched', details', true)
  {
    ghost var all := Details(Devices(hasDevice0, rows), counting, pingOnly);
    ghost var sizes := Sizes(all, counting, pingOnly);
    c' := NextThread(c, rows, hasDevice0, counting, pingOnly, counter);
    assert all[counter] == DetailOf(Devices(hasDevice0, rows)[counter], counter, counting, pingOnly);
    ok, launched', details' := StartThread(c', counter, launched, details, starts, all, sizes, numRows);
    counter' := if c'.changeHost then counter + 1 else counter;
  }

  lemma StartsUnderway(rows: seq<Row>, hasDevice0: bool, counting: Counting, pingOnly: bool, starts: nat -> bool)
    ensures Underway(Cursor(0, 0, 0, 1, 0, !hasDevice0), rows, hasDevice0, counting, pingOnly, 0, [], [], starts)
  {
  }

  /** The loop ends when the result set does or every device has been counted. */
  lemma EndsLaunching(c: Cursor, rows: seq<Row>, hasDevice0: bool, counting: Counting, pingOnly: bool, counter: nat,
                      numRows: nat, launched: seq<Launch>, details: seq<Detail>, starts: nat -> bool)
    requires Underway(c, rows, hasDevice0, counting, pingOnly, counter, launched, details, starts)
    requires |Devices(hasDevice0, rows)| <= numRows
    requires counter == numRows || (counter < numRows && c.changeHost && c.fetched == |rows|)
    ensures var all := Details(Devices(hasDevice0, rows), counting, pingOnly);
            Outcome(all, Sizes(all, counting, pingOnly), numRows, starts, launched, details, counter != numRows)
  {
    var all := Details(Devices(hasDevice0, rows), counting, pingOnly);
    var sizes := Sizes(all, counting, pingOnly);
    assert counter == |all|;
    PlanLength(sizes, |sizes|);
    Closing(all, sizes, numRows, starts, launched, details, counter != numRows);
  }

  /**
   launch_poll_workers: one turn per polling thread.  `counting` gives the counts made for every
   thread, `starts` says whether the n-th start_poll_worker succeeds; the result set may end before
   `numRows`.  The threads launched are the planned ones up to the first failed start.
   */
  method LaunchPollWorkers(rows: seq<Row>, hasDevice0: bool, numRows: nat,
                           counting: Counting, pingOnly: bool, starts: nat -> bool)
    returns (launched: seq<Launch>, details: seq<Detail>, failed: bool)
    requires |Devices(hasDevice0, rows)| <= numRows
    ensures var all := Details(Devices(hasDevice0, rows), counting, pingOnly);
            Outcome(all, Sizes(all, counting, pingOnly), numRows, starts, launched, details, failed)
  {
    var counter, ok := 0, true;
    var c := Cursor(0, 0, 0, 1, 0, !hasDevice0);
    launched, details := [], [];
    StartsUnderway(rows, hasDevice0, counting, pingOnly, starts);
    while counter < numRows && !(c.changeHost && c.fetched == |rows|)
      invariant counter <= numRows
      invariant Underway(c, rows, hasDevice0, counting, pingOnly, counter, launched, details, starts)
      decreases numRows - counter, |rows| - c.fetched, Left(rows, hasDevice0, counting, pingOnly, counter, c.current)
    {
      c, counter, ok, launched, details :=
        LaunchOne(c, rows, hasDevice0, counting, pingOnly, counter, numRows, launched, details, starts);
      if !ok { return launched, details, true; }
    }
    EndsLaunching(c, rows, hasDevice0, counting, pingOnly, counter, numRows, launched, details, starts);
    failed := counter != numRows;
  }
}
