/**
 Thread permits, the startup permit and the database connection pools, as the
 launcher and any number of polling threads use them.  Every step is one section
 run under a permit mutex or LOCK_POOL, so a run is an arbitrary interleaving.
 Timeouts and thread-creation failures are free choices of the launcher's steps.
 */
module WorkerPermits {

  type Wid = nat

  const INT_MAX := 0x7fff_ffff

  datatype Option<+T> = None | Some(value: T)

  /** start_poll_worker and wait_for_workers, as seen by the permits. */
  datatype Launcher = Choosing | HasThread | HasBoth | GivesThread | Waiting | Returned

  /** A polling thread from pthread_create to its last permit release. */
  datatype Worker =
    | Starting
    | AskLocal
    | AskRemote(local: nat)
    | Refused(local: nat)
    | Polling(local: nat, other: Option<nat>)
    | GiveRemote(remote: nat)
    | Leaving

  datatype State = State(
    threads: nat, remoteMode: bool,
    available: nat, startup: nat,
    launcher: Launcher, workers: map<Wid, Worker>,
    localFree: seq<bool>, remoteFree: seq<bool>)

  /** runtime.c gives `threads` thread permits, one startup permit, and a pool of `threads` connections per database. */
  predicate Init(st: State) {
    && 0 < st.threads <= INT_MAX
    && st.available == st.threads && st.startup == 1
    && st.launcher == Choosing && st.workers == map[]
    && st.localFree == seq(st.threads, _ => true) && st.remoteFree == seq(st.threads, _ => true)
  }

  /** spine_permits_release */
  function Released(available: nat): nat {
    if available < INT_MAX then available + 1 else available
  }

  /** The scan of db_get_connection. */
  function FirstFree(free: seq<bool>, from: nat): (i: nat)
    requires from <= |free|
    ensures from <= i <= |free|
    ensures forall k | from <= k < i :: !free[k]
    ensures i < |free| ==> free[i]
    decreases |free| - from
  {
    if from == |free| || free[from] then from else FirstFree(free, from + 1)
  }

  datatype Step =
    | TakeThread
    | TakeStartup
    | StartupTimedOut
    | Create(w: Wid)
    | CreateFailed
    | ReturnThread
    | StopLaunching
    | CheckDone
    | Begin(w: Wid)
    | GetLocal(w: Wid)
    | GetRemote(w: Wid)
    | DropLocal(w: Wid)
    | ReleaseLocal(w: Wid)
    | ReleaseRemote(w: Wid)
    | Finish(w: Wid)

  predicate Enabled(st: State, step: Step) {
    match step
    case TakeThread => st.launcher == Choosing && st.available > 0
    case TakeStartup => st.launcher == HasThread && st.startup > 0
    case StartupTimedOut => st.launcher == HasThread
    case Create(w) => st.launcher == HasBoth && w !in st.workers
    case CreateFailed => st.launcher == HasBoth
    case ReturnThread => st.launcher == GivesThread
    case StopLaunching => st.launcher == Choosing
    case CheckDone => st.launcher == Waiting && st.available >= st.threads
    case Begin(w) => w in st.workers && st.workers[w] == Starting
    case GetLocal(w) => w in st.workers && st.workers[w] == AskLocal
    case GetRemote(w) => w in st.workers && st.workers[w].AskRemote?
    case DropLocal(w) => w in st.workers && st.workers[w].Refused?
    case ReleaseLocal(w) => w in st.workers && st.workers[w].Polling?
    case ReleaseRemote(w) => w in st.workers && st.workers[w].GiveRemote?
    case Finish(w) => w in st.workers && st.workers[w] == Leaving
  }

  function Move(st: State, w: Wid, pc: Worker): State {
    st.(workers := st.workers[w := pc])
  }

  function MarkFree(free: seq<bool>, id: nat): seq<bool> {
    if id < |free| then free[id := true] else free
  }

  /** A worker that asked the local pool: poll_host goes on, or reports that no connection is available. */
  function GotLocal(st: State, w: Wid): State {
    var id := FirstFree(st.localFree, 0);
    if id == |st.localFree| then Move(st, w, Leaving)
    else
      var pc := if st.remoteMode then AskRemote(id) else Polling(id, None);
      Move(st, w, pc).(localFree := st.localFree[id := false])
  }

  function GotRemote(st: State, w: Wid, local: nat): State {
    var id := FirstFree(st.remoteFree, 0);
    if id == |st.remoteFree| then Move(st, w, Refused(local))
    else Move(st, w, Polling(local, Some(id))).(remoteFree := st.remoteFree[id := false])
  }

  function Apply(st: State, step: Step): State
    requires Enabled(st, step)
  {
    match step
    case TakeThread => st.(available := st.available - 1, launcher := HasThread)
    case TakeStartup => st.(startup := st.startup - 1, launcher := HasBoth)
    case StartupTimedOut => st.(launcher := GivesThread)
    case Create(w) => Move(st, w, Starting).(launcher := Choosing)
    case CreateFailed => st.(startup := Released(st.startup), launcher := GivesThread)
    case ReturnThread => st.(available := Released(st.available), launcher := Waiting)
    case StopLaunching => st.(launcher := Waiting)
    case CheckDone => st.(launcher := Returned)
    case Begin(w) => Move(st, w, AskLocal).(startup := Released(st.startup))
    case GetLocal(w) => GotLocal(st, w)
    case GetRemote(w) => GotRemote(st, w, st.workers[w].local)
    case DropLocal(w) => Move(st, w, Leaving).(localFree := MarkFree(st.localFree, st.workers[w].local))
    case ReleaseLocal(w) =>
      var pc := if st.workers[w].other.Some? then GiveRemote(st.workers[w].other.value) else Leaving;
      Move(st, w, pc).(localFree := MarkFree(st.localFree, st.workers[w].local))
    case ReleaseRemote(w) => Move(st, w, Leaving).(remoteFree := MarkFree(st.remoteFree, st.workers[w].remote))
    case Finish(w) => st.(workers := st.workers - {w}, available := Released(st.available))
  }

  // ---- The invariant ----

  function HoldsThread(l: Launcher): nat {
    if l in {HasThread, HasBoth, GivesThread} then 1 else 0
  }

  function HoldsStartup(l: Launcher): nat {
    if l == HasBoth then 1 else 0
  }

  function LocalOf(pc: Worker): Option<nat> {
    match pc
    case AskRemote(local) => Some(local)
    case Refused(local) => Some(local)
    case Polling(local, _) => Some(local)
    case _ => None
  }

  function RemoteOf(pc: Worker): Option<nat> {
    match pc
    case Polling(_, other) => other
    case GiveRemote(remote) => Some(remote)
    case _ => None
  }

  /** Which connections each live thread holds. */
  type Holding = map<Wid, Option<nat>>

  function Locals(workers: map<Wid, Worker>): Holding {
    map w | w in workers :: LocalOf(workers[w])
  }

  function Remotes(workers: map<Wid, Worker>): Holding {
    map w | w in workers :: RemoteOf(workers[w])
  }

  function StartingSet(workers: map<Wid, Worker>): set<Wid> {
    set w | w in workers && workers[w] == Starting
  }

  ghost predicate HeldBySomeone(hold: Holding, id: nat) {
    exists w :: w in hold && hold[w] == Some(id)
  }

  /** A pool agrees with its holders: the taken entries are exactly the held ones, each held once. */
  ghost predicate PoolInv(free: seq<bool>, hold: Holding) {
    && (forall w :: w in hold && hold[w].Some? ==> hold[w].value < |free| && !free[hold[w].value])
    && (forall w, v :: w in hold && v in hold && w != v && hold[w].Some? ==> hold[w] != hold[v])
    && (forall id | 0 <= id < |free| :: !free[id] ==> HeldBySomeone(hold, id))
  }

  ghost predicate Conserved(st: State) {
    && st.available + HoldsThread(st.launcher) + |st.workers| == st.threads <= INT_MAX
    && st.startup + HoldsStartup(st.launcher) + |StartingSet(st.workers)| == 1
  }

  ghost predicate Inv(st: State) {
    && Conserved(st)
    && |st.localFree| == |st.remoteFree| == st.threads
    && PoolInv(st.localFree, Locals(st.workers))
    && PoolInv(st.remoteFree, Remotes(st.workers))
    && (forall w :: w in st.workers ==> !st.workers[w].Refused?)
    && (st.launcher == Returned ==> st.workers == map[])
  }

  // ---- A live thread finds a free connection ----

  /** The first n pool entries, all taken, have n distinct holders. */
  lemma {:induction false} HoldersOf(free: seq<bool>, hold: Holding, n: nat) returns (s: set<Wid>)
    requires PoolInv(free, hold) && n <= |free|
    requires forall id | 0 <= id < n :: !free[id]
    ensures |s| == n && s <= hold.Keys
    ensures forall w :: w in s ==> hold[w].Some? && hold[w].value < n
    decreases n
  {
    if n == 0 {
      s := {};
    } else {
      var s' := HoldersOf(free, hold, n - 1);
      assert !free[n - 1] && HeldBySomeone(hold, n - 1);
      var w :| w in hold && hold[w] == Some(n - 1);
      s := s' + {w};
    }
  }

  lemma SubsetSize(a: set<Wid>, b: set<Wid>)
    requires a <= b
    ensures |a| <= |b|
  {
    assert b == a + (b - a);
  }

  /** With no more live threads than connections, a thread that holds none can have one. */
  lemma FreeOneExists(free: seq<bool>, hold: Holding, w: Wid)
    requires PoolInv(free, hold) && |hold| <= |free|
    requires w in hold && hold[w] == None
    ensures FirstFree(free, 0) < |free|
  {
    var others := hold.Keys - {w};
    assert |others| == |hold| - 1;
    if FirstFree(free, 0) == |free| {
      var s := HoldersOf(free, hold, |free|);
      SubsetSize(s, others);
      assert false;
    }
  }

  // ---- Pools under the steps ----

  lemma TakeKeepsPool(free: seq<bool>, hold: Holding, w: Wid, id: nat)
    requires PoolInv(free, hold) && w in hold && hold[w] == None
    requires id < |free| && free[id]
    ensures PoolInv(free[id := false], hold[w := Some(id)])
  {
    var hold' := hold[w := Some(id)];
    forall k | 0 <= k < |free| && !free[id := false][k] ensures HeldBySomeone(hold', k) {
      if k == id {
        assert hold'[w] == Some(k);
      } else {
        assert HeldBySomeone(hold, k);
        var v :| v in hold && hold[v] == Some(k);
        assert hold'[v] == Some(k);
      }
    }
  }

  lemma GiveKeepsPool(free: seq<bool>, hold: Holding, w: Wid)
    requires PoolInv(free, hold) && w in hold && hold[w].Some?
    ensures PoolInv(free[hold[w].value := true], hold[w := None])
  {
    var hold', free' := hold[w := None], free[hold[w].value := true];
    forall k | 0 <= k < |free| && !free'[k] ensures HeldBySomeone(hold', k) {
      assert HeldBySomeone(hold, k);
      var v :| v in hold && hold[v] == Some(k);
      assert hold'[v] == Some(k);
    }
  }

  /** Threads that hold nothing may come and go. */
  lemma EmptyHandedKeepsPool(free: seq<bool>, hold: Holding, hold': Holding, w: Wid)
    requires PoolInv(free, hold)
    requires w in hold ==> hold[w] == None
    requires w in hold' ==> hold'[w] == None
    requires forall v :: v != w ==> (v in hold <==> v in hold')
    requires forall v :: v != w && v in hold && v in hold' ==> hold[v] == hold'[v]
    ensures PoolInv(free, hold')
  {
    forall k | 0 <= k < |free| && !free[k] ensures HeldBySomeone(hold', k) {
      assert HeldBySomeone(hold, k);
      var v :| v in hold && hold[v] == Some(k);
      assert hold'[v] == Some(k);
    }
  }

  // ---- Every step keeps the invariant ----

  /** Moving one live thread keeps the head count, and its connections follow its new state. */
  lemma MoveCounts(workers: map<Wid, Worker>, w: Wid, pc: Worker)
    requires w in workers && pc != Starting
    ensures |workers[w := pc]| == |workers|
    ensures StartingSet(workers[w := pc]) == StartingSet(workers) - {w}
    ensures Locals(workers[w := pc]) == Locals(workers)[w := LocalOf(pc)]
    ensures Remotes(workers[w := pc]) == Remotes(workers)[w := RemoteOf(pc)]
  {
    assert workers[w := pc].Keys == workers.Keys;
    MoveStarting(workers, w, pc);
    MoveHoldings(workers, w, pc);
  }

  lemma MoveStarting(workers: map<Wid, Worker>, w: Wid, pc: Worker)
    requires w in workers && pc != Starting
    ensures StartingSet(workers[w := pc]) == StartingSet(workers) - {w}
  {
  }

  lemma MoveHoldings(workers: map<Wid, Worker>, w: Wid, pc: Worker)
    requires w in workers
    ensures Locals(workers[w := pc]) == Locals(workers)[w := LocalOf(pc)]
    ensures Remotes(workers[w := pc]) == Remotes(workers)[w := RemoteOf(pc)]
  {
  }

  lemma SameHolding(hold: Holding, w: Wid, v: Option<nat>)
    requires w in hold && hold[w] == v
    ensures hold[w := v] == hold
  {
  }

  lemma BornOrGone(workers: map<Wid, Worker>, w: Wid)
    requires w !in workers
    ensures |workers[w := Starting]| == |workers| + 1
    ensures StartingSet(workers[w := Starting]) == StartingSet(workers) + {w}
    ensures |StartingSet(workers) + {w}| == |StartingSet(workers)| + 1
  {
    assert workers[w := Starting].Keys == workers.Keys + {w};
  }

  lemma CreateKeeps(st: State, w: Wid, t: State)
    requires Inv(st) && Enabled(st, Create(w)) && t == Move(st, w, Starting).(launcher := Choosing)
    ensures Inv(t)
  {
    var workers' := st.workers[w := Starting];
    assert Conserved(t) by { BornOrGone(st.workers, w); }
    assert PoolInv(st.localFree, Locals(workers')) by {
      EmptyHandedKeepsPool(st.localFree, Locals(st.workers), Locals(workers'), w);
    }
    assert PoolInv(st.remoteFree, Remotes(workers')) by {
      EmptyHandedKeepsPool(st.remoteFree, Remotes(st.workers), Remotes(workers'), w);
    }
  }

  lemma BeginKeeps(st: State, w: Wid)
    requires Inv(st) && Enabled(st, Begin(w))
    ensures Inv(Apply(st, Begin(w)))
  {
    MoveCounts(st.workers, w, AskLocal);
    assert w in StartingSet(st.workers);
    SameHolding(Locals(st.workers), w, None);
    SameHolding(Remotes(st.workers), w, None);
  }

  /** What is left to show for a thread that is past its start: its pools. */
  lemma MovedKeeps(st: State, w: Wid, pc: Worker, localFree: seq<bool>, remoteFree: seq<bool>)
    requires Inv(st) && w in st.workers && st.workers[w] != Starting && pc != Starting && !pc.Refused?
    requires |localFree| == |remoteFree| == st.threads
    requires PoolInv(localFree, Locals(st.workers)[w := LocalOf(pc)])
    requires PoolInv(remoteFree, Remotes(st.workers)[w := RemoteOf(pc)])
    ensures Inv(Move(st, w, pc).(localFree := localFree, remoteFree := remoteFree))
  {
    MoveCounts(st.workers, w, pc);
    assert StartingSet(st.workers) - {w} == StartingSet(st.workers);
  }

  /** No more threads are live than a pool has connections. */
  lemma FreeForOneMore(st: State, w: Wid, free: seq<bool>, hold: Holding)
    requires Conserved(st) && |free| == st.threads && PoolInv(free, hold) && hold.Keys == st.workers.Keys
    requires w in hold && hold[w] == None
    ensures FirstFree(free, 0) < |free|
  {
    assert |hold| == |hold.Keys| == |st.workers.Keys| == |st.workers|;
    FreeOneExists(free, hold, w);
  }

  lemma GetLocalKeeps(st: State, w: Wid, t: State)
    requires Inv(st) && w in st.workers && st.workers[w] == AskLocal && t == GotLocal(st, w)
    ensures Inv(t) && w in t.workers && LocalOf(t.workers[w]).Some?
  {
    var hold, id := Locals(st.workers), FirstFree(st.localFree, 0);
    assert id < |st.localFree| by { FreeForOneMore(st, w, st.localFree, hold); }
    var pc := if st.remoteMode then AskRemote(id) else Polling(id, None);
    TakeKeepsPool(st.localFree, hold, w, id);
    SameHolding(Remotes(st.workers), w, None);
    MovedKeeps(st, w, pc, st.localFree[id := false], st.remoteFree);
  }

  lemma GetRemoteKeeps(st: State, w: Wid, t: State)
    requires Inv(st) && w in st.workers && st.workers[w].AskRemote? && t == GotRemote(st, w, st.workers[w].local)
    ensures Inv(t) && w in t.workers && RemoteOf(t.workers[w]).Some?
  {
    var hold, id := Remotes(st.workers), FirstFree(st.remoteFree, 0);
    var local := st.workers[w].local;
    assert id < |st.remoteFree| by { FreeForOneMore(st, w, st.remoteFree, hold); }
    TakeKeepsPool(st.remoteFree, hold, w, id);
    SameHolding(Locals(st.workers), w, Some(local));
    MovedKeeps(st, w, Polling(local, Some(id)), st.localFree, st.remoteFree[id := false]);
  }

  lemma ReleaseLocalKeeps(st: State, w: Wid)
    requires Inv(st) && Enabled(st, ReleaseLocal(w))
    ensures Inv(Apply(st, ReleaseLocal(w)))
  {
    var Polling(local, other) := st.workers[w];
    var pc := if other.Some? then GiveRemote(other.value) else Leaving;
    assert Locals(st.workers)[w] == Some(local) && Remotes(st.workers)[w] == RemoteOf(pc);
    GiveKeepsPool(st.localFree, Locals(st.workers), w);
    SameHolding(Remotes(st.workers), w, RemoteOf(pc));
    MovedKeeps(st, w, pc, MarkFree(st.localFree, local), st.remoteFree);
  }

  lemma ReleaseRemoteKeeps(st: State, w: Wid)
    requires Inv(st) && Enabled(st, ReleaseRemote(w))
    ensures Inv(Apply(st, ReleaseRemote(w)))
  {
    assert Remotes(st.workers)[w] == Some(st.workers[w].remote) && Locals(st.workers)[w] == None;
    GiveKeepsPool(st.remoteFree, Remotes(st.workers), w);
    SameHolding(Locals(st.workers), w, None);
    MovedKeeps(st, w, Leaving, st.localFree, MarkFree(st.remoteFree, st.workers[w].remote));
  }

  lemma FinishKeeps(st: State, w: Wid, t: State)
    requires Inv(st) && Enabled(st, Finish(w))
    requires t == st.(workers := st.workers - {w}, available := Released(st.available))
    ensures Inv(t)
  {
    var workers' := st.workers - {w};
    assert Conserved(t) by {
      assert workers'.Keys == st.workers.Keys - {w};
      assert StartingSet(workers') == StartingSet(st.workers);
    }
    assert PoolInv(st.localFree, Locals(workers')) by {
      EmptyHandedKeepsPool(st.localFree, Locals(st.workers), Locals(workers'), w);
    }
    assert PoolInv(st.remoteFree, Remotes(workers')) by {
      EmptyHandedKeepsPool(st.remoteFree, Remotes(st.workers), Remotes(workers'), w);
    }
  }

  /** The launcher's own steps, and the release that no thread is ever at. */
  lemma LauncherKeeps(st: State, step: Step, t: State)
    requires Inv(st) && Enabled(st, step) && t == Apply(st, step)
    requires !step.Create? && !step.Begin? && !step.GetLocal? && !step.GetRemote?
    requires !step.ReleaseLocal? && !step.ReleaseRemote? && !step.Finish?
    ensures Inv(t)
  {
    assert t.workers == st.workers && t.localFree == st.localFree && t.remoteFree == st.remoteFree
      && t.threads == st.threads;
    assert Conserved(t);
  }

  lemma StepKeeps(st: State, step: Step)
    requires Inv(st) && Enabled(st, step)
    ensures Inv(Apply(st, step))
  {
    var t := Apply(st, step);
    match step
    case Create(w) => CreateKeeps(st, w, t);
    case Begin(w) => BeginKeeps(st, w);
    case GetLocal(w) => GetLocalKeeps(st, w, t);
    case GetRemote(w) => GetRemoteKeeps(st, w, t);
    case ReleaseLocal(w) => ReleaseLocalKeeps(st, w);
    case ReleaseRemote(w) => ReleaseRemoteKeeps(st, w);
    case Finish(w) => FinishKeeps(st, w, t);
    case _ => LauncherKeeps(st, step, t);
  }

  // ---- Whole runs ----

  ghost predicate Possible(st: State, steps: seq<Step>)
    decreases |steps|
  {
    steps == [] || (Enabled(st, steps[0]) && Possible(Apply(st, steps[0]), steps[1..]))
  }

  ghost function After(st: State, steps: seq<Step>): State
    requires Possible(st, steps)
    decreases |steps|
  {
    if steps == [] then st else After(Apply(st, steps[0]), steps[1..])
  }

  lemma {:induction false} RunKeeps(st: State, steps: seq<Step>)
    requires Inv(st) && Possible(st, steps)
    ensures Inv(After(st, steps)) && After(st, steps).threads == st.threads
    decreases |steps|
  {
    if steps != [] {
      StepKeeps(st, steps[0]);
      RunKeeps(Apply(st, steps[0]), steps[1..]);
    }
  }

  /** Two threads hold no connection in common. */
  predicate NoneShared(p: Worker, q: Worker) {
    && (LocalOf(p).Some? ==> LocalOf(p) != LocalOf(q))
    && (RemoteOf(p).Some? ==> RemoteOf(p) != RemoteOf(q))
  }

  lemma Exclusive(st: State)
    requires PoolInv(st.localFree, Locals(st.workers)) && PoolInv(st.remoteFree, Remotes(st.workers))
    ensures forall w, v | w in st.workers && v in st.workers && w != v :: NoneShared(st.workers[w], st.workers[v])
  {
    var locals, remotes := Locals(st.workers), Remotes(st.workers);
    forall w, v | w in st.workers && v in st.workers && w != v ensures NoneShared(st.workers[w], st.workers[v]) {
      assert w in locals && v in locals && w in remotes && v in remotes;
    }
  }

  /** Permits are conserved, connections are exclusive and the wait is exact, after every interleaving. */
  lemma PermitsConserved(init: State, steps: seq<Step>)
    requires Init(init) && Possible(init, steps)
    ensures var st := After(init, steps);
            && st.available + HoldsThread(st.launcher) + |st.workers| == init.threads
            && st.startup + HoldsStartup(st.launcher) + |StartingSet(st.workers)| == 1
            && (forall w, v | w in st.workers && v in st.workers && w != v ::
                  NoneShared(st.workers[w], st.workers[v]))
            && (st.launcher == Returned ==> st.workers == map[])
  {
    assert StartingSet(init.workers) == {};
    RunKeeps(init, steps);
    Exclusive(After(init, steps));
  }

  /** A live thread that asks a pool is never refused, so the fatal pool message cannot appear. */
  lemma ConnectionAlwaysFound(init: State, steps: seq<Step>, w: Wid)
    requires Init(init) && Possible(init, steps) && w in After(init, steps).workers
    ensures var st := After(init, steps);
            && (st.workers[w] == AskLocal ==> LocalOf(Apply(st, GetLocal(w)).workers[w]).Some?)
            && (st.workers[w].AskRemote? ==> RemoteOf(Apply(st, GetRemote(w)).workers[w]).Some?)
            && !st.workers[w].Refused?
  {
    assert StartingSet(init.workers) == {};
    RunKeeps(init, steps);
    var st := After(init, steps);
    if st.workers[w] == AskLocal { GetLocalKeeps(st, w, Apply(st, GetLocal(w))); }
    if st.workers[w].AskRemote? { GetRemoteKeeps(st, w, Apply(st, GetRemote(w))); }
  }
}
