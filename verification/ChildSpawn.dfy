/**
 One call of nft_popen, from the pipe it opens to the child it registers or the failure it
 returns, and what the calls under way hold between them: descriptors and children that are
 spawned but not yet registered.
 */
module ChildSpawn {

  /**
   Where a call is: the pipe is open; the list mutex is held; the file actions are built; giving up
   before and after the mutex was taken; the child exists; the call has returned.
   */
  datatype Stage = Piped | Locked | Ready | Aborting | Failing | Born(kid: nat) | Done

  /** The two ends of the pipe and the duplicate of one of them; -1 for none. */
  type Descriptors = s: seq<int> | |s| == 3 witness [-1, -1, -1]

  const NO_DESCRIPTORS: Descriptors := [-1, -1, -1]

  const DUPLICATE := 2

  /** `input` tells the modes that read from the child from the one that writes to it. */
  datatype Spawn = Spawn(stage: Stage, input: bool, fds: Descriptors)

  /** The child's end of the pipe is to become the standard descriptor of the same number. */
  function ChildEnd(sp: Spawn): (r: nat)
    ensures r < DUPLICATE
  {
    if sp.input then 1 else 0
  }

  function ParentEnd(sp: Spawn): (r: nat)
    ensures r < DUPLICATE && r != ChildEnd(sp)
  {
    if sp.input then 0 else 1
  }

  predicate HoldsLock(sp: Spawn) {
    sp.stage in {Locked, Ready, Failing} || sp.stage.Born?
  }

  datatype Option<T> = None | Some(value: T)

  /** The first of some descriptors that is still open. */
  function FirstOpen(fds: Descriptors, order: seq<nat>): (r: Option<nat>)
    requires forall k | 0 <= k < |order| :: order[k] < 3
    ensures r.Some? ==> r.value in order && fds[r.value] >= 0
    ensures r.None? ==> forall k | 0 <= k < |order| :: fds[order[k]] < 0
  {
    if order == [] then None
    else if fds[order[0]] >= 0 then Some(order[0])
    else
      var r := FirstOpen(fds, order[1..]);
      assert r.None? ==> forall k | 1 <= k < |order| :: order[k] == order[1..][k - 1];
      r
  }

  /** The descriptor a call closes next, in the order of its clean-up. */
  function NextClose(sp: Spawn): (r: Option<nat>)
    ensures r.Some? ==> r.value < 3 && sp.fds[r.value] >= 0
  {
    match sp.stage
    case Aborting => FirstOpen(sp.fds, [0, 1])
    case Failing => FirstOpen(sp.fds, [DUPLICATE, 0, 1])
    case Born(_) => FirstOpen(sp.fds, [DUPLICATE, ChildEnd(sp)])
    case _ => None
  }

  /** What a call may hold at each stage. */
  predicate SpawnOk(sp: Spawn) {
    match sp.stage
    case Piped => sp.fds[0] >= 0 && sp.fds[1] >= 0 && sp.fds[DUPLICATE] < 0
    case Locked => sp.fds[0] >= 0 && sp.fds[1] >= 0 && sp.fds[DUPLICATE] < 0
    case Ready => sp.fds[0] >= 0 && sp.fds[1] >= 0
    case Aborting => sp.fds[DUPLICATE] < 0
    case Failing => true
    case Born(_) => sp.fds[ParentEnd(sp)] >= 0
    case Done => sp.fds[0] < 0 && sp.fds[1] < 0 && sp.fds[DUPLICATE] < 0
  }

  // ---- What calls hold ----

  function Is(held: int, fd: int): nat {
    if held == fd && fd >= 0 then 1 else 0
  }

  /** How often a call holds a descriptor. */
  function Holds(sp: Spawn, fd: int): nat {
    Is(sp.fds[0], fd) + Is(sp.fds[1], fd) + Is(sp.fds[DUPLICATE], fd)
  }

  function Bears(sp: Spawn, k: nat): nat {
    if sp.stage == Born(k) then 1 else 0
  }

  /** How often the first n calls hold a descriptor between them. */
  function Pending(spawns: seq<Spawn>, n: nat, fd: int): nat
    requires n <= |spawns|
  {
    if n == 0 then 0 else Pending(spawns, n - 1, fd) + Holds(spawns[n - 1], fd)
  }

  /** How many of the first n calls are about to register a child. */
  function Newborn(spawns: seq<Spawn>, n: nat, k: nat): nat
    requires n <= |spawns|
  {
    if n == 0 then 0 else Newborn(spawns, n - 1, k) + Bears(spawns[n - 1], k)
  }

  lemma {:induction false} PendingMoves(spawns: seq<Spawn>, i: nat, sp: Spawn, n: nat, fd: int)
    requires i < |spawns| && n <= |spawns|
    ensures Pending(spawns[i := sp], n, fd) ==
            Pending(spawns, n, fd) + if i < n then Holds(sp, fd) - Holds(spawns[i], fd) else 0
  {
    if n > 0 { PendingMoves(spawns, i, sp, n - 1, fd); }
  }

  lemma {:induction false} NewbornMoves(spawns: seq<Spawn>, i: nat, sp: Spawn, n: nat, k: nat)
    requires i < |spawns| && n <= |spawns|
    ensures Newborn(spawns[i := sp], n, k) ==
            Newborn(spawns, n, k) + if i < n then Bears(sp, k) - Bears(spawns[i], k) else 0
  {
    if n > 0 { NewbornMoves(spawns, i, sp, n - 1, k); }
  }

  lemma {:induction false} Joins(spawns: seq<Spawn>, sp: Spawn, n: nat, fd: int, k: nat)
    requires n <= |spawns|
    ensures Pending(spawns + [sp], n, fd) == Pending(spawns, n, fd)
    ensures Newborn(spawns + [sp], n, k) == Newborn(spawns, n, k)
  {
    if n > 0 { Joins(spawns, sp, n - 1, fd, k); }
  }

  lemma {:induction false} OneHolds(spawns: seq<Spawn>, i: nat, n: nat, fd: int)
    requires i < n <= |spawns|
    ensures Pending(spawns, n, fd) >= Holds(spawns[i], fd)
  {
    if i < n - 1 { OneHolds(spawns, i, n - 1, fd); }
  }

  lemma {:induction false} TwoHold(spawns: seq<Spawn>, i: nat, j: nat, n: nat, fd: int)
    requires i < j < n <= |spawns|
    ensures Pending(spawns, n, fd) >= Holds(spawns[i], fd) + Holds(spawns[j], fd)
  {
    if j < n - 1 { TwoHold(spawns, i, j, n - 1, fd); } else { OneHolds(spawns, i, n - 1, fd); }
  }

  lemma {:induction false} SomeoneHolds(spawns: seq<Spawn>, n: nat, fd: int) returns (i: nat)
    requires n <= |spawns| && Pending(spawns, n, fd) > 0
    ensures i < n && Holds(spawns[i], fd) > 0
  {
    if Holds(spawns[n - 1], fd) > 0 { i := n - 1; } else { i := SomeoneHolds(spawns, n - 1, fd); }
  }

  lemma {:induction false} SomeoneBears(spawns: seq<Spawn>, n: nat, k: nat) returns (i: nat)
    requires n <= |spawns| && Newborn(spawns, n, k) > 0
    ensures i < n && spawns[i].stage == Born(k)
  {
    if spawns[n - 1].stage == Born(k) { i := n - 1; } else { i := SomeoneBears(spawns, n - 1, k); }
  }

  /** Closing a descriptor takes it out of what the call holds. */
  lemma CloseHeld(sp: Spawn, j: nat, fd: int)
    requires j < 3 && sp.fds[j] >= 0
    ensures Holds(sp, fd) == Holds(sp.(fds := sp.fds[j := -1]), fd) + Is(sp.fds[j], fd)
  {
  }

  /** What a call holds when its clean-up has nothing left to close. */
  lemma CleanedUp(sp: Spawn, fd: int)
    requires SpawnOk(sp) && NextClose(sp).None?
    ensures sp.stage == Aborting || sp.stage == Failing ==> Holds(sp, fd) == 0
    ensures sp.stage.Born? ==> Holds(sp, fd) == Is(sp.fds[ParentEnd(sp)], fd)
  {
    if sp.stage == Aborting {
      var order := [0, 1];
      assert sp.fds[order[0]] < 0 && sp.fds[order[1]] < 0;
    } else if sp.stage == Failing {
      var order := [DUPLICATE, 0, 1];
      assert sp.fds[order[0]] < 0 && sp.fds[order[1]] < 0 && sp.fds[order[2]] < 0;
    } else if sp.stage.Born? {
      var order := [DUPLICATE, ChildEnd(sp)];
      assert sp.fds[order[0]] < 0 && sp.fds[order[1]] < 0;
    }
  }

  // ---- A call ends ----

  function Bit(fd: int): nat {
    if fd >= 0 then 1 else 0
  }

  /** An upper bound on the steps a call still takes. */
  function Rank(sp: Spawn): (r: nat)
    ensures r <= 7
  {
    match sp.stage
    case Piped => 7
    case Locked => 6
    case Ready => 5
    case Aborting => 1 + Bit(sp.fds[0]) + Bit(sp.fds[1])
    case Failing => 1 + Bit(sp.fds[0]) + Bit(sp.fds[1]) + Bit(sp.fds[DUPLICATE])
    case Born(_) => 1 + Bit(sp.fds[ChildEnd(sp)]) + Bit(sp.fds[DUPLICATE])
    case Done => 0
  }
}
