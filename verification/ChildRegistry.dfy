/**
 The registry of script children. A child is spawned by a call that holds its pipe, registered
 with the descriptor of that pipe, taken by whoever closes that descriptor, and then reaped,
 parked for a later sweep, or dropped when the bounded parking list is full. Steps are the
 sections that hold the list mutex and the system calls between them.
 */
module ChildRegistry {
  import opened ChildSpawn

  const ABANDONED_MAX := 64

  // ---- The parking list ----

  /** A position filled with the last element, and the list one shorter. */
  function SwapOut<T>(s: seq<T>, i: nat): (r: seq<T>)
    requires i < |s|
    ensures |r| == |s| - 1
  {
    s[i := s[|s| - 1]][..|s| - 1]
  }

  /** The in-place sweep from position i: what stays. */
  function Swept<T>(s: seq<T>, gone: T -> bool, i: nat): (r: seq<T>)
    ensures |r| <= |s|
    decreases |s| - i
  {
    if i >= |s| then s
    else if gone(s[i]) then Swept(SwapOut(s, i), gone, i)
    else Swept(s, gone, i + 1)
  }

  /** The same sweep: what it collects. */
  function Collected<T>(s: seq<T>, gone: T -> bool, i: nat): seq<T>
    decreases |s| - i
  {
    if i >= |s| then []
    else if gone(s[i]) then [s[i]] + Collected(SwapOut(s, i), gone, i)
    else Collected(s, gone, i + 1)
  }

  lemma SwapOutContents<T>(s: seq<T>, i: nat)
    requires i < |s|
    ensures multiset(SwapOut(s, i)) + multiset{s[i]} == multiset(s)
  {
    var n := |s| - 1;
    var swapped := s[i := s[n]];
    assert swapped == swapped[..n] + [s[n]];
    assert multiset(swapped) == multiset(s) - multiset{s[i]} + multiset{s[n]};
  }

  lemma {:induction false} SweepConserves<T>(s: seq<T>, gone: T -> bool, i: nat)
    ensures multiset(Swept(s, gone, i)) + multiset(Collected(s, gone, i)) == multiset(s)
    decreases |s| - i
  {
    if i < |s| {
      if gone(s[i]) {
        SwapOutContents(s, i);
        SweepConserves(SwapOut(s, i), gone, i);
      } else {
        SweepConserves(s, gone, i + 1);
      }
    }
  }

  lemma {:induction false} SweepSorts<T>(s: seq<T>, gone: T -> bool, i: nat)
    requires forall j | 0 <= j < i && j < |s| :: !gone(s[j])
    ensures forall x | x in Swept(s, gone, i) :: !gone(x)
    ensures forall x | x in Collected(s, gone, i) :: gone(x)
    decreases |s| - i
  {
    if i < |s| {
      if gone(s[i]) {
        var t := SwapOut(s, i);
        assert forall j | 0 <= j < i && j < |t| :: t[j] == s[j];
        SweepSorts(t, gone, i);
      } else {
        SweepSorts(s, gone, i + 1);
      }
    }
  }

  /** The sweep leaves exactly what is not gone, as often as it was there, and collects exactly the rest. */
  lemma SweepIsExact<T>(s: seq<T>, gone: T -> bool, x: T)
    ensures multiset(Swept(s, gone, 0))[x] == if gone(x) then 0 else multiset(s)[x]
    ensures multiset(Collected(s, gone, 0))[x] == if gone(x) then multiset(s)[x] else 0
  {
    SweepConserves(s, gone, 0);
    SweepSorts(s, gone, 0);
    var stay, left := Swept(s, gone, 0), Collected(s, gone, 0);
    assert (x in multiset(stay) <==> x in stay) && (x in multiset(left) <==> x in left);
  }

  /** The parked process ids, in a fixed array that is swept in place. */
  class ParkedPids {
    const pids: array<int>
    var count: nat

    ghost predicate Valid()
      reads this
    {
      pids.Length == ABANDONED_MAX && count <= pids.Length
    }

    ghost function Contents(): seq<int>
      reads this, pids
      requires Valid()
    {
      pids[..count]
    }

    constructor ()
      ensures Valid() && fresh(pids) && Contents() == []
    {
      pids := new int[ABANDONED_MAX];
      count := 0;
    }

    /** nft_sweep_abandoned; gone is what waitpid answers for a process id. */
    method Sweep(gone: int -> bool)
      requires Valid()
      modifies this, pids
      ensures Valid() && Contents() == Swept(old(Contents()), gone, 0)
    {
      var i := 0;
      while i < count
        invariant Valid() && i <= count
        invariant Swept(Contents(), gone, i) == Swept(old(Contents()), gone, 0)
        decreases count - i
      {
        if gone(pids[i]) {
          ghost var before := Contents();
          pids[i] := pids[count - 1];
          count := count - 1;
          assert Contents() == SwapOut(before, i);
        } else {
          i := i + 1;
        }
      }
    }

    /** The locked part of nft_abandon_child: sweeps, then parks if there is room. */
    method Abandon(pid: int, gone: int -> bool) returns (parked: bool)
      requires Valid()
      modifies this, pids
      ensures Valid()
      ensures var swept := Swept(old(Contents()), gone, 0);
              && (parked <==> |swept| < ABANDONED_MAX)
              && Contents() == if parked then swept + [pid] else swept
    {
      Sweep(gone);
      ghost var swept := Contents();
      parked := count < ABANDONED_MAX;
      if parked {
        pids[count] := pid;
        count := count + 1;
        assert Contents() == swept + [pid];
      }
    }

    /** nft_abandoned_pending: how many stay parked after a sweep. */
    method Pending(gone: int -> bool) returns (remaining: nat)
      requires Valid()
      modifies this, pids
      ensures Valid() && Contents() == Swept(old(Contents()), gone, 0) && remaining == |Contents()|
    {
      Sweep(gone);
      remaining := count;
    }
  }

  // ---- The registry ----

  /** A descriptor and the child behind it; children are numbered as they are spawned. */
  datatype Entry = Entry(fd: int, kid: nat)

  datatype Taken = Nobody | Child(kid: nat)

  /** Position of the first entry with a descriptor, or the length. */
  function Find(entries: seq<Entry>, fd: int): (i: nat)
    ensures i <= |entries| && (i < |entries| ==> entries[i].fd == fd)
    ensures forall j | 0 <= j < i :: entries[j].fd != fd
  {
    if entries == [] || entries[0].fd == fd then 0 else 1 + Find(entries[1..], fd)
  }

  function Without(entries: seq<Entry>, i: nat): seq<Entry>
    requires i < |entries|
  {
    entries[..i] + entries[i + 1..]
  }

  function Fds(entries: seq<Entry>): multiset<int> {
    if entries == [] then multiset{} else multiset{entries[0].fd} + Fds(entries[1..])
  }

  function Kids(entries: seq<Entry>): multiset<nat> {
    if entries == [] then multiset{} else multiset{entries[0].kid} + Kids(entries[1..])
  }

  lemma WithoutTail(entries: seq<Entry>, i: nat)
    requires i < |entries|
    ensures i == 0 ==> Without(entries, i) == entries[1..]
    ensures i > 0 ==> Without(entries, i) == [entries[0]] + Without(entries[1..], i - 1)
  {
  }

  lemma {:induction false} Removal(entries: seq<Entry>, i: nat, fd: int, k: nat)
    requires i < |entries|
    ensures Fds(Without(entries, i))[fd] + (if entries[i].fd == fd then 1 else 0) == Fds(entries)[fd]
    ensures Kids(Without(entries, i))[k] + (if entries[i].kid == k then 1 else 0) == Kids(entries)[k]
  {
    WithoutTail(entries, i);
    if i > 0 {
      Removal(entries[1..], i - 1, fd, k);
      var rest := Without(entries[1..], i - 1);
      Front(entries[0], rest, fd, k);
    }
  }

  lemma Front(e: Entry, rest: seq<Entry>, fd: int, k: nat)
    ensures Fds([e] + rest)[fd] == Fds(rest)[fd] + if e.fd == fd then 1 else 0
    ensures Kids([e] + rest)[k] == Kids(rest)[k] + if e.kid == k then 1 else 0
  {
    assert ([e] + rest)[1..] == rest;
  }

  lemma {:induction false} FdListed(entries: seq<Entry>, fd: int)
    ensures fd in Fds(entries) <==> Find(entries, fd) < |entries|
  {
    if entries != [] { FdListed(entries[1..], fd); }
  }

  lemma {:induction false} EntryListed(entries: seq<Entry>, i: nat)
    requires i < |entries|
    ensures entries[i].fd in Fds(entries) && entries[i].kid in Kids(entries)
  {
    if i > 0 { EntryListed(entries[1..], i - 1); }
  }

  lemma {:induction false} TwoListed(entries: seq<Entry>, i: nat, j: nat)
    requires i < j < |entries| && entries[i].fd == entries[j].fd
    ensures Fds(entries)[entries[i].fd] >= 2
  {
    if i == 0 {
      EntryListed(entries[1..], j - 1);
    } else {
      TwoListed(entries[1..], i - 1, j - 1);
    }
  }

  /** The list as the program keeps it. */
  class PidList {
    var entries: seq<Entry>

    constructor ()
      ensures entries == []
    {
      entries := [];
    }

    /** The end of nft_popen: a new entry goes to the front. */
    method Link(fd: int, kid: nat)
      modifies this
      ensures entries == [Entry(fd, kid)] + old(entries)
    {
      entries := [Entry(fd, kid)] + entries;
    }

    /** pid_list_close_and_take: removes the first entry with the descriptor, if any. */
    method CloseAndTake(fd: int) returns (taken: Taken)
      modifies this
      ensures var i := Find(old(entries), fd);
              if i == |old(entries)| then taken == Nobody && entries == old(entries)
              else taken == Child(old(entries)[i].kid) && entries == Without(old(entries), i)
    {
      var link := 0;
      while link < |entries|
        invariant 0 <= link <= |entries| && entries == old(entries)
        invariant forall j | 0 <= j < link :: entries[j].fd != fd
      {
        if entries[link].fd == fd {
          taken := Child(entries[link].kid);
          entries := entries[..link] + entries[link + 1..];
          return;
        }
        link := link + 1;
      }
      taken := Nobody;
    }
  }

  // ---- The protocol ----

  /**
   Descriptors: open is the kernel's table, spawns are the calls of nft_popen so far with what each
   holds, foreign are everybody else's descriptors. lock is the call that holds the list mutex, if one
   does. Children are numbered as they become known here, and pids are their process ids; a script
   server that outlived its shutdown becomes known when it is abandoned.
   */
  datatype State = State(
    registry: seq<Entry>, held: multiset<nat>, parked: seq<nat>, reaped: multiset<nat>, dropped: multiset<nat>,
    open: set<int>, spawns: seq<Spawn>, lock: Option<nat>, foreign: multiset<int>, pids: seq<int>)

  /** The steps of call i come first; those of closers, sweepers and others follow. */
  datatype Step =
    | Pipe(input: bool, a: int, b: int)
    | Refused(i: nat)
    | Acquired(i: nat, gone: set<int>)
    | Prepared(i: nat)
    | Duplicated(i: nat, fd: int)
    | Failed(i: nat)
    | Spawned(i: nat, pid: int)
    | Closed(i: nat)
    | Returned(i: nat)
    | Linked(i: nat)
    | Take(fd: int)
    | ReapedInTime(kid: nat)
    | Abandoned(kid: nat, gone: set<int>)
    | ServerAbandoned(pid: int, gone: set<int>)
    | PendingAsked(gone: set<int>)
    | ForeignOpened(fd: int)
    | ForeignClosed(fd: int)

  function Initial(): State {
    State([], multiset{}, [], multiset{}, multiset{}, {}, [], None, multiset{}, [])
  }

  /** waitpid answers for a child that is gone. */
  function GoneKid(pids: seq<int>, gone: set<int>): nat -> bool {
    (k: nat) => k < |pids| && pids[k] in gone
  }

  function SweepState(s: State, gone: set<int>): State {
    var g := GoneKid(s.pids, gone);
    s.(parked := Swept(s.parked, g, 0), reaped := s.reaped + multiset(Collected(s.parked, g, 0)))
  }

  predicate At(s: State, i: nat, stage: Stage) {
    i < |s.spawns| && s.spawns[i].stage == stage
  }

  /** The kernel hands out a process id only when no unreaped child has it. */
  predicate FreshPid(s: State, pid: int) {
    forall k | 0 <= k < |s.pids| && s.pids[k] == pid :: k in s.reaped
  }

  /** The kernel gives out only free descriptors; the mutex is taken only when it is free. */
  predicate Enabled(s: State, step: Step) {
    match step
    case Pipe(_, a, b) => a != b && 0 <= a && 0 <= b && a !in s.open && b !in s.open
    case Refused(i) => At(s, i, Piped)
    case Acquired(i, _) => At(s, i, Piped) && s.lock == None
    case Prepared(i) => At(s, i, Locked) && s.spawns[i].fds[ChildEnd(s.spawns[i])] != ChildEnd(s.spawns[i])
    case Duplicated(i, fd) =>
      && At(s, i, Locked) && s.spawns[i].fds[ChildEnd(s.spawns[i])] == ChildEnd(s.spawns[i])
      && 0 <= fd && fd !in s.open
    case Failed(i) => At(s, i, Locked) || At(s, i, Ready)
    case Spawned(i, pid) => At(s, i, Ready) && FreshPid(s, pid)
    case Closed(i) => i < |s.spawns| && NextClose(s.spawns[i]).Some?
    case Returned(i) => (At(s, i, Aborting) || At(s, i, Failing)) && NextClose(s.spawns[i]).None?
    case Linked(i) => i < |s.spawns| && s.spawns[i].stage.Born? && NextClose(s.spawns[i]).None?
    case Take(_) => s.lock == None
    case ReapedInTime(kid) => kid in s.held
    case Abandoned(kid, _) => s.lock == None && kid in s.held
    case ServerAbandoned(pid, gone) => s.lock == None && FreshPid(SweepState(s, gone), pid)
    case PendingAsked(_) => s.lock == None
    case ForeignOpened(fd) => fd !in s.open
    case ForeignClosed(fd) => fd in s.foreign
  }

  function Put(s: State, i: nat, sp: Spawn): State
    requires i < |s.spawns|
  {
    s.(spawns := s.spawns[i := sp])
  }

  function Stand(s: State, i: nat, stage: Stage): State
    requires i < |s.spawns|
  {
    Put(s, i, s.spawns[i].(stage := stage))
  }

  /** A script that is given up is parked, or dropped when the parking list is full. */
  function Park(s: State, kid: nat): State {
    if |s.parked| < ABANDONED_MAX then s.(parked := s.parked + [kid]) else s.(dropped := s.dropped + multiset{kid})
  }

  function Apply(s: State, step: Step): State
    requires Enabled(s, step)
  {
    match step
    case Pipe(input, a, b) =>
      s.(open := s.open + {a, b}, spawns := s.spawns + [Spawn(Piped, input, [a, b, -1])])
    case Refused(i) => Stand(s, i, Aborting)
    case Acquired(i, gone) => Stand(SweepState(s, gone), i, Locked).(lock := Some(i))
    case Prepared(i) => Stand(s, i, Ready)
    case Duplicated(i, fd) =>
      Put(s, i, s.spawns[i].(stage := Ready, fds := s.spawns[i].fds[DUPLICATE := fd])).(open := s.open + {fd})
    case Failed(i) => Stand(s, i, Failing)
    case Spawned(i, pid) => Stand(s, i, Born(|s.pids|)).(pids := s.pids + [pid])
    case Closed(i) =>
      var j := NextClose(s.spawns[i]).value;
      Put(s, i, s.spawns[i].(fds := s.spawns[i].fds[j := -1])).(open := s.open - {s.spawns[i].fds[j]})
    case Returned(i) => Stand(s, i, Done).(lock := if HoldsLock(s.spawns[i]) then None else s.lock)
    case Linked(i) =>
      var sp := s.spawns[i];
      Put(s, i, sp.(stage := Done, fds := NO_DESCRIPTORS))
      .(registry := [Entry(sp.fds[ParentEnd(sp)], sp.stage.kid)] + s.registry, lock := None)
    case Take(fd) =>
      var i := Find(s.registry, fd);
      if i == |s.registry| then s
      else s.(registry := Without(s.registry, i), open := s.open - {fd}, held := s.held + multiset{s.registry[i].kid})
    case ReapedInTime(kid) => s.(held := s.held - multiset{kid}, reaped := s.reaped + multiset{kid})
    case Abandoned(kid, gone) => Park(SweepState(s, gone).(held := s.held - multiset{kid}), kid)
    case ServerAbandoned(pid, gone) => Park(SweepState(s, gone).(pids := s.pids + [pid]), |s.pids|)
    case PendingAsked(gone) => SweepState(s, gone)
    case ForeignOpened(fd) => s.(open := s.open + {fd}, foreign := s.foreign + multiset{fd})
    case ForeignClosed(fd) => s.(open := s.open - {fd}, foreign := s.foreign - multiset{fd})
  }

  // ---- Invariants ----

  /** Every open descriptor has exactly one owner, and nobody owns a closed one. */
  ghost predicate FdInv(s: State) {
    forall fd: int :: Owners(s, fd) == if fd in s.open then 1 else 0
  }

  function Owners(s: State, fd: int): nat {
    Fds(s.registry)[fd] + Pending(s.spawns, |s.spawns|, fd) + s.foreign[fd]
  }

  /** Every child spawned is in exactly one place. */
  ghost predicate KidInv(s: State) {
    forall k: nat :: Places(s, k) == if k < |s.pids| then 1 else 0
  }

  function Places(s: State, k: nat): nat {
    Newborn(s.spawns, |s.spawns|, k) + Kids(s.registry)[k] +
    s.held[k] + multiset(s.parked)[k] + s.reaped[k] + s.dropped[k]
  }

  ghost predicate PidInv(s: State) {
    forall j, k | 0 <= j < k < |s.pids| && s.pids[j] == s.pids[k] :: j in s.reaped || k in s.reaped
  }

  /** Every call holds what its stage allows, and the mutex exactly between taking and returning it. */
  ghost predicate CallInv(s: State) {
    && (s.lock.Some? ==> s.lock.value < |s.spawns|)
    && forall i | 0 <= i < |s.spawns| :: SpawnOk(s.spawns[i]) && (s.lock == Some(i) <==> HoldsLock(s.spawns[i]))
  }

  ghost predicate Inv(s: State) {
    FdInv(s) && KidInv(s) && PidInv(s) && CallInv(s) && |s.parked| <= ABANDONED_MAX
  }

  // ---- Sweeps, closers and others keep the invariant ----

  lemma SweepKeepsPlaces(s: State, gone: set<int>, k: nat)
    ensures Places(SweepState(s, gone), k) == Places(s, k)
  {
    SweepConserves(s.parked, GoneKid(s.pids, gone), 0);
  }

  lemma SameOwners(s: State, t: State)
    requires FdInv(s) && t.registry == s.registry && t.spawns == s.spawns && t.foreign == s.foreign && t.open == s.open
    ensures FdInv(t)
  {
    forall fd: int ensures Owners(t, fd) == if fd in t.open then 1 else 0 {
      assert Owners(t, fd) == Owners(s, fd);
    }
  }

  lemma SameKids(s: State, t: State)
    requires KidInv(s) && t.registry == s.registry && t.held == s.held && t.parked == s.parked && t.spawns == s.spawns
    requires t.reaped == s.reaped && t.dropped == s.dropped && t.pids == s.pids
    ensures KidInv(t)
  {
    forall k: nat ensures Places(t, k) == if k < |t.pids| then 1 else 0 {
      assert Places(t, k) == Places(s, k);
    }
  }

  /** Sweeping only adds to the reaped children. */
  lemma SweepKeepsInv(s: State, gone: set<int>)
    requires Inv(s)
    ensures Inv(SweepState(s, gone))
  {
    var t := SweepState(s, gone);
    forall k: nat ensures Places(t, k) == if k < |s.pids| then 1 else 0 {
      SweepKeepsPlaces(s, gone, k);
    }
    SameOwners(s, t);
  }

  lemma TakenOwners(s: State, i: nat, d: int)
    requires FdInv(s) && i < |s.registry|
    ensures var fd := s.registry[i].fd;
            Owners(s.(registry := Without(s.registry, i)), d) == if d in s.open - {fd} then 1 else 0
  {
    assert Owners(s, d) == if d in s.open then 1 else 0;
    Removal(s.registry, i, d, 0);
    EntryListed(s.registry, i);
  }

  lemma TakenPlaces(s: State, i: nat, k: nat)
    requires KidInv(s) && i < |s.registry|
    ensures Places(s.(registry := Without(s.registry, i), held := s.held + multiset{s.registry[i].kid}), k) ==
            if k < |s.pids| then 1 else 0
  {
    assert Places(s, k) == if k < |s.pids| then 1 else 0;
    Removal(s.registry, i, 0, k);
  }

  lemma TakeKeeps(s: State, fd: int, t: State)
    requires Inv(s) && s.lock == None && t == Apply(s, Take(fd))
    ensures Inv(t)
  {
    var i := Find(s.registry, fd);
    if i < |s.registry| {
      forall d: int ensures Owners(t, d) == if d in t.open then 1 else 0 {
        TakenOwners(s, i, d);
        assert Owners(t, d) == Owners(s.(registry := Without(s.registry, i)), d);
      }
      forall k: nat ensures Places(t, k) == if k < |t.pids| then 1 else 0 {
        TakenPlaces(s, i, k);
        assert Places(t, k) ==
               Places(s.(registry := Without(s.registry, i), held := s.held + multiset{s.registry[i].kid}), k);
      }
    }
  }

  /** A held child moves to one other place. */
  lemma Moved(u: State, t: State, kid: nat, k: nat)
    requires KidInv(u) && kid in u.held && t.held == u.held - multiset{kid}
    requires t.registry == u.registry && t.pids == u.pids && t.spawns == u.spawns
    requires multiset(t.parked) + t.reaped + t.dropped == multiset(u.parked) + u.reaped + u.dropped + multiset{kid}
    ensures Places(t, k) == if k < |t.pids| then 1 else 0
  {
    assert Places(u, k) == if k < |u.pids| then 1 else 0;
    var sum := multiset(t.parked) + t.reaped + t.dropped;
    assert sum[k] == multiset(t.parked)[k] + t.reaped[k] + t.dropped[k];
  }

  lemma ReapedKeeps(s: State, kid: nat, t: State)
    requires Inv(s) && kid in s.held && t == Apply(s, ReapedInTime(kid))
    ensures Inv(t)
  {
    forall k: nat ensures Places(t, k) == if k < |t.pids| then 1 else 0 {
      Moved(s, t, kid, k);
    }
    SameOwners(s, t);
  }

  lemma AbandonedKeeps(s: State, kid: nat, gone: set<int>, t: State)
    requires Inv(s) && kid in s.held && t == Park(SweepState(s, gone).(held := s.held - multiset{kid}), kid)
    ensures Inv(t)
  {
    SweepKeepsInv(s, gone);
    var u := SweepState(s, gone);
    forall k: nat ensures Places(t, k) == if k < |t.pids| then 1 else 0 {
      Moved(u, t, kid, k);
    }
    SameOwners(s, t);
  }

  /** A child that becomes known in one place. */
  lemma Added(u: State, t: State, kid: nat, k: nat)
    requires KidInv(u) && kid == |u.pids| && t.held == u.held && t.registry == u.registry && t.spawns == u.spawns
    requires |t.pids| == |u.pids| + 1
    requires multiset(t.parked) + t.reaped + t.dropped == multiset(u.parked) + u.reaped + u.dropped + multiset{kid}
    ensures Places(t, k) == if k < |t.pids| then 1 else 0
  {
    assert Places(u, k) == if k < |u.pids| then 1 else 0;
    var sum := multiset(t.parked) + t.reaped + t.dropped;
    assert sum[k] == multiset(t.parked)[k] + t.reaped[k] + t.dropped[k];
  }

  lemma KnownPids(u: State, t: State, pid: int)
    requires PidInv(u) && t.pids == u.pids + [pid] && t.reaped == u.reaped && FreshPid(u, pid)
    ensures PidInv(t)
  {
  }

  lemma ServerAbandonedKeeps(s: State, pid: int, gone: set<int>, t: State)
    requires Inv(s) && FreshPid(SweepState(s, gone), pid)
    requires t == Park(SweepState(s, gone).(pids := s.pids + [pid]), |s.pids|)
    ensures Inv(t)
  {
    SweepKeepsInv(s, gone);
    var u := SweepState(s, gone);
    forall k: nat ensures Places(t, k) == if k < |t.pids| then 1 else 0 {
      Added(u, t, |u.pids|, k);
    }
    SameOwners(s, t);
    KnownPids(u, t, pid);
  }

  lemma ForeignKeeps(s: State, step: Step, t: State)
    requires Inv(s) && (step.ForeignOpened? || step.ForeignClosed?) && Enabled(s, step) && t == Apply(s, step)
    ensures Inv(t)
  {
    forall fd: int ensures Owners(t, fd) == if fd in t.open then 1 else 0 {
      assert Owners(s, fd) == if fd in s.open then 1 else 0;
    }
    SameKids(s, t);
  }

  // ---- The steps of a call keep the invariant ----

  lemma OwnersMove(s: State, t: State, i: nat, fd: int)
    requires i < |s.spawns| == |t.spawns| && t.spawns == s.spawns[i := t.spawns[i]]
    requires t.registry == s.registry && t.foreign == s.foreign
    ensures Owners(t, fd) + Holds(s.spawns[i], fd) == Owners(s, fd) + Holds(t.spawns[i], fd)
  {
    PendingMoves(s.spawns, i, t.spawns[i], |s.spawns|, fd);
  }

  lemma PlacesMove(s: State, t: State, i: nat, k: nat)
    requires i < |s.spawns| == |t.spawns| && t.spawns == s.spawns[i := t.spawns[i]]
    requires t.registry == s.registry && t.held == s.held && t.parked == s.parked && t.reaped == s.reaped
    requires t.dropped == s.dropped
    ensures Places(t, k) + Bears(s.spawns[i], k) == Places(s, k) + Bears(t.spawns[i], k)
  {
    NewbornMoves(s.spawns, i, t.spawns[i], |s.spawns|, k);
  }

  /** A step of call i that may open or close one descriptor and leaves children and registry alone. */
  lemma CallMoves(s: State, t: State, i: nat)
    requires Inv(s) && i < |s.spawns| == |t.spawns| && t.spawns == s.spawns[i := t.spawns[i]]
    requires t == s.(spawns := t.spawns, lock := t.lock, open := t.open)
    requires forall k: nat :: Bears(t.spawns[i], k) == Bears(s.spawns[i], k)
    requires forall fd: int :: (if fd in t.open then 1 else 0) + Holds(s.spawns[i], fd) ==
                               (if fd in s.open then 1 else 0) + Holds(t.spawns[i], fd)
    requires SpawnOk(t.spawns[i]) && CallInv(t)
    ensures Inv(t)
  {
    forall fd: int ensures Owners(t, fd) == if fd in t.open then 1 else 0 {
      assert Owners(s, fd) == if fd in s.open then 1 else 0;
      OwnersMove(s, t, i, fd);
    }
    forall k: nat ensures Places(t, k) == if k < |t.pids| then 1 else 0 {
      assert Places(s, k) == if k < |s.pids| then 1 else 0;
      PlacesMove(s, t, i, k);
    }
  }

  lemma PipeKeeps(s: State, input: bool, a: int, b: int, t: State)
    requires Inv(s) && Enabled(s, Pipe(input, a, b)) && t == Apply(s, Pipe(input, a, b))
    ensures Inv(t)
  {
    var sp := Spawn(Piped, input, [a, b, -1]);
    forall fd: int ensures Owners(t, fd) == if fd in t.open then 1 else 0 {
      assert Owners(s, fd) == if fd in s.open then 1 else 0;
      assert Owners(t, fd) == Owners(s, fd) + Holds(sp, fd) by { JoinCounts(s.spawns, sp, fd, 0); }
    }
    forall k: nat ensures Places(t, k) == if k < |t.pids| then 1 else 0 {
      assert Places(s, k) == if k < |s.pids| then 1 else 0;
      assert Places(t, k) == Places(s, k) by { JoinCounts(s.spawns, sp, 0, k); }
    }
    assert CallInv(t);
  }

  lemma JoinCounts(spawns: seq<Spawn>, sp: Spawn, fd: int, k: nat)
    ensures Pending(spawns + [sp], |spawns| + 1, fd) == Pending(spawns, |spawns|, fd) + Holds(sp, fd)
    ensures Newborn(spawns + [sp], |spawns| + 1, k) == Newborn(spawns, |spawns|, k) + Bears(sp, k)
  {
    Joins(spawns, sp, |spawns|, fd, k);
  }

  /** Steps that change neither descriptors nor children. */
  lemma StandKeeps(s: State, i: nat, stage: Stage, lock: Option<nat>)
    requires Inv(s) && i < |s.spawns| && !stage.Born? && !s.spawns[i].stage.Born?
    requires SpawnOk(s.spawns[i].(stage := stage)) && CallInv(Stand(s, i, stage).(lock := lock))
    ensures Inv(Stand(s, i, stage).(lock := lock))
  {
    CallMoves(s, Stand(s, i, stage).(lock := lock), i);
  }

  /** The temporary duplicate made when the child's end sits on its standard descriptor. */
  lemma DuplicateKeeps(s: State, i: nat, fd: int, t: State)
    requires Inv(s) && Enabled(s, Duplicated(i, fd)) && t == Apply(s, Duplicated(i, fd))
    ensures Inv(t)
  {
    assert SpawnOk(s.spawns[i]);
    CallMoves(s, t, i);
  }

  /** The owner of a descriptor that closes it was its only one. */
  lemma CloseKeeps(s: State, i: nat, t: State)
    requires Inv(s) && Enabled(s, Closed(i)) && t == Apply(s, Closed(i))
    ensures Inv(t)
  {
    var sp, j := s.spawns[i], NextClose(s.spawns[i]).value;
    assert SpawnOk(sp);
    assert SpawnOk(t.spawns[i]) by { CloseOk(sp, j); }
    forall fd: int
      ensures (if fd in t.open then 1 else 0) + Holds(sp, fd) ==
              (if fd in s.open then 1 else 0) + Holds(t.spawns[i], fd)
    {
      CloseHeld(sp, j, fd);
      assert Owners(s, fd) == if fd in s.open then 1 else 0;
      OneHolds(s.spawns, i, |s.spawns|, fd);
    }
    CallMoves(s, t, i);
  }

  lemma CloseOk(sp: Spawn, j: nat)
    requires SpawnOk(sp) && NextClose(sp) == Some(j)
    ensures SpawnOk(sp.(fds := sp.fds[j := -1]))
  {
  }

  lemma BornKeeps(s: State, i: nat, pid: int, t: State)
    requires Inv(s) && Enabled(s, Spawned(i, pid)) && t == Apply(s, Spawned(i, pid))
    ensures Inv(t)
  {
    forall fd: int ensures Owners(t, fd) == if fd in t.open then 1 else 0 {
      assert Owners(s, fd) == if fd in s.open then 1 else 0;
      OwnersMove(s, t, i, fd);
    }
    forall k: nat ensures Places(t, k) == if k < |t.pids| then 1 else 0 {
      assert Places(s, k) == if k < |s.pids| then 1 else 0;
      PlacesMove(s, t, i, k);
    }
    KnownPids(s, t, pid);
    assert SpawnOk(s.spawns[i]);
  }

  lemma LinkedOwners(s: State, i: nat, t: State, d: int)
    requires FdInv(s) && i < |s.spawns| && t.foreign == s.foreign && t.open == s.open
    requires var sp := s.spawns[i];
             && sp.stage.Born? && SpawnOk(sp) && NextClose(sp).None?
             && t.spawns == s.spawns[i := sp.(stage := Done, fds := NO_DESCRIPTORS)]
             && t.registry == [Entry(sp.fds[ParentEnd(sp)], sp.stage.kid)] + s.registry
    ensures Owners(t, d) == if d in t.open then 1 else 0
  {
    var sp := s.spawns[i];
    assert Owners(s, d) == if d in s.open then 1 else 0;
    PendingMoves(s.spawns, i, t.spawns[i], |s.spawns|, d);
    assert Holds(sp, d) == Is(sp.fds[ParentEnd(sp)], d) by { CleanedUp(sp, d); }
    Front(Entry(sp.fds[ParentEnd(sp)], sp.stage.kid), s.registry, d, 0);
  }

  lemma LinkedPlaces(s: State, i: nat, t: State, k: nat)
    requires KidInv(s) && i < |s.spawns| && s.spawns[i].stage.Born?
    requires t.held == s.held && t.parked == s.parked && t.reaped == s.reaped
    requires t.dropped == s.dropped && t.pids == s.pids
    requires var sp := s.spawns[i];
             && t.spawns == s.spawns[i := sp.(stage := Done, fds := NO_DESCRIPTORS)]
             && t.registry == [Entry(sp.fds[ParentEnd(sp)], sp.stage.kid)] + s.registry
    ensures Places(t, k) == if k < |t.pids| then 1 else 0
  {
    var sp := s.spawns[i];
    assert Places(s, k) == if k < |s.pids| then 1 else 0;
    NewbornMoves(s.spawns, i, t.spawns[i], |s.spawns|, k);
    Front(Entry(sp.fds[ParentEnd(sp)], sp.stage.kid), s.registry, 0, k);
  }

  lemma LinkedKeeps(s: State, i: nat, t: State)
    requires Inv(s) && Enabled(s, Linked(i)) && t == Apply(s, Linked(i))
    ensures Inv(t)
  {
    assert SpawnOk(s.spawns[i]);
    forall d: int ensures Owners(t, d) == if d in t.open then 1 else 0 { LinkedOwners(s, i, t, d); }
    forall k: nat ensures Places(t, k) == if k < |t.pids| then 1 else 0 { LinkedPlaces(s, i, t, k); }
    assert CallInv(t);
  }

  lemma ReturnedKeeps(s: State, i: nat, t: State)
    requires Inv(s) && Enabled(s, Returned(i)) && t == Apply(s, Returned(i))
    ensures Inv(t)
  {
    assert SpawnOk(s.spawns[i]);
    assert SpawnOk(t.spawns[i]) by { ReturnedOk(s.spawns[i]); }
    StandKeeps(s, i, Done, t.lock);
  }

  lemma ReturnedOk(sp: Spawn)
    requires SpawnOk(sp) && NextClose(sp).None? && (sp.stage == Aborting || sp.stage == Failing)
    ensures SpawnOk(sp.(stage := Done))
  {
    CleanedUp(sp, sp.fds[0]);
    CleanedUp(sp, sp.fds[1]);
    CleanedUp(sp, sp.fds[DUPLICATE]);
  }

  lemma AcquiredKeeps(s: State, i: nat, gone: set<int>, t: State)
    requires Inv(s) && Enabled(s, Acquired(i, gone)) && t == Apply(s, Acquired(i, gone))
    ensures Inv(t)
  {
    SweepKeepsInv(s, gone);
    assert SpawnOk(s.spawns[i]);
    StandKeeps(SweepState(s, gone), i, Locked, Some(i));
  }

  lemma PlainKeeps(s: State, step: Step, t: State)
    requires Inv(s) && Enabled(s, step) && t == Apply(s, step) && (step.Refused? || step.Prepared? || step.Failed?)
    ensures Inv(t)
  {
    assert SpawnOk(s.spawns[step.i]);
    StandKeeps(s, step.i, t.spawns[step.i].stage, s.lock);
  }

  lemma CallStepKeeps(s: State, step: Step, t: State)
    requires Inv(s) && Enabled(s, step) && t == Apply(s, step) && CallOf(step).Some?
    ensures Inv(t)
  {
    match step
    case Acquired(i, gone) => AcquiredKeeps(s, i, gone, t);
    case Duplicated(i, fd) => DuplicateKeeps(s, i, fd, t);
    case Spawned(i, pid) => BornKeeps(s, i, pid, t);
    case Closed(i) => CloseKeeps(s, i, t);
    case Returned(i) => ReturnedKeeps(s, i, t);
    case Linked(i) => LinkedKeeps(s, i, t);
    case Refused(_) => PlainKeeps(s, step, t);
    case Prepared(_) => PlainKeeps(s, step, t);
    case Failed(_) => PlainKeeps(s, step, t);
  }

  /** The call whose step it is. */
  function CallOf(step: Step): Option<nat> {
    match step
    case Refused(i) => Some(i)
    case Acquired(i, _) => Some(i)
    case Prepared(i) => Some(i)
    case Duplicated(i, _) => Some(i)
    case Failed(i) => Some(i)
    case Spawned(i, _) => Some(i)
    case Closed(i) => Some(i)
    case Returned(i) => Some(i)
    case Linked(i) => Some(i)
    case _ => None
  }

  lemma OtherStepKeeps(s: State, step: Step, t: State)
    requires Inv(s) && Enabled(s, step) && t == Apply(s, step) && CallOf(step).None?
    ensures Inv(t)
  {
    match step
    case Pipe(input, a, b) => PipeKeeps(s, input, a, b, t);
    case Take(fd) => TakeKeeps(s, fd, t);
    case ReapedInTime(kid) => ReapedKeeps(s, kid, t);
    case Abandoned(kid, gone) => AbandonedKeeps(s, kid, gone, t);
    case ServerAbandoned(pid, gone) => ServerAbandonedKeeps(s, pid, gone, t);
    case PendingAsked(gone) => SweepKeepsInv(s, gone);
    case ForeignOpened(_) => ForeignKeeps(s, step, t);
    case ForeignClosed(_) => ForeignKeeps(s, step, t);
  }

  lemma StepKeeps(s: State, step: Step)
    requires Inv(s) && Enabled(s, step)
    ensures Inv(Apply(s, step))
  {
    var t := Apply(s, step);
    if CallOf(step).Some? { CallStepKeeps(s, step, t); } else { OtherStepKeeps(s, step, t); }
  }

  // ---- Runs ----

  predicate Possible(s: State, run: seq<Step>)
    decreases |run|
  {
    run == [] || (Enabled(s, run[0]) && Possible(Apply(s, run[0]), run[1..]))
  }

  function After(s: State, run: seq<Step>): State
    requires Possible(s, run)
    decreases |run|
  {
    if run == [] then s else After(Apply(s, run[0]), run[1..])
  }

  lemma {:induction false} RunKeeps(s: State, run: seq<Step>)
    requires Inv(s) && Possible(s, run)
    ensures Inv(After(s, run))
    decreases |run|
  {
    if run != [] {
      StepKeeps(s, run[0]);
      RunKeeps(Apply(s, run[0]), run[1..]);
    }
  }

  lemma Reachable(run: seq<Step>)
    requires Possible(Initial(), run)
    ensures Inv(After(Initial(), run))
  {
    assert Inv(Initial());
    RunKeeps(Initial(), run);
  }

  function Flag(b: bool): nat { if b then 1 else 0 }

  /** Call i has its child and has not registered it. */
  predicate Bearing(s: State, i: nat, k: nat) {
    At(s, i, Born(k))
  }

  /**
   In every run every spawned child is in exactly one of: a call about to register it, the registry, the
   hands of one closer, the parking list, reaped, dropped; and the parking list never outgrows its array.
   */
  lemma ChildInOnePlace(run: seq<Step>, k: nat)
    requires Possible(Initial(), run)
    ensures var s := After(Initial(), run);
            && |s.parked| <= ABANDONED_MAX
            && Flag(exists i :: Bearing(s, i, k)) + Flag(k in Kids(s.registry)) + Flag(k in s.held)
               + Flag(k in s.parked) + Flag(k in s.reaped) + Flag(k in s.dropped) == Flag(k < |s.pids|)
            && s.held[k] <= 1
  {
    Reachable(run);
    var s := After(Initial(), run);
    assert Places(s, k) == if k < |s.pids| then 1 else 0;
    assert k in multiset(s.parked) <==> k in s.parked;
    NewbornIff(s, k);
  }

  lemma NewbornIff(s: State, k: nat)
    ensures Newborn(s.spawns, |s.spawns|, k) > 0 <==> exists i :: Bearing(s, i, k)
  {
    if Newborn(s.spawns, |s.spawns|, k) > 0 {
      var i := SomeoneBears(s.spawns, |s.spawns|, k);
      assert Bearing(s, i, k);
    }
    if i :| Bearing(s, i, k) { BearsCounts(s.spawns, i, |s.spawns|, k); }
  }

  lemma {:induction false} BearsCounts(spawns: seq<Spawn>, i: nat, n: nat, k: nat)
    requires i < n <= |spawns| && spawns[i].stage == Born(k)
    ensures Newborn(spawns, n, k) > 0
  {
    if i < n - 1 { BearsCounts(spawns, i, n - 1, k); }
  }

  /** In every run the registered descriptors are distinct and open, and owned by nobody else. */
  lemma RegisteredDescriptors(run: seq<Step>, i: nat)
    requires Possible(Initial(), run) && i < |After(Initial(), run).registry|
    ensures var s := After(Initial(), run); var fd := s.registry[i].fd;
            && fd in s.open && fd !in s.foreign && (forall c: nat :: !UsedBy(s, c, fd))
            && forall j | 0 <= j < |s.registry| && j != i :: s.registry[j].fd != fd
  {
    Reachable(run);
    var s := After(Initial(), run);
    var fd := s.registry[i].fd;
    EntryListed(s.registry, i);
    assert Owners(s, fd) == if fd in s.open then 1 else 0;
    forall c: nat ensures !UsedBy(s, c, fd) {
      if UsedBy(s, c, fd) { OneHolds(s.spawns, c, |s.spawns|, fd); }
    }
    forall j | 0 <= j < |s.registry| && j != i ensures s.registry[j].fd != fd {
      if s.registry[j].fd == fd {
        TwoListed(s.registry, if i < j then i else j, if i < j then j else i);
      }
    }
  }

  // ---- Descriptors ----

  predicate Live(s: State, c: nat) {
    c < |s.spawns| && s.spawns[c].stage != Done
  }

  /** Call c holds the descriptor, as an end of its pipe or as its duplicate. */
  predicate UsedBy(s: State, c: nat, fd: int) {
    c < |s.spawns| && Holds(s.spawns[c], fd) > 0
  }

  lemma UsedIff(s: State, fd: int)
    ensures Pending(s.spawns, |s.spawns|, fd) > 0 <==> exists c: nat :: UsedBy(s, c, fd)
  {
    if Pending(s.spawns, |s.spawns|, fd) > 0 {
      var c := SomeoneHolds(s.spawns, |s.spawns|, fd);
      assert UsedBy(s, c, fd);
    }
    if c: nat :| UsedBy(s, c, fd) { OneHolds(s.spawns, c, |s.spawns|, fd); }
  }

  /**
   In every run a descriptor is open exactly when it is registered, foreign or held by a call, and only by
   one of these; a call that holds it has not returned, is the only one and holds it once.
   */
  lemma NoDescriptorLeaks(run: seq<Step>, fd: int)
    requires Possible(Initial(), run)
    ensures var s := After(Initial(), run);
            && Flag(Find(s.registry, fd) < |s.registry|) + Flag(fd in s.foreign)
               + Flag(exists c: nat :: UsedBy(s, c, fd))
               == Flag(fd in s.open)
            && (forall c: nat | UsedBy(s, c, fd) :: Live(s, c) && Holds(s.spawns[c], fd) == 1)
            && (forall c: nat, d: nat | UsedBy(s, c, fd) && UsedBy(s, d, fd) :: c == d)
  {
    Reachable(run);
    var s := After(Initial(), run);
    FdListed(s.registry, fd);
    UsedIff(s, fd);
    assert Owners(s, fd) == if fd in s.open then 1 else 0;
    assert Pending(s.spawns, |s.spawns|, fd) <= 1;
    forall c: nat | UsedBy(s, c, fd) ensures Live(s, c) && Holds(s.spawns[c], fd) == 1 {
      assert SpawnOk(s.spawns[c]);
      UsedOnce(s, c, fd);
    }
    forall c: nat, d: nat | UsedBy(s, c, fd) && UsedBy(s, d, fd) ensures c == d { UsedByOne(s, c, d, fd); }
  }

  lemma UsedOnce(s: State, c: nat, fd: int)
    requires UsedBy(s, c, fd) && SpawnOk(s.spawns[c]) && Pending(s.spawns, |s.spawns|, fd) <= 1
    ensures Live(s, c) && Holds(s.spawns[c], fd) == 1
  {
    OneHolds(s.spawns, c, |s.spawns|, fd);
  }

  lemma UsedByOne(s: State, c: nat, d: nat, fd: int)
    requires UsedBy(s, c, fd) && UsedBy(s, d, fd) && Pending(s.spawns, |s.spawns|, fd) <= 1
    ensures c == d
  {
    if c < d { TwoHold(s.spawns, c, d, |s.spawns|, fd); }
    if d < c { TwoHold(s.spawns, d, c, |s.spawns|, fd); }
  }

  /**
   When every call has returned, the open descriptors are the registered and the foreign ones, and the mutex is
   free.
   */
  lemma NothingLeftBehind(run: seq<Step>, fd: int)
    requires Possible(Initial(), run) && forall c: nat :: !Live(After(Initial(), run), c)
    ensures var s := After(Initial(), run);
            && s.lock == None
            && (fd in s.open <==> Find(s.registry, fd) < |s.registry| || fd in s.foreign)
  {
    Reachable(run);
    var s := After(Initial(), run);
    NoDescriptorLeaks(run, fd);
    assert s.lock.Some? ==> Live(s, s.lock.value);
  }

  /**
   In every run at most one call is between taking and returning the list mutex, and the mutex is held exactly
   then.
   */
  lemma MutexHeldByOne(run: seq<Step>, c: nat)
    requires Possible(Initial(), run) && c < |After(Initial(), run).spawns|
    ensures var s := After(Initial(), run); s.lock == Some(c) <==> HoldsLock(s.spawns[c])
    ensures var s := After(Initial(), run); s.lock.Some? ==> s.lock.value < |s.spawns| && Live(s, s.lock.value)
  {
    Reachable(run);
  }

  // ---- Calls return ----

  /** A call that has not returned can go on, or waits for the mutex held by another one that can. */
  lemma LiveCallCanStep(s: State, c: nat) returns (step: Step)
    requires Inv(s) && Live(s, c)
    ensures Enabled(s, step) && CallOf(step).Some?
    ensures CallOf(step) == Some(c) || (At(s, c, Piped) && CallOf(step) == s.lock)
  {
    if At(s, c, Piped) && s.lock.Some? {
      step := OwnStep(s, s.lock.value);
    } else {
      step := OwnStep(s, c);
    }
  }

  lemma OwnStep(s: State, c: nat) returns (step: Step)
    requires Live(s, c) && (At(s, c, Piped) ==> s.lock == None)
    ensures Enabled(s, step) && CallOf(step) == Some(c)
  {
    match s.spawns[c].stage
    case Piped => step := Acquired(c, {});
    case Locked => step := Failed(c);
    case Ready => step := Failed(c);
    case Aborting => step := if NextClose(s.spawns[c]).Some? then Closed(c) else Returned(c);
    case Failing => step := if NextClose(s.spawns[c]).Some? then Closed(c) else Returned(c);
    case Born(_) => step := if NextClose(s.spawns[c]).Some? then Closed(c) else Linked(c);
  }

  /** A step of one call leaves every other call alone. */
  lemma OthersStay(s: State, step: Step, c: nat)
    requires Enabled(s, step) && c < |s.spawns| && CallOf(step) != Some(c)
    ensures var t := Apply(s, step); c < |t.spawns| && t.spawns[c] == s.spawns[c]
  {
  }

  lemma OwnRank(s: State, step: Step, c: nat)
    requires Enabled(s, step) && c < |s.spawns| && CallOf(step) == Some(c)
    ensures var t := Apply(s, step); |t.spawns| == |s.spawns| && Rank(t.spawns[c]) < Rank(s.spawns[c])
  {
    if step.Closed? { CloseRank(s.spawns[c], NextClose(s.spawns[c]).value); }
  }

  lemma CloseRank(sp: Spawn, j: nat)
    requires NextClose(sp) == Some(j)
    ensures Rank(sp.(fds := sp.fds[j := -1])) < Rank(sp)
  {
  }

  function StepsOf(run: seq<Step>, c: nat): nat {
    if run == [] then 0 else (if CallOf(run[0]) == Some(c) then 1 else 0) + StepsOf(run[1..], c)
  }

  /** A call of nft_popen takes at most seven of these steps after its pipe, the close calls included. */
  lemma {:induction false} CallsReturn(s: State, run: seq<Step>, c: nat)
    requires Inv(s) && Possible(s, run) && c < |s.spawns|
    ensures StepsOf(run, c) <= Rank(s.spawns[c]) <= 7
    decreases |run|
  {
    if run != [] {
      if CallOf(run[0]) == Some(c) { OwnRank(s, run[0], c); } else { OthersStay(s, run[0], c); }
      StepKeeps(s, run[0]);
      CallsReturn(Apply(s, run[0]), run[1..], c);
    }
  }

  // ---- Waiting by process id ----

  /**
   In every run no two children that are not yet reaped share a process id; the kernel promises that of a
   new child, and nothing here forgets a child before it is reaped.
   */
  lemma LivePidsDiffer(run: seq<Step>, j: nat, k: nat)
    requires Possible(Initial(), run) && j < k < |After(Initial(), run).pids|
    ensures var s := After(Initial(), run); j !in s.reaped && k !in s.reaped ==> s.pids[j] != s.pids[k]
  {
    Reachable(run);
  }

  /** The process ids of some children, as waitpid sees them. */
  function PidSet(pids: seq<int>, kids: set<nat>): set<int> {
    set k | k in kids && k < |pids| :: pids[k]
  }

  /**
   In every run a sweep that waits by process id, when some unreaped children have exited, takes exactly
   those of them that are parked off the list and reaps them; every other parked child stays.
   */
  lemma SweepReapsExited(run: seq<Step>, exited: set<nat>, k: nat)
    requires Possible(Initial(), run) && k in After(Initial(), run).parked
    requires forall x | x in exited :: x < |After(Initial(), run).pids| && x !in After(Initial(), run).reaped
    ensures var s := After(Initial(), run); var t := SweepState(s, PidSet(s.pids, exited));
            && (k in t.reaped <==> k in exited)
            && (k in t.parked <==> k !in exited)
  {
    Reachable(run);
    var s := After(Initial(), run);
    var gone := PidSet(s.pids, exited);
    var t := SweepState(s, gone);
    assert Places(s, k) == if k < |s.pids| then 1 else 0;
    assert k in multiset(s.parked);
    assert k < |s.pids| && k !in s.reaped && multiset(s.parked)[k] == 1;
    assert s.pids[k] in gone <==> k in exited by { GoneIffExited(s, exited, k); }
    SweepIsExact(s.parked, GoneKid(s.pids, gone), k);
    assert k in multiset(t.parked) <==> k in t.parked;
  }

  lemma GoneIffExited(s: State, exited: set<nat>, k: nat)
    requires PidInv(s) && k < |s.pids| && k !in s.reaped && forall x | x in exited :: x < |s.pids| && x !in s.reaped
    ensures s.pids[k] in PidSet(s.pids, exited) <==> k in exited
  {
    if s.pids[k] in PidSet(s.pids, exited) {
      var x :| x in exited && x < |s.pids| && s.pids[x] == s.pids[k];
      assert x == k;
    }
  }

  /** Registration of the descriptor by a step. */
  predicate Registers(s: State, step: Step, fd: int) {
    step.Linked? && step.i < |s.spawns| && s.spawns[step.i].fds[ParentEnd(s.spawns[step.i])] == fd
  }

  predicate Respawns(s: State, run: seq<Step>, fd: int)
    requires Possible(s, run)
    decreases |run|
  {
    run != [] && (Registers(s, run[0], fd) || Respawns(Apply(s, run[0]), run[1..], fd))
  }

  lemma StepStaysUnlisted(s: State, step: Step, fd: int)
    requires Enabled(s, step) && Find(s.registry, fd) == |s.registry| && !Registers(s, step, fd)
    ensures var t := Apply(s, step); Find(t.registry, fd) == |t.registry|
  {
  }

  lemma {:induction false} StaysUnlisted(s: State, run: seq<Step>, fd: int)
    requires Possible(s, run) && Find(s.registry, fd) == |s.registry| && !Respawns(s, run, fd)
    ensures var t := After(s, run); Find(t.registry, fd) == |t.registry|
    decreases |run|
  {
    if run != [] {
      StepStaysUnlisted(s, run[0], fd);
      StaysUnlisted(Apply(s, run[0]), run[1..], fd);
    }
  }

  /** Of several closes of one descriptor only the first takes the child, until a new child is registered there. */
  lemma OneWinner(s: State, run: seq<Step>, fd: int)
    requires Inv(s) && s.lock == None && Find(s.registry, fd) < |s.registry|
    requires Possible(Apply(s, Take(fd)), run) && !Respawns(Apply(s, Take(fd)), run, fd)
    ensures var t := After(Apply(s, Take(fd)), run); t.lock == None ==> Apply(t, Take(fd)) == t
  {
    var i, u := Find(s.registry, fd), Apply(s, Take(fd));
    forall j | 0 <= j < |u.registry| ensures u.registry[j].fd != fd {
      if u.registry[j].fd == fd {
        assert Owners(s, fd) <= 1;
        TwoListed(s.registry, i, j + 1);
      }
    }
    StaysUnlisted(u, run, fd);
  }

  // ---- The array holds the parked children's process ids ----

  predicate Known(kids: seq<nat>, pids: seq<int>) {
    forall i | 0 <= i < |kids| :: kids[i] < |pids|
  }

  function PidsOf(kids: seq<nat>, pids: seq<int>): seq<int>
    requires Known(kids, pids)
  {
    seq(|kids|, i requires 0 <= i < |kids| => pids[kids[i]])
  }

  /** Sweeping the array of process ids is sweeping the list of children. */
  lemma {:induction false} SweepByPid(kids: seq<nat>, pids: seq<int>, gone: set<int>, i: nat)
    requires Known(kids, pids)
    ensures var swept := Swept(kids, GoneKid(pids, gone), i);
            Known(swept, pids) && PidsOf(swept, pids) == Swept(PidsOf(kids, pids), (p: int) => p in gone, i)
    decreases |kids| - i
  {
    if i < |kids| {
      if pids[kids[i]] in gone {
        SweepByPid(SwapOut(kids, i), pids, gone, i);
        assert PidsOf(SwapOut(kids, i), pids) == SwapOut(PidsOf(kids, pids), i);
      } else {
        SweepByPid(kids, pids, gone, i + 1);
      }
    }
  }
}
