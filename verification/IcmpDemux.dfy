/**
 The shared raw ICMP sockets as a state machine.  Every step is one section run
 with LOCK_ICMP held (or the return of a condition wait), so a run is an
 arbitrary interleaving of any number of pinging threads.

 A thread that waits on its condition variable is Blocked; a signal, a timeout or
 a spurious return makes it Woken, and it stays Woken until it gets the lock back.
 Clock readings are a free Boolean of the step that makes them.
 */
module IcmpDemux {
  import opened IcmpReply

  type Tid = nat

  datatype Option<+T> = None | Some(value: T)

  /** One socket per family: AF_INET uses icmp_shared, AF_INET6 uses icmp6_shared. */
  datatype Family = V4 | V6

  datatype Request = Request(family: Family, id: Word, sequence: Word, peer: seq<Byte>)

  datatype Packet = Packet(source: seq<Byte>, bytes: seq<Byte>)

  /** Where the thread that owns a registered waiter is. */
  datatype Place = Outside | Blocked | Woken | Reading

  /** `reply` records the packet that set `answered`; the program keeps only the flag. */
  datatype Waiter = Waiter(request: Request, answered: bool, sleeping: bool, place: Place, reply: Option<Packet>)

  /** `list` is icmp_waiters, newest first; `busy` holds the sockets whose `reading` flag is set. */
  datatype State = State(list: seq<Tid>, waiters: map<Tid, Waiter>, busy: set<Family>)

  const INITIAL := State([], map[], {})

  /** A packet read from the socket of `family` answers a request. */
  predicate Answers(family: Family, packet: Packet, request: Request) {
    && request.family == family
    && packet.source == request.peer
    && match family
       case V4 => Classify(packet.bytes, request.id, request.sequence) == Ours
       case V6 => Matches6(packet.bytes, request.id, request.sequence)
  }

  // ---- The lock-held sections ----

  /** Every listed thread has a waiter record. */
  predicate Listed(st: State) {
    forall i | 0 <= i < |st.list| :: st.list[i] in st.waiters
  }

  predicate Distinct(list: seq<Tid>) {
    forall i, j | 0 <= i < j < |list| :: list[i] != list[j]
  }

  /** The list names every registered thread exactly once. */
  predicate ListIsTable(st: State) {
    && Listed(st)
    && (forall t :: t in st.waiters ==> t in st.list)
    && Distinct(st.list)
  }

  predicate Asleep(w: Waiter, family: Family) {
    w.request.family == family && w.sleeping && !w.answered
  }

  predicate Wanted(w: Waiter, family: Family, packet: Packet) {
    !w.answered && Answers(family, packet, w.request)
  }

  function FirstAsleep(st: State, family: Family, from: nat): (i: nat)
    requires Listed(st) && from <= |st.list|
    ensures from <= i <= |st.list|
    ensures forall k | from <= k < i :: !Asleep(st.waiters[st.list[k]], family)
    ensures i < |st.list| ==> Asleep(st.waiters[st.list[i]], family)
    decreases |st.list| - from
  {
    if from == |st.list| || Asleep(st.waiters[st.list[from]], family) then from else FirstAsleep(st, family, from + 1)
  }

  function FirstWanted(st: State, family: Family, packet: Packet, from: nat): (i: nat)
    requires Listed(st) && from <= |st.list|
    ensures from <= i <= |st.list|
    ensures forall k | from <= k < i :: !Wanted(st.waiters[st.list[k]], family, packet)
    ensures i < |st.list| ==> Wanted(st.waiters[st.list[i]], family, packet)
    decreases |st.list| - from
  {
    if from == |st.list| || Wanted(st.waiters[st.list[from]], family, packet) then from
    else FirstWanted(st, family, packet, from + 1)
  }

  /** pthread_cond_signal on a waiter's own condition: only a thread that is waiting notices. */
  function Signal(w: Waiter): Waiter {
    if w.place == Blocked then w.(place := Woken) else w
  }

  function Put(st: State, t: Tid, w: Waiter): State {
    st.(waiters := st.waiters[t := w])
  }

  /** icmp_shared_handoff */
  function Handoff(st: State, family: Family): (r: State)
    requires Listed(st)
    ensures r.list == st.list && r.busy == st.busy && r.waiters.Keys == st.waiters.Keys
    ensures forall t :: t in r.waiters ==> r.waiters[t].(place := st.waiters[t].place) == st.waiters[t]
  {
    if family in st.busy then st
    else
      var i := FirstAsleep(st, family, 0);
      if i == |st.list| then st else Put(st, st.list[i], Signal(st.waiters[st.list[i]]))
  }

  /** icmp_shared_dispatch */
  function Dispatch(st: State, family: Family, packet: Packet): (r: State)
    requires Listed(st)
    ensures r.list == st.list && r.busy == st.busy && r.waiters.Keys == st.waiters.Keys
  {
    var i := FirstWanted(st, family, packet, 0);
    if i == |st.list| then st
    else Put(st, st.list[i], Signal(st.waiters[st.list[i]].(answered := true, reply := Some(packet))))
  }

  /** One locked batch of icmp_shared_await; an empty datagram is skipped. */
  function DispatchAll(st: State, family: Family, packets: seq<Packet>): (r: State)
    requires Listed(st)
    ensures Listed(r) && r.list == st.list && r.busy == st.busy && r.waiters.Keys == st.waiters.Keys
    decreases |packets|
  {
    if packets == [] then st
    else
      var next := if |packets[0].bytes| > 0 then Dispatch(st, family, packets[0]) else st;
      DispatchAll(next, family, packets[1..])
  }

  /** The head of the loop in icmp_shared_await, run by a thread that holds the lock and is not asleep. */
  function Decide(st: State, t: Tid, expired: bool): (r: State)
    requires Listed(st) && t in st.waiters
    ensures r.list == st.list && r.waiters.Keys == st.waiters.Keys
  {
    var w := st.waiters[t];
    var family := w.request.family;
    if w.answered || expired then
      Handoff(Put(st, t, w.(place := Outside, sleeping := false)), family)
    else if family in st.busy then
      Put(st, t, w.(place := Blocked, sleeping := true))
    else
      Put(st, t, w.(place := Reading, sleeping := false)).(busy := st.busy + {family})
  }

  /** The unlink loop of icmp_shared_unregister. */
  function Without(list: seq<Tid>, t: Tid): seq<Tid> {
    if list == [] then [] else if list[0] == t then list[1..] else [list[0]] + Without(list[1..], t)
  }

  lemma {:induction false} WithoutMembers(list: seq<Tid>, t: Tid)
    ensures forall x :: x in Without(list, t) ==> x in list
    ensures forall x :: x in list && x != t ==> x in Without(list, t)
  {
    if list != [] && list[0] != t { WithoutMembers(list[1..], t); }
  }

  lemma {:induction false} WithoutDistinct(list: seq<Tid>, t: Tid)
    requires Distinct(list)
    ensures Distinct(Without(list, t)) && t !in Without(list, t)
  {
    if list != [] {
      var rest := list[1..];
      assert Distinct(rest) && list[0] !in rest;
      if list[0] != t {
        WithoutDistinct(rest, t);
        WithoutMembers(rest, t);
      }
    }
  }

  function Link(st: State, t: Tid, request: Request): (r: State)
    requires ListIsTable(st) && t !in st.waiters
    ensures ListIsTable(r)
  {
    assert forall k | 1 <= k < |[t] + st.list| :: ([t] + st.list)[k] == st.list[k - 1];
    assert forall x :: x in st.list ==> x in [t] + st.list;
    State([t] + st.list, st.waiters[t := Waiter(request, false, false, Outside, None)], st.busy)
  }

  function Unlink(st: State, t: Tid): (r: State)
    requires ListIsTable(st)
    ensures ListIsTable(r)
  {
    var list := Without(st.list, t);
    WithoutMembers(st.list, t);
    WithoutDistinct(st.list, t);
    assert forall i | 0 <= i < |list| :: list[i] in st.list;
    State(list, st.waiters - {t}, st.busy)
  }

  /** A reader clears `reading` before it goes round the loop again. */
  function Leave(st: State, t: Tid): State
    requires t in st.waiters
  {
    Put(st, t, st.waiters[t].(place := Outside)).(busy := st.busy - {st.waiters[t].request.family})
  }

  datatype Step =
    | Register(t: Tid, request: Request)
    | Enter(t: Tid, expired: bool)
    | Return(t: Tid)
    | Resume(t: Tid, expired: bool)
    | Batch(t: Tid, packets: seq<Packet>)
    | StopReading(t: Tid, expired: bool)
    | Unregister(t: Tid)

  predicate At(st: State, t: Tid, place: Place) {
    t in st.waiters && st.waiters[t].place == place
  }

  predicate Enabled(st: State, step: Step) {
    match step
    case Register(t, _) => t !in st.waiters
    case Enter(t, _) => At(st, t, Outside)
    case Return(t) => At(st, t, Blocked)
    case Resume(t, _) => At(st, t, Woken)
    case Batch(t, _) => At(st, t, Reading)
    case StopReading(t, _) => At(st, t, Reading)
    case Unregister(t) => At(st, t, Outside)
  }

  /** icmp_shared_register, the sections of icmp_shared_await, and icmp_shared_unregister. */
  function Apply(st: State, step: Step): (r: State)
    requires ListIsTable(st) && Enabled(st, step)
    ensures ListIsTable(r)
  {
    match step
    case Register(t, request) => Link(st, t, request)
    case Enter(t, expired) => Decide(st, t, expired)
    case Return(t) => Put(st, t, st.waiters[t].(place := Woken))
    case Resume(t, expired) => Decide(st, t, expired)
    case Batch(t, packets) => DispatchAll(st, st.waiters[t].request.family, packets)
    case StopReading(t, expired) =>
      Decide(Leave(st, t), t, expired)
    case Unregister(t) => Handoff(Unlink(st, t), st.waiters[t].request.family)
  }

  // ---- The invariant ----

  /** Facts about a single waiter. */
  predicate WaiterInv(w: Waiter, busy: set<Family>) {
    && (w.sleeping <==> w.place in {Blocked, Woken})
    && (w.place == Reading ==> w.request.family in busy)
    && (w.place == Blocked ==> !w.answered)
    && (w.answered <==> w.reply.Some?)
    && (w.answered ==> Answers(w.request.family, w.reply.value, w.request))
  }

  ghost predicate Idle(st: State, family: Family) {
    forall t :: t in st.waiters && st.waiters[t].request.family == family ==> st.waiters[t].place != Reading
  }

  ghost predicate OneReader(st: State) {
    && (forall t, u :: t in st.waiters && u in st.waiters && t != u
                       && st.waiters[t].place == Reading && st.waiters[u].place == Reading
                       ==> st.waiters[t].request.family != st.waiters[u].request.family)
    && (forall f :: f in st.busy ==> !Idle(st, f))
  }

  ghost predicate SomeoneAt(st: State, family: Family, place: Place) {
    exists t :: t in st.waiters && st.waiters[t].place == place && st.waiters[t].request.family == family
  }

  /** Nobody sleeps on an idle socket unless a wake-up is already on its way. */
  ghost predicate NoLostWake(st: State, family: Family) {
    family !in st.busy && SomeoneAt(st, family, Blocked) ==> SomeoneAt(st, family, Woken)
  }

  ghost predicate Core(st: State) {
    && ListIsTable(st)
    && (forall t :: t in st.waiters ==> WaiterInv(st.waiters[t], st.busy))
    && OneReader(st)
  }

  ghost predicate Inv(st: State) {
    Core(st) && (forall f :: NoLostWake(st, f))
  }

  // ---- Every step keeps the invariant ----

  /** Replacing one waiter by another of the same family cannot lose a wake-up on the other socket. */
  lemma OtherSocketKept(before: State, after: State, t: Tid, other: Family)
    requires t in before.waiters && t in after.waiters
    requires after.waiters == before.waiters[t := after.waiters[t]]
    requires before.waiters[t].request.family == after.waiters[t].request.family != other
    requires other in before.busy <==> other in after.busy
    requires NoLostWake(before, other)
    ensures NoLostWake(after, other)
  {
    if other !in after.busy && SomeoneAt(after, other, Blocked) {
      var b :| b in after.waiters && after.waiters[b].place == Blocked && after.waiters[b].request.family == other;
      assert before.waiters[b] == after.waiters[b];
      var u :| u in before.waiters && before.waiters[u].place == Woken && before.waiters[u].request.family == other;
      assert after.waiters[u] == before.waiters[u];
    }
  }

  /** Replacing a waiter that neither becomes nor stops being a reader keeps the structural part. */
  lemma PutKeepsCore(st: State, t: Tid, w: Waiter)
    requires Core(st) && t in st.waiters && WaiterInv(w, st.busy)
    requires w.request == st.waiters[t].request
    requires (w.place == Reading) == (st.waiters[t].place == Reading)
    ensures Core(Put(st, t, w))
  {
    var st' := Put(st, t, w);
    forall f | f in st'.busy ensures !Idle(st', f) {
      var r :| r in st.waiters && st.waiters[r].request.family == f && st.waiters[r].place == Reading;
      assert st'.waiters[r].place == Reading;
    }
  }

  lemma HandoffRestores(st: State, family: Family)
    requires Core(st)
    requires forall f :: f != family ==> NoLostWake(st, f)
    ensures Inv(Handoff(st, family))
    ensures Handoff(st, family).waiters.Keys == st.waiters.Keys
  {
    if family !in st.busy {
      var i := FirstAsleep(st, family, 0);
      if i == |st.list| {
        forall t | t in st.waiters && st.waiters[t].request.family == family ensures st.waiters[t].place != Blocked {
          assert t in st.list;
        }
      } else {
        var t := st.list[i];
        var w := Signal(st.waiters[t]);
        PutKeepsCore(st, t, w);
        var st' := Put(st, t, w);
        assert st'.waiters[t].place == Woken;
        forall f | f != family ensures NoLostWake(st', f) {
          OtherSocketKept(st, st', t, f);
        }
      }
    }
  }

  lemma DecideKeeps(st: State, t: Tid, expired: bool)
    requires Core(st) && t in st.waiters && st.waiters[t].place in {Outside, Woken}
    requires forall f :: f != st.waiters[t].request.family ==> NoLostWake(st, f)
    ensures Inv(Decide(st, t, expired))
  {
    var w := st.waiters[t];
    var family := w.request.family;
    if w.answered || expired {
      var w' := w.(place := Outside, sleeping := false);
      PutKeepsCore(st, t, w');
      forall f | f != family ensures NoLostWake(Put(st, t, w'), f) {
        OtherSocketKept(st, Put(st, t, w'), t, f);
      }
      HandoffRestores(Put(st, t, w'), family);
    } else if family in st.busy {
      var w' := w.(place := Blocked, sleeping := true);
      PutKeepsCore(st, t, w');
      forall f | f != family ensures NoLostWake(Put(st, t, w'), f) {
        OtherSocketKept(st, Put(st, t, w'), t, f);
      }
    } else {
      BecomesReader(st, t);
    }
  }

  lemma BecomesReader(st: State, t: Tid)
    requires Core(st) && t in st.waiters && st.waiters[t].place in {Outside, Woken}
    requires !st.waiters[t].answered && st.waiters[t].request.family !in st.busy
    requires forall f :: f != st.waiters[t].request.family ==> NoLostWake(st, f)
    ensures Inv(Decide(st, t, false))
  {
    var family := st.waiters[t].request.family;
    var st' := Decide(st, t, false);
    assert st'.waiters[t].place == Reading;
    forall f | f in st'.busy ensures !Idle(st', f) {
      if f == family {
        assert st'.waiters[t].request.family == f;
      } else {
        var r :| r in st.waiters && st.waiters[r].request.family == f && st.waiters[r].place == Reading;
        assert st'.waiters[r].place == Reading;
      }
    }
    forall f ensures NoLostWake(st', f) {
      if f != family { OtherSocketKept(st, st', t, f); }
    }
  }

  /** A change that blocks nobody new and un-wakes nobody cannot lose a wake-up. */
  lemma WakesKept(before: State, after: State)
    requires before.busy == after.busy && forall f :: NoLostWake(before, f)
    requires forall b :: At(after, b, Blocked) ==>
               At(before, b, Blocked) && before.waiters[b].request.family == after.waiters[b].request.family
    requires forall u :: At(before, u, Woken) ==>
               At(after, u, Woken) && before.waiters[u].request.family == after.waiters[u].request.family
    ensures forall f :: NoLostWake(after, f)
  {
    forall f | f !in after.busy && SomeoneAt(after, f, Blocked) ensures SomeoneAt(after, f, Woken) {
      var b :| b in after.waiters && after.waiters[b].place == Blocked && after.waiters[b].request.family == f;
      assert At(after, b, Blocked);
      assert SomeoneAt(before, f, Blocked);
      assert NoLostWake(before, f);
      var u :| u in before.waiters && before.waiters[u].place == Woken && before.waiters[u].request.family == f;
      assert At(before, u, Woken);
    }
  }

  /** A change to who is registered that keeps every reader keeps OneReader. */
  lemma ReadersKept(before: State, after: State)
    requires before.busy == after.busy && OneReader(before)
    requires forall r :: At(before, r, Reading) <==> At(after, r, Reading)
    requires forall r :: At(before, r, Reading) && At(after, r, Reading) ==>
               before.waiters[r].request.family == after.waiters[r].request.family
    ensures OneReader(after)
  {
    forall f | f in after.busy ensures !Idle(after, f) {
      var r :| r in before.waiters && before.waiters[r].request.family == f && before.waiters[r].place == Reading;
      assert At(before, r, Reading);
    }
    forall t, u | t in after.waiters && u in after.waiters && t != u
                  && after.waiters[t].place == Reading && after.waiters[u].place == Reading
      ensures after.waiters[t].request.family != after.waiters[u].request.family
    {
      assert At(after, t, Reading) && At(after, u, Reading);
      assert At(before, t, Reading) && At(before, u, Reading);
    }
  }

  lemma DispatchKeeps(st: State, family: Family, packet: Packet)
    requires Inv(st)
    ensures Inv(Dispatch(st, family, packet))
  {
    var i := FirstWanted(st, family, packet, 0);
    if i < |st.list| {
      var t := st.list[i];
      var w := Signal(st.waiters[t].(answered := true, reply := Some(packet)));
      assert Core(Put(st, t, w)) by { PutKeepsCore(st, t, w); }
      assert forall f :: NoLostWake(Put(st, t, w), f) by { WakesKept(st, Put(st, t, w)); }
    }
  }

  lemma {:induction false} BatchKeeps(st: State, family: Family, packets: seq<Packet>)
    requires Inv(st)
    ensures Inv(DispatchAll(st, family, packets))
    decreases |packets|
  {
    if packets != [] {
      if |packets[0].bytes| > 0 {
        DispatchKeeps(st, family, packets[0]);
        BatchKeeps(Dispatch(st, family, packets[0]), family, packets[1..]);
      } else {
        BatchKeeps(st, family, packets[1..]);
      }
    }
  }

  lemma LinkKeeps(st: State, t: Tid, request: Request)
    requires Inv(st) && t !in st.waiters
    ensures Inv(Link(st, t, request))
  {
    var st' := Link(st, t, request);
    assert OneReader(st') by { ReadersKept(st, st'); }
    assert forall f :: NoLostWake(st', f) by { WakesKept(st, st'); }
  }

  lemma UnlinkKeeps(st: State, t: Tid)
    requires Inv(st) && At(st, t, Outside)
    ensures Inv(Unlink(st, t))
  {
    var st' := Unlink(st, t);
    assert st'.waiters == st.waiters - {t} && st'.busy == st.busy;
    RemovedKeeps(st, st', t);
  }

  /** Taking a thread that is outside every wait off the table. */
  lemma RemovedKeeps(before: State, after: State, t: Tid)
    requires Inv(before) && At(before, t, Outside) && ListIsTable(after)
    requires after.waiters == before.waiters - {t} && after.busy == before.busy
    ensures Inv(after)
  {
    assert OneReader(after) by { ReadersKept(before, after); }
    assert forall f :: NoLostWake(after, f) by { WakesKept(before, after); }
  }

  lemma ReturnKeeps(st: State, t: Tid)
    requires Inv(st) && At(st, t, Blocked)
    ensures Inv(Apply(st, Return(t)))
  {
    var w := st.waiters[t].(place := Woken);
    var st' := Put(st, t, w);
    PutKeepsCore(st, t, w);
    forall f ensures NoLostWake(st', f) {
      if f == w.request.family {
        assert st'.waiters[t].place == Woken;
      } else {
        OtherSocketKept(st, st', t, f);
      }
    }
  }

  lemma LeaveKeeps(st: State, t: Tid)
    requires Inv(st) && At(st, t, Reading)
    ensures Core(Leave(st, t))
    ensures forall f :: f != st.waiters[t].request.family ==> NoLostWake(Leave(st, t), f)
  {
    var family := st.waiters[t].request.family;
    var st' := Leave(st, t);
    forall f | f in st'.busy ensures !Idle(st', f) {
      var r :| r in st.waiters && st.waiters[r].request.family == f && st.waiters[r].place == Reading;
      assert st'.waiters[r].place == Reading;
    }
    forall f | f != family ensures NoLostWake(st', f) {
      OtherSocketKept(st, st', t, f);
    }
  }

  lemma StepKeeps(st: State, step: Step)
    requires Inv(st) && Enabled(st, step)
    ensures Inv(Apply(st, step))
  {
    match step
    case Register(t, request) => LinkKeeps(st, t, request);
    case Enter(t, expired) => DecideKeeps(st, t, expired);
    case Return(t) => ReturnKeeps(st, t);
    case Resume(t, expired) => DecideKeeps(st, t, expired);
    case Batch(t, packets) => BatchKeeps(st, st.waiters[t].request.family, packets);
    case StopReading(t, expired) => LeaveKeeps(st, t); DecideKeeps(Leave(st, t), t, expired);
    case Unregister(t) => UnlinkKeeps(st, t); HandoffRestores(Unlink(st, t), st.waiters[t].request.family);
  }

  // ---- Whole runs ----

  predicate Possible(st: State, steps: seq<Step>)
    requires ListIsTable(st)
    decreases |steps|
  {
    steps == [] || (Enabled(st, steps[0]) && Possible(Apply(st, steps[0]), steps[1..]))
  }

  function After(st: State, steps: seq<Step>): (r: State)
    requires ListIsTable(st) && Possible(st, steps)
    ensures ListIsTable(r)
    decreases |steps|
  {
    if steps == [] then st else After(Apply(st, steps[0]), steps[1..])
  }

  lemma {:induction false} RunKeeps(st: State, steps: seq<Step>)
    requires Inv(st) && Possible(st, steps)
    ensures Inv(After(st, steps))
    decreases |steps|
  {
    if steps != [] {
      StepKeeps(st, steps[0]);
      RunKeeps(Apply(st, steps[0]), steps[1..]);
    }
  }

  /** The safety theorem: it holds after every interleaving of any number of threads. */
  lemma ReaderRoleIsNeverLost(steps: seq<Step>, family: Family)
    requires Possible(INITIAL, steps)
    ensures var st := After(INITIAL, steps);
            // the flag is set exactly while some thread reads, and that thread is the only one
            && (family in st.busy <==> SomeoneAt(st, family, Reading))
            && (forall t, u | At(st, t, Reading) && At(st, u, Reading) ::
                  st.waiters[t].request.family == st.waiters[u].request.family ==> t == u)
            // a thread whose reply has arrived is never left asleep
            && (forall t :: At(st, t, Blocked) ==> !st.waiters[t].answered)
            // a thread asleep on an idle socket implies a wake-up already under way
            && (family !in st.busy && SomeoneAt(st, family, Blocked) ==> SomeoneAt(st, family, Woken))
            // a thread is answered only by its own reply
            && (forall t :: t in st.waiters && st.waiters[t].answered ==>
                              st.waiters[t].reply.Some? &&
                              Answers(st.waiters[t].request.family, st.waiters[t].reply.value, st.waiters[t].request))
  {
    RunKeeps(INITIAL, steps);
    var st := After(INITIAL, steps);
    assert NoLostWake(st, family);
    if family in st.busy {
      assert !Idle(st, family);
    }
  }

  // ---- What one datagram does ----

  /** A datagram answers at most one thread, and it answers one whenever some thread is waiting for it. */
  lemma DatagramAnswersOne(st: State, family: Family, packet: Packet)
    requires ListIsTable(st)
    ensures var st' := Dispatch(st, family, packet);
            && (forall t, u | t in st.waiters && u in st.waiters ::
                  st'.waiters[t] != st.waiters[t] && st'.waiters[u] != st.waiters[u] ==> t == u)
            && ((exists t :: t in st.waiters && Wanted(st.waiters[t], family, packet)) <==>
                (exists t :: t in st.waiters && !st.waiters[t].answered && st'.waiters[t].answered))
            && (forall t :: t in st.waiters && st'.waiters[t] != st.waiters[t] ==>
                              Wanted(st.waiters[t], family, packet) && st'.waiters[t].answered
                              && st'.waiters[t].reply == Some(packet) && st'.waiters[t].place != Blocked)
  {
    var i := FirstWanted(st, family, packet, 0);
    var st' := Dispatch(st, family, packet);
    if i < |st.list| {
      assert st.list[i] in st.waiters && st'.waiters[st.list[i]].answered;
    } else {
      forall t | t in st.waiters ensures !Wanted(st.waiters[t], family, packet) {
        assert t in st.list;
      }
    }
  }

  /**
   Dispatching the 128 bytes kept by recvfrom() has the effect of dispatching the whole datagram, for the same
   thread.
   */
  lemma SnapDispatches(st: State, family: Family, packet: Packet)
    requires Listed(st)
    ensures FirstWanted(st, family, Packet(packet.source, Snap(packet.bytes)), 0) == FirstWanted(st, family, packet, 0)
  {
    var kept := Packet(packet.source, Snap(packet.bytes));
    forall w: Waiter ensures Wanted(w, family, kept) <==> Wanted(w, family, packet) {
      SnapKeepsVerdict(packet.bytes, w.request.id, w.request.sequence);
    }
  }

  // ---- The hand-over comes to rest ----

  function AwaitingTids(st: State, family: Family): set<Tid> {
    set t | t in st.waiters && st.waiters[t].sleeping && st.waiters[t].request.family == family
  }

  /** The socket is served, or nobody is left asleep on it. */
  ghost predicate Settled(st: State, family: Family) {
    family in st.busy || !SomeoneAt(st, family, Blocked)
  }

  lemma LeavingShrinks(st: State, t: Tid, expired: bool)
    requires Listed(st) && t in st.waiters && (st.waiters[t].answered || expired)
    ensures var family := st.waiters[t].request.family;
            AwaitingTids(Decide(st, t, expired), family) == AwaitingTids(st, family) - {t}
  {
    var w := st.waiters[t].(place := Outside, sleeping := false);
    var left := Put(st, t, w);
    assert forall u :: u in st.waiters && u != t ==> left.waiters[u] == st.waiters[u];
  }

  /** Any woken thread that runs takes an idle socket over, or leaves it with one thread less waiting. */
  lemma WokenThreadActs(st: State, family: Family, t: Tid, expired: bool)
    requires Inv(st) && At(st, t, Woken) && st.waiters[t].request.family == family && family !in st.busy
    ensures var st' := Apply(st, Resume(t, expired));
            && Inv(st')
            && (family in st'.busy || |AwaitingTids(st', family)| < |AwaitingTids(st, family)|)
  {
    StepKeeps(st, Resume(t, expired));
    assert t in AwaitingTids(st, family);
    if st.waiters[t].answered || expired {
      LeavingShrinks(st, t, expired);
    }
  }

  /** While the socket is unsettled some thread can run. */
  lemma SomeoneCanAct(st: State, family: Family) returns (t: Tid)
    requires Inv(st) && !Settled(st, family)
    ensures At(st, t, Woken) && st.waiters[t].request.family == family
  {
    assert NoLostWake(st, family);
    t :| t in st.waiters && st.waiters[t].place == Woken && st.waiters[t].request.family == family;
  }

  /** A run of woken threads of one socket, in any order and with any clocks. */
  predicate ResumeRun(st: State, family: Family, steps: seq<Step>)
    requires ListIsTable(st)
    decreases |steps|
  {
    steps == [] ||
    (steps[0].Resume? && Enabled(st, steps[0]) && st.waiters[steps[0].t].request.family == family &&
     ResumeRun(Apply(st, steps[0]), family, steps[1..]))
  }

  lemma AfterFirst(st: State, steps: seq<Step>, k: nat)
    requires ListIsTable(st) && steps != [] && k <= |steps| - 1
    requires Enabled(st, steps[0]) && Possible(Apply(st, steps[0]), steps[1..][..k])
    ensures Possible(st, steps[..k + 1]) && After(st, steps[..k + 1]) == After(Apply(st, steps[0]), steps[1..][..k])
  {
    assert steps[..k + 1][1..] == steps[1..][..k] && steps[..k + 1][0] == steps[0];
  }

  /**
   Whichever woken threads run, in whatever order and whatever their clocks say, the socket is served or
   without a sleeper at some point of any run that has more steps than threads are waiting.
   */
  lemma {:induction false} HandoverSettles(st: State, family: Family, steps: seq<Step>) returns (k: nat)
    requires Inv(st) && ResumeRun(st, family, steps) && |steps| > |AwaitingTids(st, family)|
    ensures k <= |steps| && Possible(st, steps[..k]) && Settled(After(st, steps[..k]), family)
    decreases |steps|
  {
    k := 0;
    if !Settled(st, family) {
      var st' := Apply(st, steps[0]);
      WokenThreadActs(st, family, steps[0].t, steps[0].expired);
      var later := 0;
      if family !in st'.busy {
        later := HandoverSettles(st', family, steps[1..]);
      } else {
        assert steps[1..][..0] == [];
      }
      AfterFirst(st, steps, later);
      k := later + 1;
    }
  }
}
