/**
 The code that runs with LOCK_ICMP held, in the imperative form of the source:
 loops over the waiter list that update the records in place.  Each method is
 proved equal to the step of the state machine that names it.
 */
module IcmpShared {
  import opened IcmpReply
  import opened IcmpDemux

  lemma Unlinked(kept: seq<Tid>, rest: seq<Tid>, t: Tid)
    requires rest != [] && rest[0] != t
    ensures kept + Without(rest, t) == (kept + [rest[0]]) + Without(rest[1..], t)
  {
    assert Without(rest, t) == [rest[0]] + Without(rest[1..], t);
  }

  /** The link walk of icmp_shared_unregister: it stops at the entry it unlinks. */
  method RemoveFrom(list: seq<Tid>, t: Tid) returns (r: seq<Tid>)
    ensures r == Without(list, t)
  {
    var kept, rest := [], list;
    while rest != [] && rest[0] != t
      invariant kept + Without(rest, t) == Without(list, t)
      decreases |rest|
    {
      Unlinked(kept, rest, t);
      kept, rest := kept + [rest[0]], rest[1..];
    }
    if rest != [] {
      rest := rest[1..];
    }
    r := kept + rest;
  }

  class Shared {
    var list: seq<Tid>
    var waiters: map<Tid, Waiter>
    var busy: set<Family>

    function View(): State
      reads this
    {
      State(list, waiters, busy)
    }

    constructor ()
      ensures View() == INITIAL
    {
      list, waiters, busy := [], map[], {};
    }

    method Handoff(family: Family)
      requires Listed(View())
      modifies this`waiters
      ensures View() == IcmpDemux.Handoff(old(View()), family)
    {
      if family in busy {
        return;
      }
      var i := 0;
      while i < |list|
        invariant 0 <= i <= |list| && View() == old(View())
        invariant FirstAsleep(View(), family, 0) == FirstAsleep(View(), family, i)
      {
        var w := waiters[list[i]];
        if w.request.family == family && w.sleeping && !w.answered {
          waiters := waiters[list[i] := Signal(w)];
          return;
        }
        i := i + 1;
      }
    }

    method Register(t: Tid, request: Request)
      requires ListIsTable(View()) && t !in waiters
      modifies this`list, this`waiters
      ensures View() == Apply(old(View()), IcmpDemux.Register(t, request))
    {
      waiters := waiters[t := Waiter(request, false, false, Outside, None)];
      list := [t] + list;
    }

    method Unregister(t: Tid)
      requires ListIsTable(View()) && At(View(), t, Outside)
      modifies this`list, this`waiters
      ensures View() == Apply(old(View()), IcmpDemux.Unregister(t))
    {
      var family := waiters[t].request.family;
      list := RemoveFrom(list, t);
      waiters := waiters - {t};
      assert View() == Unlink(old(View()), t);
      Handoff(family);
    }

    method Dispatch(family: Family, packet: Packet)
      requires Listed(View())
      modifies this`waiters
      ensures View() == IcmpDemux.Dispatch(old(View()), family, packet)
    {
      var i := 0;
      while i < |list|
        invariant 0 <= i <= |list| && View() == old(View())
        invariant FirstWanted(View(), family, packet, 0) == FirstWanted(View(), family, packet, i)
      {
        var w := waiters[list[i]];
        if w.answered || !Answers(family, packet, w.request) {
          i := i + 1;
          continue;
        }
        waiters := waiters[list[i] := Signal(w.(answered := true, reply := Some(packet)))];
        return;
      }
    }

    /** The locked half of one drain pass of icmp_shared_await. */
    method DispatchBatch(family: Family, packets: seq<Packet>)
      requires Listed(View())
      modifies this`waiters
      ensures View() == DispatchAll(old(View()), family, packets)
    {
      var slot := 0;
      while slot < |packets|
        invariant 0 <= slot <= |packets|
        invariant Listed(View())
        invariant DispatchAll(old(View()), family, packets) == DispatchAll(View(), family, packets[slot..])
      {
        assert packets[slot..][1..] == packets[slot + 1..];
        if |packets[slot].bytes| > 0 {
          Dispatch(family, packets[slot]);
        }
        slot := slot + 1;
      }
    }

    /** One turn of the loop in icmp_shared_await; true when the thread leaves the loop. */
    method Decide(t: Tid, expired: bool) returns (done: bool)
      requires Listed(View()) && t in waiters
      modifies this
      ensures View() == IcmpDemux.Decide(old(View()), t, expired)
      ensures done <==> old(waiters[t].answered) || expired
    {
      var w := waiters[t];
      done := w.answered || expired;
      if done {
        waiters := waiters[t := w.(place := Outside, sleeping := false)];
        Handoff(w.request.family);
      } else if w.request.family in busy {
        waiters := waiters[t := w.(place := Blocked, sleeping := true)];
      } else {
        waiters := waiters[t := w.(place := Reading, sleeping := false)];
        busy := busy + {w.request.family};
      }
    }
  }
}
