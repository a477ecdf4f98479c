/**
 snmp_get_multi: one GET for a batch of OIDs, repeated with one OID less each time
 the agent names a failing index.  The network is an oracle that may answer every
 attempt differently.  Two contracts of Net-SNMP are assumed: an error response
 repeats the request's bindings, and snmp_fix_pdu removes the indexed binding and
 yields nothing only when none remain.
 */
module SnmpMulti {

  type Oid = string

  /** A result buffer: not yet answered, "U", or the formatted value of a binding. */
  datatype Cell = Pending | Undefined | Answered(text: string)

  /** A binding of a response; an exception is noSuchObject, noSuchInstance or endOfMibView. */
  datatype Varbind = Exception | Value(text: string)

  datatype Response =
    | Nothing
    | Values(bindings: seq<Varbind>)
    | AgentError(index: int)

  datatype Reply =
    | Answer(response: Response)
    | TimedOut
    | SendError

  datatype Status = Success | Timeout | Error

  /** The n-th attempt of a request for these OIDs. */
  type Network = (nat, seq<Oid>) -> Reply

  datatype Option<+T> = None | Some(value: T)

  // ---- Lists of cells ----

  /** How many of the first n cells are not undefined. */
  function Before(cells: seq<Cell>, n: nat): (r: nat)
    requires n <= |cells|
    ensures r <= n
  {
    if n == 0 then 0 else Before(cells, n - 1) + if cells[n - 1] == Undefined then 0 else 1
  }

  function DefinedCount(cells: seq<Cell>): nat {
    Before(cells, |cells|)
  }

  /** The OIDs among the first n whose cells are not undefined, in order. */
  function NamesTo(oids: seq<Oid>, cells: seq<Cell>, n: nat): (r: seq<Oid>)
    requires n <= |oids| == |cells|
    ensures |r| == Before(cells, n)
  {
    if n == 0 then [] else NamesTo(oids, cells, n - 1) + if cells[n - 1] == Undefined then [] else [oids[n - 1]]
  }

  function Outstanding(oids: seq<Oid>, cells: seq<Cell>): (r: seq<Oid>)
    requires |oids| == |cells|
    ensures |r| == DefinedCount(cells)
  {
    NamesTo(oids, cells, |cells|)
  }

  /** The position, below n, of the index-th cell that is not undefined, counted from one. */
  function NthTo(cells: seq<Cell>, index: nat, n: nat): (p: nat)
    requires n <= |cells| && 1 <= index <= Before(cells, n)
    ensures p < n && cells[p] != Undefined && Before(cells, p) == index - 1
  {
    if cells[n - 1] != Undefined && Before(cells, n) == index then n - 1 else NthTo(cells, index, n - 1)
  }

  /** snmp_multi_error_index: the cell of the index-th outstanding OID becomes undefined. */
  function MarkNth(cells: seq<Cell>, index: nat): (r: seq<Cell>)
    requires 1 <= index <= DefinedCount(cells)
    ensures |r| == |cells|
  {
    cells[NthTo(cells, index, |cells|) := Undefined]
  }

  function CellOf(v: Varbind): Cell {
    if v == Exception then Undefined else Answered(v.text)
  }

  /** What cell i takes: the binding at its place among the outstanding cells; a short list leaves it undefined. */
  function Assigned(cells: seq<Cell>, bindings: seq<Varbind>, i: nat): Cell
    requires i < |cells|
  {
    if cells[i] == Undefined || Before(cells, i) >= |bindings| then Undefined else CellOf(bindings[Before(cells, i)])
  }

  /** snmp_multi_values */
  function Assign(cells: seq<Cell>, bindings: seq<Varbind>): (r: seq<Cell>)
    ensures |r| == |cells|
  {
    seq(|cells|, i requires 0 <= i < |cells| => Assigned(cells, bindings, i))
  }

  function AllUndefined(n: nat): (r: seq<Cell>)
    ensures |r| == n && forall i | 0 <= i < n :: r[i] == Undefined
  {
    seq(n, _ => Undefined)
  }

  /** snmp_multi_request drops the OIDs that cannot be parsed or added. */
  function DropUnusable(cells: seq<Cell>, usable: seq<bool>): (r: seq<Cell>)
    requires |usable| == |cells|
    ensures |r| == |cells|
    ensures forall i | 0 <= i < |cells| :: r[i] == if usable[i] then cells[i] else Undefined
  {
    seq(|cells|, i requires 0 <= i < |cells| => if usable[i] then cells[i] else Undefined)
  }

  function Remove(request: seq<Oid>, at: nat): seq<Oid>
    requires at < |request|
  {
    request[..at] + request[at + 1..]
  }

  /** snmp_fix_pdu under its contract. */
  function FixPdu(request: seq<Oid>, index: nat): (r: Option<seq<Oid>>)
    requires 1 <= index <= |request|
  {
    if |request| == 1 then None else Some(Remove(request, index - 1))
  }

  // ---- Counting and marking ----

  lemma {:induction false} BeforeGrows(cells: seq<Cell>, m: nat, n: nat)
    requires m <= n <= |cells|
    ensures Before(cells, m) <= Before(cells, n)
    ensures m < n && cells[m] != Undefined ==> Before(cells, m) < Before(cells, n)
    decreases n
  {
    if m < n { BeforeGrows(cells, m, n - 1); }
  }

  /** The index that counts the defined cells up to and including one names that one. */
  lemma NthIs(cells: seq<Cell>, index: nat, p: nat)
    requires p < |cells| && cells[p] != Undefined && Before(cells, p) == index - 1
    ensures 1 <= index <= DefinedCount(cells) && NthTo(cells, index, |cells|) == p
  {
    BeforeGrows(cells, p, |cells|);
    var q := NthTo(cells, index, |cells|);
    BeforeGrows(cells, if p < q then p else q, if p < q then q else p);
  }

  lemma {:induction false} BeforeMarked(cells: seq<Cell>, p: nat, n: nat)
    requires p < |cells| && cells[p] != Undefined && n <= |cells|
    ensures Before(cells[p := Undefined], n) == Before(cells, n) - if p < n then 1 else 0
  {
    if n > 0 { BeforeMarked(cells, p, n - 1); }
  }

  /** Marking an OID costs exactly one. */
  lemma MarkNthCounts(cells: seq<Cell>, index: nat)
    requires 1 <= index <= DefinedCount(cells)
    ensures DefinedCount(MarkNth(cells, index)) == DefinedCount(cells) - 1
  {
    BeforeMarked(cells, NthTo(cells, index, |cells|), |cells|);
  }

  /** The OID of a defined cell stands in the request at its place among the defined cells. */
  lemma {:induction false} NamesAt(oids: seq<Oid>, cells: seq<Cell>, n: nat, i: nat)
    requires i < n <= |oids| == |cells| && cells[i] != Undefined
    ensures Before(cells, i) < Before(cells, n) && NamesTo(oids, cells, n)[Before(cells, i)] == oids[i]
    decreases n
  {
    BeforeGrows(cells, i, n);
    if i < n - 1 { NamesAt(oids, cells, n - 1, i); }
  }

  lemma RemoveLast(request: seq<Oid>, more: seq<Oid>, at: nat)
    requires at < |request|
    ensures Remove(request + more, at) == Remove(request, at) + more
  {
    assert (request + more)[at + 1..] == request[at + 1..] + more;
  }

  lemma RemoveAtEnd(request: seq<Oid>, last: Oid)
    ensures Remove(request + [last], |request|) == request
  {
  }

  /** What the n-th cell adds to the request. */
  function NameOf(oids: seq<Oid>, cells: seq<Cell>, n: nat): seq<Oid>
    requires n < |oids| == |cells|
  {
    if cells[n] == Undefined then [] else [oids[n]]
  }

  lemma {:induction false} NamesUnmarked(oids: seq<Oid>, cells: seq<Cell>, p: nat, n: nat)
    requires n <= p < |oids| == |cells|
    ensures NamesTo(oids, cells[p := Undefined], n) == NamesTo(oids, cells, n)
  {
    if n > 0 { NamesUnmarked(oids, cells, p, n - 1); }
  }

  lemma {:induction false} NamesMarked(oids: seq<Oid>, cells: seq<Cell>, p: nat, n: nat)
    requires p < n <= |oids| == |cells| && cells[p] != Undefined
    ensures Before(cells, p) < Before(cells, n)
    ensures NamesTo(oids, cells[p := Undefined], n) == Remove(NamesTo(oids, cells, n), Before(cells, p))
    decreases n
  {
    BeforeGrows(cells, p, n);
    var marked, front := cells[p := Undefined], NamesTo(oids, cells, n - 1);
    if p == n - 1 {
      NamesUnmarked(oids, cells, p, p);
      RemoveAtEnd(front, oids[p]);
      assert front + [] == front;
    } else {
      calc {
        NamesTo(oids, marked, n);
        NamesTo(oids, marked, n - 1) + NameOf(oids, cells, n - 1);
        { NamesMarked(oids, cells, p, n - 1); }
        Remove(front, Before(cells, p)) + NameOf(oids, cells, n - 1);
        { BeforeGrows(cells, p, n - 1); RemoveLast(front, NameOf(oids, cells, n - 1), Before(cells, p)); }
        Remove(front + NameOf(oids, cells, n - 1), Before(cells, p));
      }
    }
  }

  /** Removing the indexed binding from the request and marking the indexed cell keep the two in step. */
  lemma FixMatchesMark(oids: seq<Oid>, cells: seq<Cell>, index: nat)
    requires |oids| == |cells| && 1 <= index <= DefinedCount(cells)
    ensures Outstanding(oids, MarkNth(cells, index)) == Remove(Outstanding(oids, cells), index - 1)
  {
    NamesMarked(oids, cells, NthTo(cells, index, |cells|), |cells|);
  }

  /** Marking an index undefines one cell: that of the OID at the index in the request. */
  lemma MarkNthHits(oids: seq<Oid>, cells: seq<Cell>, index: nat) returns (p: nat)
    requires |oids| == |cells| && 1 <= index <= DefinedCount(cells)
    ensures p < |cells| && cells[p] != Undefined && MarkNth(cells, index) == cells[p := Undefined]
    ensures Outstanding(oids, cells)[index - 1] == oids[p]
  {
    p := NthTo(cells, index, |cells|);
    NamesAt(oids, cells, |cells|, p);
  }

  lemma {:induction false} NoneDefinedTo(cells: seq<Cell>, n: nat)
    requires n <= |cells| && Before(cells, n) == 0
    ensures forall i | 0 <= i < n :: cells[i] == Undefined
  {
    if n > 0 { NoneDefinedTo(cells, n - 1); }
  }

  lemma NoneDefined(cells: seq<Cell>)
    requires DefinedCount(cells) == 0
    ensures forall i | 0 <= i < |cells| :: cells[i] == Undefined
  {
    NoneDefinedTo(cells, |cells|);
  }

  // ---- The outcome of the retries ----

  /** `last` is the reply that ended the loop. */
  datatype Outcome = Outcome(cells: seq<Cell>, status: Status, attempts: nat, last: Reply)

  /** What the request loop leaves, attempt by attempt. */
  function Retry(oids: seq<Oid>, cells: seq<Cell>, net: Network, attempt: nat): (r: Outcome)
    requires |oids| == |cells| && DefinedCount(cells) > 0
    ensures |r.cells| == |cells| && r.attempts > attempt
    decreases DefinedCount(cells)
  {
    var reply := net(attempt, Outstanding(oids, cells));
    match reply
    case TimedOut => Outcome(AllUndefined(|cells|), Timeout, attempt + 1, reply)
    case SendError => Outcome(cells, Error, attempt + 1, reply)
    case Answer(Nothing) => Outcome(AllUndefined(|cells|), Error, attempt + 1, reply)
    case Answer(Values(bindings)) => Outcome(Assign(cells, bindings), Success, attempt + 1, reply)
    case Answer(AgentError(index)) =>
      if 1 <= index <= DefinedCount(cells) then
        MarkNthCounts(cells, index);
        var rest := MarkNth(cells, index);
        if DefinedCount(rest) == 0 then Outcome(rest, Success, attempt + 1, reply)
        else Retry(oids, rest, net, attempt + 1)
      else Outcome(AllUndefined(|cells|), Error, attempt + 1, reply)
  }

  // ---- No answer reaches another OID's cell ----

  /** The bindings answer the requested OIDs position by position. */
  predicate AnswersInOrder(truth: Oid -> Varbind, request: seq<Oid>, bindings: seq<Varbind>) {
    forall j | 0 <= j < |request| && j < |bindings| :: bindings[j] == truth(request[j])
  }

  /** The reply to the n-th attempt, if it has values, answers in order. */
  predicate HonestReply(truth: (nat, Oid) -> Varbind, n: nat, request: seq<Oid>, reply: Reply) {
    reply.Answer? && reply.response.Values? ==>
      forall j | 0 <= j < |request| && j < |reply.response.bindings| ::
        reply.response.bindings[j] == truth(n, request[j])
  }

  /** Every value reply of the network answers in order; what it says may change from attempt to attempt. */
  ghost predicate Honest(net: Network, truth: (nat, Oid) -> Varbind) {
    forall n, request :: HonestReply(truth, n, request, net(n, request))
  }

  /**
   A cell takes nothing, or the binding at its OID's place in the request, and always the latter when the reply
   is complete.
   */
  lemma AssignTakesOwn(oids: seq<Oid>, cells: seq<Cell>, bindings: seq<Varbind>, i: nat, own: Varbind)
    requires |oids| == |cells| && i < |cells|
    requires cells[i] != Undefined && Before(cells, i) < |bindings| ==> bindings[Before(cells, i)] == own
    ensures var after := Assign(cells, bindings)[i];
            && (after == Undefined || (cells[i] != Undefined && after == CellOf(own)))
            && (|bindings| >= DefinedCount(cells) && cells[i] != Undefined ==> after == CellOf(own))
  {
    assert Assign(cells, bindings)[i] == Assigned(cells, bindings, i);
    BeforeGrows(cells, i, |cells|);
  }

  /** A cell became undefined, took the value of its own OID, or was left alone by a failed send. */
  predicate OwnOrNothing(before: Cell, after: Cell, own: Varbind, last: Reply) {
    || after == Undefined
    || (before != Undefined && after == CellOf(own))
    || (last == SendError && after == before)
  }

  lemma OwnCarries(before: Cell, marked: Cell, after: Cell, own: Varbind, last: Reply)
    requires (marked == before || marked == Undefined) && OwnOrNothing(marked, after, own, last)
    ensures OwnOrNothing(before, after, own, last)
  {
  }

  /** The reply to a request is an error that names one of its OIDs. */
  predicate NamesOne(reply: Reply, request: seq<Oid>) {
    reply.Answer? && reply.response.AgentError? && 1 <= reply.response.index <= |request|
  }

  /** A named OID is dropped and the rest is asked for again. */
  lemma RetryDrops(oids: seq<Oid>, cells: seq<Cell>, net: Network, attempt: nat)
    requires |oids| == |cells| && DefinedCount(cells) > 0
    requires NamesOne(net(attempt, Outstanding(oids, cells)), Outstanding(oids, cells))
    ensures var index := net(attempt, Outstanding(oids, cells)).response.index;
            var rest := MarkNth(cells, index);
            && DefinedCount(rest) == DefinedCount(cells) - 1
            && (DefinedCount(rest) > 0 ==> Retry(oids, cells, net, attempt) == Retry(oids, rest, net, attempt + 1))
            && (DefinedCount(rest) == 0 ==>
                  Retry(oids, cells, net, attempt).cells == rest && Retry(oids, cells, net, attempt).status == Success)
  {
    MarkNthCounts(cells, net(attempt, Outstanding(oids, cells)).response.index);
  }

  /** Any other reply ends the loop with cells undefined, answered in order, or untouched by a failed send. */
  lemma RetryEnds(oids: seq<Oid>, cells: seq<Cell>, net: Network, attempt: nat, truth: (nat, Oid) -> Varbind, i: nat)
    requires |oids| == |cells| && DefinedCount(cells) > 0 && i < |cells|
    requires var request := Outstanding(oids, cells);
             HonestReply(truth, attempt, request, net(attempt, request)) && !NamesOne(net(attempt, request), request)
    ensures var r := Retry(oids, cells, net, attempt);
            r.attempts == attempt + 1 && OwnOrNothing(cells[i], r.cells[i], truth(attempt, oids[i]), r.last)
  {
    var reply := net(attempt, Outstanding(oids, cells));
    if reply.Answer? && reply.response.Values? {
      if cells[i] != Undefined { NamesAt(oids, cells, |cells|, i); }
      AssignTakesOwn(oids, cells, reply.response.bindings, i, truth(attempt, oids[i]));
    }
  }

  /** What holds of a cell after the request without the named OID holds of it after this one. */
  lemma DropCarries(oids: seq<Oid>, cells: seq<Cell>, net: Network, attempt: nat, truth: (nat, Oid) -> Varbind, i: nat)
    requires |oids| == |cells| && DefinedCount(cells) > 0 && i < |cells|
    requires NamesOne(net(attempt, Outstanding(oids, cells)), Outstanding(oids, cells))
    requires var rest := MarkNth(cells, net(attempt, Outstanding(oids, cells)).response.index);
             DefinedCount(rest) > 0 ==>
               var r := Retry(oids, rest, net, attempt + 1);
               OwnOrNothing(rest[i], r.cells[i], truth(r.attempts - 1, oids[i]), r.last)
    ensures var r := Retry(oids, cells, net, attempt);
            OwnOrNothing(cells[i], r.cells[i], truth(r.attempts - 1, oids[i]), r.last)
  {
    var rest := MarkNth(cells, net(attempt, Outstanding(oids, cells)).response.index);
    RetryDrops(oids, cells, net, attempt);
    if DefinedCount(rest) > 0 {
      var r := Retry(oids, rest, net, attempt + 1);
      OwnCarries(cells[i], rest[i], r.cells[i], truth(r.attempts - 1, oids[i]), r.last);
    } else {
      NoneDefined(rest);
    }
  }

  /** Every cell of an attempt's outcome is undefined, its own OID's value from the last attempt, or untouched. */
  ghost predicate EndsOwn(oids: seq<Oid>, cells: seq<Cell>, net: Network, attempt: nat, truth: (nat, Oid) -> Varbind,
                          i: nat)
    requires |oids| == |cells| && DefinedCount(cells) > 0 && i < |cells|
  {
    var r := Retry(oids, cells, net, attempt);
    OwnOrNothing(cells[i], r.cells[i], truth(r.attempts - 1, oids[i]), r.last)
  }

  /**
   Whatever errors the agent reports, each cell ends undefined, or with the value the
   last attempt gave for its own OID, or untouched; and an undefined cell stays undefined.
   */
  lemma {:induction false} NeverCrossAssigns(oids: seq<Oid>, cells: seq<Cell>, net: Network, attempt: nat,
                                             truth: (nat, Oid) -> Varbind, i: nat)
    requires |oids| == |cells| && DefinedCount(cells) > 0 && Honest(net, truth) && i < |cells|
    ensures EndsOwn(oids, cells, net, attempt, truth, i)
    decreases DefinedCount(cells)
  {
    var request := Outstanding(oids, cells);
    if NamesOne(net(attempt, request), request) {
      var rest := MarkNth(cells, net(attempt, request).response.index);
      MarkNthCounts(cells, net(attempt, request).response.index);
      if DefinedCount(rest) > 0 { NeverCrossAssigns(oids, rest, net, attempt + 1, truth, i); }
      DropCarries(oids, cells, net, attempt, truth, i);
    } else {
      assert HonestReply(truth, attempt, request, net(attempt, request));
      RetryEnds(oids, cells, net, attempt, truth, i);
    }
  }

  lemma SomeDefined(cells: seq<Cell>) returns (i: nat)
    requires DefinedCount(cells) > 0
    ensures i < |cells| && cells[i] != Undefined
  {
    i := NthTo(cells, 1, |cells|);
  }

  predicate AtStart(cells: seq<Cell>) {
    forall i | 0 <= i < |cells| :: cells[i] in {Pending, Undefined}
  }

  /**
   The cells that are left after the first k replies, starting with a given attempt, each named one
   of the OIDs then asked for without emptying the request; nothing if some reply did not.
   */
  function LeftAfter(oids: seq<Oid>, cells: seq<Cell>, net: Network, attempt: nat, k: nat): (r: Option<seq<Cell>>)
    requires |oids| == |cells|
    ensures r.Some? ==> |r.value| == |cells|
    decreases k
  {
    if k == 0 then Some(cells)
    else
      var request := Outstanding(oids, cells);
      if !NamesOne(net(attempt, request), request) || |request| == 1 then None
      else LeftAfter(oids, MarkNth(cells, net(attempt, request).response.index), net, attempt + 1, k - 1)
  }

  /** After k such replies the next send fails with something other than a timeout. */
  predicate SendFailsAt(oids: seq<Oid>, cells: seq<Cell>, net: Network, attempt: nat, k: nat)
    requires |oids| == |cells|
  {
    var left := LeftAfter(oids, cells, net, attempt, k);
    left.Some? && net(attempt + k, Outstanding(oids, left.value)) == SendError
  }

  /** Such a failed send leaves the cells exactly as the earlier replies had left them. */
  lemma {:induction false} FailedSendLeaves(oids: seq<Oid>, cells: seq<Cell>, net: Network, attempt: nat, k: nat)
    requires |oids| == |cells| && DefinedCount(cells) > 0 && SendFailsAt(oids, cells, net, attempt, k)
    ensures Retry(oids, cells, net, attempt).cells == LeftAfter(oids, cells, net, attempt, k).value
    ensures DefinedCount(LeftAfter(oids, cells, net, attempt, k).value) > 0
    decreases k
  {
    if k > 0 {
      RetryDrops(oids, cells, net, attempt);
      var index := net(attempt, Outstanding(oids, cells)).response.index;
      FailedSendLeaves(oids, MarkNth(cells, index), net, attempt + 1, k - 1);
    }
  }

  lemma {:induction false} LeftAtStart(oids: seq<Oid>, cells: seq<Cell>, net: Network, attempt: nat, k: nat)
    requires |oids| == |cells| && AtStart(cells) && LeftAfter(oids, cells, net, attempt, k).Some?
    ensures AtStart(LeftAfter(oids, cells, net, attempt, k).value)
    decreases k
  {
    if k > 0 {
      var index := net(attempt, Outstanding(oids, cells)).response.index;
      LeftAtStart(oids, MarkNth(cells, index), net, attempt + 1, k - 1);
    }
  }

  predicate SomePending(cells: seq<Cell>) {
    exists i :: 0 <= i < |cells| && cells[i] == Pending
  }

  lemma StartPending(cells: seq<Cell>)
    requires AtStart(cells) && DefinedCount(cells) > 0
    ensures SomePending(cells)
  {
    var i := SomeDefined(cells);
    assert cells[i] == Pending;
  }

  lemma FailsLater(oids: seq<Oid>, cells: seq<Cell>, net: Network, attempt: nat, k: nat)
    requires |oids| == |cells| && DefinedCount(cells) > 1
    requires NamesOne(net(attempt, Outstanding(oids, cells)), Outstanding(oids, cells))
    requires SendFailsAt(oids, MarkNth(cells, net(attempt, Outstanding(oids, cells)).response.index), net, attempt + 1,
                         k)
    ensures SendFailsAt(oids, cells, net, attempt, k + 1)
  {
  }

  lemma EndsWithoutPending(oids: seq<Oid>, cells: seq<Cell>, net: Network, attempt: nat)
    requires |oids| == |cells| && DefinedCount(cells) > 0
    requires !NamesOne(net(attempt, Outstanding(oids, cells)), Outstanding(oids, cells))
    ensures SomePending(Retry(oids, cells, net, attempt).cells) ==> net(attempt, Outstanding(oids, cells)) == SendError
  {
  }

  /** A cell is left pending only by a failed send. */
  lemma {:induction false} PendingNeedsFailedSend(oids: seq<Oid>, cells: seq<Cell>, net: Network, attempt: nat)
    returns (k: nat)
    requires |oids| == |cells| && DefinedCount(cells) > 0 && SomePending(Retry(oids, cells, net, attempt).cells)
    ensures SendFailsAt(oids, cells, net, attempt, k)
    decreases DefinedCount(cells)
  {
    k := 0;
    var request := Outstanding(oids, cells);
    if NamesOne(net(attempt, request), request) {
      var rest := MarkNth(cells, net(attempt, request).response.index);
      RetryDrops(oids, cells, net, attempt);
      if DefinedCount(rest) > 0 {
        var later := PendingNeedsFailedSend(oids, rest, net, attempt + 1);
        FailsLater(oids, cells, net, attempt, later);
        k := later + 1;
      } else {
        NoneDefined(rest);
      }
    } else {
      EndsWithoutPending(oids, cells, net, attempt);
    }
  }

  /**
   snmp_get_multi meets a send that fails with something other than a timeout, after k OIDs were named and
   dropped.
   */
  predicate MeetsFailedSend(session: bool, pdu: bool, oids: seq<Oid>, cells: seq<Cell>, usable: seq<bool>,
                            net: Network, k: nat)
    requires |oids| == |usable| == |cells|
  {
    && session && pdu
    && DefinedCount(DropUnusable(cells, usable)) > 0
    && SendFailsAt(oids, DropUnusable(cells, usable), net, 0, k)
  }

  /**
   snmp_get_multi leaves a slot neither undefined nor answered exactly when the agent names and loses
   some number of OIDs, one reply at a time, and then a send fails with something other than a timeout.
   */
  lemma UntouchedIffSendFails(session: bool, pdu: bool, oids: seq<Oid>, cells: seq<Cell>, usable: seq<bool>,
                              net: Network)
    requires |oids| == |usable| == |cells| && AtStart(cells)
    ensures SomePending(Collected(session, pdu, oids, cells, usable, net).0) <==>
            exists k: nat :: MeetsFailedSend(session, pdu, oids, cells, usable, net, k)
  {
    var kept := DropUnusable(cells, usable);
    if session && pdu && DefinedCount(kept) > 0 {
      if SomePending(Retry(oids, kept, net, 0).cells) {
        var k := PendingNeedsFailedSend(oids, kept, net, 0);
        assert MeetsFailedSend(session, pdu, oids, cells, usable, net, k);
      }
      if k: nat :| MeetsFailedSend(session, pdu, oids, cells, usable, net, k) {
        FailedSendLeaves(oids, kept, net, 0, k);
        LeftAtStart(oids, kept, net, 0, k);
        StartPending(LeftAfter(oids, kept, net, 0, k).value);
      }
    }
  }

  /** And the slots left untouched are then those of the OIDs the failed request asked for. */
  lemma UntouchedAreOutstanding(session: bool, pdu: bool, oids: seq<Oid>, cells: seq<Cell>, usable: seq<bool>,
                                net: Network, k: nat)
    requires |oids| == |usable| == |cells| && MeetsFailedSend(session, pdu, oids, cells, usable, net, k)
    ensures Collected(session, pdu, oids, cells, usable, net).0 ==
            LeftAfter(oids, DropUnusable(cells, usable), net, 0, k).value
  {
    FailedSendLeaves(oids, DropUnusable(cells, usable), net, 0, k);
  }

  /** The smallest failure: one OID and a send that fails leave its cell neither "U" nor answered. */
  lemma SendErrorLeavesCellUntouched()
    ensures Collected(true, true, ["1.3.6.1"], [Pending], [true], (_, _) => SendError).0 == [Pending]
  {
    var kept := DropUnusable([Pending], [true]);
    assert kept == [Pending] && Before(kept, 1) == 1;
  }

  /** Each retry is paid for with one OID, so the attempts never outnumber the OIDs. */
  lemma {:induction false} AttemptsBounded(oids: seq<Oid>, cells: seq<Cell>, net: Network, attempt: nat)
    requires |oids| == |cells| && DefinedCount(cells) > 0
    ensures Retry(oids, cells, net, attempt).attempts <= attempt + DefinedCount(cells)
    decreases DefinedCount(cells)
  {
    match net(attempt, Outstanding(oids, cells))
    case Answer(AgentError(index)) =>
      if 1 <= index <= DefinedCount(cells) {
        MarkNthCounts(cells, index);
        if DefinedCount(MarkNth(cells, index)) > 0 {
          AttemptsBounded(oids, MarkNth(cells, index), net, attempt + 1);
        }
      }
    case _ =>
  }

  // ---- An agent that answers every OID on its own merits ----

  /** The agent returns all values, exceptions inline, or names an OID that has none. */
  predicate FaithfulReply(truth: Oid -> Varbind, request: seq<Oid>, reply: Reply) {
    reply.Answer? &&
    match reply.response
    case Nothing => false
    case Values(bindings) => |bindings| == |request| && AnswersInOrder(truth, request, bindings)
    case AgentError(index) => 1 <= index <= |request| && truth(request[index - 1]) == Exception
  }

  ghost predicate Faithful(net: Network, truth: Oid -> Varbind) {
    forall n, request :: FaithfulReply(truth, request, net(n, request))
  }

  /** A faithful reply to a request ends it with the agent's answers, or names an OID without one. */
  lemma FaithfulEnds(oids: seq<Oid>, cells: seq<Cell>, net: Network, attempt: nat, truth: Oid -> Varbind, i: nat)
    requires |oids| == |cells| && DefinedCount(cells) > 0 && i < |cells|
    requires var request := Outstanding(oids, cells);
             FaithfulReply(truth, request, net(attempt, request)) && !NamesOne(net(attempt, request), request)
    ensures var r := Retry(oids, cells, net, attempt);
            r.status == Success && r.cells[i] == if cells[i] == Undefined then Undefined else CellOf(truth(oids[i]))
  {
    if cells[i] != Undefined { NamesAt(oids, cells, |cells|, i); }
    AssignTakesOwn(oids, cells, net(attempt, Outstanding(oids, cells)).response.bindings, i, truth(oids[i]));
  }

  /** With such an agent a batch gives every OID the result it would get alone. */
  lemma {:induction false} BatchAgreesWithAgent(oids: seq<Oid>, cells: seq<Cell>, net: Network, attempt: nat,
                                                truth: Oid -> Varbind, i: nat)
    requires |oids| == |cells| && DefinedCount(cells) > 0 && Faithful(net, truth) && i < |cells|
    ensures var r := Retry(oids, cells, net, attempt);
            r.status == Success && r.cells[i] == if cells[i] == Undefined then Undefined else CellOf(truth(oids[i]))
    decreases DefinedCount(cells)
  {
    var request := Outstanding(oids, cells);
    assert FaithfulReply(truth, request, net(attempt, request));
    if NamesOne(net(attempt, request), request) {
      var index := net(attempt, request).response.index;
      var p := MarkNthHits(oids, cells, index);
      assert CellOf(truth(oids[p])) == Undefined;
      RetryDrops(oids, cells, net, attempt);
      if DefinedCount(MarkNth(cells, index)) > 0 {
        BatchAgreesWithAgent(oids, MarkNth(cells, index), net, attempt + 1, truth, i);
      } else {
        NoneDefined(MarkNth(cells, index));
      }
    } else {
      FaithfulEnds(oids, cells, net, attempt, truth, i);
    }
  }

  // ---- The program ----

  /** snmp_multi_undefined */
  method MultiUndefined(cells: array<Cell>)
    modifies cells
    ensures cells[..] == AllUndefined(cells.Length)
  {
    var index := 0;
    while index < cells.Length
      invariant 0 <= index <= cells.Length
      invariant forall k | 0 <= k < index :: cells[k] == Undefined
    {
      cells[index] := Undefined;
      index := index + 1;
    }
  }

  /** snmp_multi_request: the request is nothing when it cannot be allocated or no OID is left to ask for. */
  method MultiRequest(pdu: bool, oids: seq<Oid>, cells: array<Cell>, usable: seq<bool>)
    returns (request: Option<seq<Oid>>)
    requires |oids| == |usable| == cells.Length
    modifies cells
    ensures cells[..] == if pdu then DropUnusable(old(cells[..]), usable) else old(cells[..])
    ensures request == if !pdu || DefinedCount(cells[..]) == 0 then None else Some(Outstanding(oids, cells[..]))
  {
    if !pdu { return None; }
    ghost var kept := DropUnusable(cells[..], usable);
    var names, index := [], 0;
    while index < cells.Length
      invariant 0 <= index <= cells.Length
      invariant forall k | 0 <= k < index :: cells[k] == kept[k]
      invariant forall k | index <= k < cells.Length :: cells[k] == old(cells[k])
      invariant names == NamesTo(oids, kept, index)
    {
      if cells[index] != Undefined {
        if usable[index] {
          names := names + [oids[index]];
        } else {
          cells[index] := Undefined;
        }
      }
      index := index + 1;
    }
    assert cells[..] == kept;
    request := if names == [] then None else Some(names);
  }

  /** snmp_multi_error_index */
  method MultiErrorIndex(cells: array<Cell>, errorIndex: int) returns (found: bool)
    modifies cells
    ensures found <==> 1 <= errorIndex <= DefinedCount(old(cells[..]))
    ensures cells[..] == if found then MarkNth(old(cells[..]), errorIndex) else old(cells[..])
  {
    ghost var was := cells[..];
    var current, index := 0, 0;
    while index < cells.Length
      invariant 0 <= index <= cells.Length && cells[..] == was
      invariant current == Before(was, index)
      invariant 1 <= errorIndex ==> current < errorIndex
    {
      if cells[index] != Undefined {
        current := current + 1;
        if current == errorIndex {
          NthIs(was, current, index);
          cells[index] := Undefined;
          return true;
        }
      }
      index := index + 1;
    }
    return false;
  }

  /** How many bindings are used up after n cells. */
  function Used(cells: seq<Cell>, bindings: seq<Varbind>, n: nat): nat
    requires n <= |cells|
  {
    if Before(cells, n) < |bindings| then Before(cells, n) else |bindings|
  }

  lemma UsedNext(cells: seq<Cell>, bindings: seq<Varbind>, n: nat)
    requires n < |cells|
    ensures var used := Used(cells, bindings, n);
            if cells[n] == Undefined || used == |bindings|
            then Used(cells, bindings, n + 1) == used && Assigned(cells, bindings, n) == Undefined
            else Used(cells, bindings, n + 1) == used + 1 && Assigned(cells, bindings, n) == CellOf(bindings[used])
  {
  }

  /** snmp_multi_values */
  method MultiValues(cells: array<Cell>, bindings: seq<Varbind>)
    modifies cells
    ensures cells[..] == Assign(old(cells[..]), bindings)
  {
    ghost var was, final := cells[..], Assign(cells[..], bindings);
    var index, used := 0, 0;
    while index < cells.Length
      invariant 0 <= index <= cells.Length
      invariant used == Used(was, bindings, index)
      invariant forall k | index <= k < cells.Length :: cells[k] == was[k]
      invariant forall k | 0 <= k < index :: cells[k] == final[k]
    {
      UsedNext(was, bindings, index);
      assert final[index] == Assigned(was, bindings, index);
      if cells[index] != Undefined {
        if used == |bindings| {
          cells[index] := Undefined;
        } else {
          cells[index] := CellOf(bindings[used]);
          used := used + 1;
        }
      }
      index := index + 1;
    }
  }

  /** What snmp_get_multi leaves in the cells, and whether the host is to be ignored from here on. */
  function Collected(session: bool, pdu: bool, oids: seq<Oid>, cells: seq<Cell>, usable: seq<bool>,
                     net: Network): (r: (seq<Cell>, bool))
    requires |oids| == |usable| == |cells|
    ensures |r.0| == |cells|
  {
    if cells == [] then (cells, false)
    else if !session then (AllUndefined(|cells|), true)
    else if !pdu then (AllUndefined(|cells|), false)
    else
      var kept := DropUnusable(cells, usable);
      if DefinedCount(kept) == 0 then (AllUndefined(|cells|), false)
      else
        var r := Retry(oids, kept, net, 0);
        (r.cells, r.status == Timeout)
  }

  /** One turn of the request loop after its reply came in; the new request, if any, is what snmp_fix_pdu gives. */
  method Exchange(oids: seq<Oid>, cells: array<Cell>, request: seq<Oid>, net: Network, attempt: nat)
    returns (next: Option<seq<Oid>>, status: Status)
    requires |oids| == cells.Length && DefinedCount(cells[..]) > 0 && request == Outstanding(oids, cells[..])
    modifies cells
    ensures next.Some? ==>
            && next.value == Outstanding(oids, cells[..])
            && DefinedCount(cells[..]) == DefinedCount(old(cells[..])) - 1 > 0
    ensures next.Some? ==> Retry(oids, old(cells[..]), net, attempt) == Retry(oids, cells[..], net, attempt + 1)
    ensures next.None? ==> var r := Retry(oids, old(cells[..]), net, attempt);
                           status == r.status && (status != Timeout ==> cells[..] == r.cells)
  {
    next := None;
    match net(attempt, request)
    case TimedOut => status := Timeout;
    case SendError => status := Error;
    case Answer(Nothing) =>
      status := Error;
      MultiUndefined(cells);
    case Answer(Values(bindings)) =>
      status := Success;
      MultiValues(cells, bindings);
    case Answer(AgentError(index)) =>
      status := Success;
      var found := MultiErrorIndex(cells, index);
      if found {
        MarkNthCounts(old(cells[..]), index);
        FixMatchesMark(oids, old(cells[..]), index);
        next := FixPdu(request, index);
      } else {
        status := Error;
        MultiUndefined(cells);
      }
  }

  /** snmp_get_multi.  The source's fallback for a request left over after `count` attempts is dead: none is left. */
  method GetMulti(session: bool, pdu: bool, oids: seq<Oid>, cells: array<Cell>, usable: seq<bool>, net: Network)
    returns (ignoreHost: bool)
    requires |oids| == |usable| == cells.Length
    modifies cells
    ensures (cells[..], ignoreHost) == Collected(session, pdu, oids, old(cells[..]), usable, net)
  {
    ignoreHost := false;
    if cells.Length == 0 {
      return;
    }
    if !session {
      MultiUndefined(cells);
      return true;
    }
    var request := MultiRequest(pdu, oids, cells, usable);
    if request == None {
      MultiUndefined(cells);
      return;
    }
    var attempt, status := 0, Error;
    ghost var final := Retry(oids, cells[..], net, 0);
    while request.Some? && attempt < cells.Length
      invariant request.Some? ==> request.value == Outstanding(oids, cells[..]) && DefinedCount(cells[..]) > 0
      invariant request.Some? ==> attempt + DefinedCount(cells[..]) <= cells.Length
      invariant request.Some? ==> final == Retry(oids, cells[..], net, attempt)
      invariant request.None? ==> status == final.status && (status != Timeout ==> cells[..] == final.cells)
      decreases cells.Length - attempt
    {
      request, status := Exchange(oids, cells, request.value, net, attempt);
      attempt := attempt + 1;
    }
    assert request.None?;
    if status == Timeout {
      TimeoutUndefines(oids, DropUnusable(old(cells[..]), usable), net, 0);
      MultiUndefined(cells);
      ignoreHost := true;
    }
  }

  lemma {:induction false} TimeoutUndefines(oids: seq<Oid>, cells: seq<Cell>, net: Network, attempt: nat)
    requires |oids| == |cells| && DefinedCount(cells) > 0
    ensures var r := Retry(oids, cells, net, attempt);
            r.status == Timeout ==> r.cells == AllUndefined(|cells|)
    decreases DefinedCount(cells)
  {
    match net(attempt, Outstanding(oids, cells))
    case Answer(AgentError(index)) =>
      if 1 <= index <= DefinedCount(cells) {
        MarkNthCounts(cells, index);
        if DefinedCount(MarkNth(cells, index)) > 0 {
          TimeoutUndefines(oids, MarkNth(cells, index), net, attempt + 1);
        }
      }
    case _ =>
  }
}
