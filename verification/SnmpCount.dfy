/**
 snmp_count: the GETNEXT walk that counts the entries below a root OID.  The agent
 is an oracle over the request number and the OID asked for; nothing is assumed
 about it except where a lemma says so.
 */
module SnmpCount {

  type Oid = seq<nat>

  const INT_MAX := 0x7fff_ffff
  const MAX_OID_LEN := 128

  datatype Option<+T> = None | Some(value: T)

  /** A binding; `exceptional` is endOfMibView, noSuchObject or noSuchInstance. */
  datatype Variable = Variable(name: Option<Oid>, exceptional: bool)

  /** NoSuchName is the PDU error an SNMPv1 agent ends a walk with; Unusable is a timeout or any other bad response. */
  datatype Reply = NoSuchName | Unusable | Variables(list: seq<Variable>)

  type Agent = (nat, Oid) -> Reply

  datatype Walk = Walk(root: Oid, current: Oid, count: nat, failed: bool)

  // ---- The order of OIDs ----

  /** snmp_oid_compare(a, b) < 0 */
  predicate Less(a: Oid, b: Oid) {
    if b == [] then false
    else if a == [] then true
    else a[0] < b[0] || (a[0] == b[0] && Less(a[1..], b[1..]))
  }

  lemma {:induction false} LessTotal(a: Oid, b: Oid)
    ensures Less(a, b) || a == b || Less(b, a)
    ensures !(Less(a, b) && (a == b || Less(b, a)))
  {
    if a != [] && b != [] {
      LessTotal(a[1..], b[1..]);
      assert a[0] == b[0] && a[1..] == b[1..] ==> a == b by {
        assert a == [a[0]] + a[1..] && b == [b[0]] + b[1..];
      }
    }
  }

  lemma {:induction false} LessTransitive(a: Oid, b: Oid, c: Oid)
    requires Less(a, b) && Less(b, c)
    ensures Less(a, c)
  {
    if a != [] && a[0] == b[0] && b[0] == c[0] {
      LessTransitive(a[1..], b[1..], c[1..]);
    }
  }

  predicate Under(root: Oid, name: Oid) {
    root <= name
  }

  /** What lies between two OIDs of a subtree belongs to the subtree. */
  lemma {:induction false} SubtreeConvex(root: Oid, a: Oid, b: Oid, c: Oid)
    requires Under(root, a) && Under(root, c) && Less(a, b) && (Less(b, c) || b == c)
    ensures Under(root, b)
  {
    if root != [] {
      assert a[0] == root[0] == c[0];
      assert b != [] && b[0] == root[0];
      SubtreeConvex(root[1..], a[1..], b[1..], c[1..]);
      assert root == [root[0]] + root[1..] && b == [b[0]] + b[1..];
    }
  }

  // ---- The walk ----

  /** snmp_count_advance: the new walk and whether it goes on. */
  function Advance(w: Walk, v: Variable): (Walk, bool) {
    if v.name == None || |v.name.value| > MAX_OID_LEN then (w.(failed := true), false)
    else
      var name := v.name.value;
      if !Under(w.root, name) then (w, false)
      else if w.count == INT_MAX then (w.(failed := true), false)
      else if v.exceptional then (w, false)
      else if !Less(w.current, name) then (w.(count := w.count + 1, failed := true), false)
      else (w.(count := w.count + 1, current := name), true)
  }

  function AdvanceAll(w: Walk, list: seq<Variable>): (r: (Walk, bool))
    ensures r.0.root == w.root && w.count <= r.0.count
    ensures r.1 ==> r.0.count == w.count + |list| && r.0.failed == w.failed
    ensures w.count <= INT_MAX ==> r.0.count <= INT_MAX
    decreases |list|
  {
    if list == [] then (w, true)
    else
      var (next, more) := Advance(w, list[0]);
      if more then AdvanceAll(next, list[1..]) else (next, false)
  }

  /** snmp_count_response */
  function Respond(w: Walk, reply: Reply): (Walk, bool) {
    match reply
    case NoSuchName => (w, false)
    case Unusable => (w.(failed := true), false)
    case Variables(list) => if list == [] then (w.(failed := true), false) else AdvanceAll(w, list)
  }

  function WalkOn(w: Walk, agent: Agent, n: nat): (r: Walk)
    requires w.count <= INT_MAX
    decreases INT_MAX - w.count
  {
    var (next, more) := Respond(w, agent(n, w.current));
    if more then WalkOn(next, agent, n + 1) else next
  }

  function Begin(root: Oid): Walk {
    Walk(root, root, 0, false)
  }

  /** snmp_count for a parsed root on an open session. */
  function Count(root: Oid, agent: Agent): int {
    var w := WalkOn(Begin(root), agent, 0);
    if w.failed then -1 else w.count
  }

  /** The program's two loops, over requests and over the bindings of one response. */
  method SnmpCount(root: Oid, agent: Agent) returns (result: int)
    ensures result == Count(root, agent)
  {
    var walk, more, n := Begin(root), true, 0;
    while more
      invariant walk.count <= INT_MAX
      invariant more ==> WalkOn(Begin(root), agent, 0) == WalkOn(walk, agent, n)
      invariant !more ==> WalkOn(Begin(root), agent, 0) == walk
      decreases if more then INT_MAX - walk.count + 1 else 0
    {
      ghost var before := walk;
      walk, more := CountResponse(walk, agent(n, walk.current));
      n := n + 1;
    }
    result := if walk.failed then -1 else walk.count;
  }

  method CountResponse(walk: Walk, reply: Reply) returns (walk': Walk, more: bool)
    requires walk.count <= INT_MAX
    ensures (walk', more) == Respond(walk, reply)
    ensures more ==> walk.count < walk'.count <= INT_MAX
  {
    if reply == NoSuchName {
      return walk, false;
    }
    if reply == Unusable || reply.list == [] {
      return walk.(failed := true), false;
    }
    walk', more := walk, true;
    var i := 0;
    while i < |reply.list|
      invariant 0 <= i <= |reply.list| && more && walk'.count == walk.count + i <= INT_MAX
      invariant AdvanceAll(walk, reply.list) == AdvanceAll(walk', reply.list[i..])
    {
      assert reply.list[i..][1..] == reply.list[i + 1..];
      var step := Advance(walk', reply.list[i]);
      walk', more := step.0, step.1;
      if !more {
        return;
      }
      i := i + 1;
    }
  }

  // ---- Any agent ----

  /** A strictly increasing list of OIDs of the subtree, from above its root up to `last`. */
  ghost predicate Run(root: Oid, run: seq<Oid>, last: Oid) {
    && (forall i | 0 <= i < |run| :: Under(root, run[i]) && Less(root, run[i]))
    && (forall i, j | 0 <= i < j < |run| :: Less(run[i], run[j]))
    && last == if run == [] then root else run[|run| - 1]
  }

  lemma RunGrows(root: Oid, run: seq<Oid>, last: Oid, name: Oid)
    requires Run(root, run, last) && Under(root, name) && Less(last, name)
    ensures Run(root, run + [name], name)
  {
    var longer := run + [name];
    forall i | 0 <= i < |run| ensures Less(run[i], name) {
      if i < |run| - 1 { LessTransitive(run[i], last, name); }
    }
    if run != [] { LessTransitive(root, last, name); }
  }

  lemma {:induction false} AdvanceAllRuns(w: Walk, list: seq<Variable>, run: seq<Oid>) returns (run': seq<Oid>)
    requires Run(w.root, run, w.current) && |run| == w.count
    ensures var r := AdvanceAll(w, list).0;
            !r.failed ==> Run(w.root, run', r.current) && |run'| == r.count
    decreases |list|
  {
    run' := run;
    if list != [] {
      var (next, more) := Advance(w, list[0]);
      if more {
        RunGrows(w.root, run, w.current, list[0].name.value);
        run' := AdvanceAllRuns(next, list[1..], run + [list[0].name.value]);
      }
    }
  }

  lemma {:induction false} WalkRuns(w: Walk, agent: Agent, n: nat, run: seq<Oid>) returns (run': seq<Oid>)
    requires w.count <= INT_MAX && !w.failed && Run(w.root, run, w.current) && |run| == w.count
    ensures var r := WalkOn(w, agent, n);
            !r.failed ==> Run(w.root, run', r.current) && |run'| == r.count
    decreases INT_MAX - w.count
  {
    run' := run;
    var reply := agent(n, w.current);
    if reply.Variables? && reply.list != [] {
      run' := AdvanceAllRuns(w, reply.list, run);
      var (next, more) := Respond(w, reply);
      if more {
        run' := WalkRuns(next, agent, n + 1, run');
      }
    }
  }

  /** Against any agent at all, the count is -1 or the length of a strictly increasing run below the root. */
  lemma CountIsARun(root: Oid, agent: Agent) returns (run: seq<Oid>)
    ensures Count(root, agent) == -1 ||
            (Run(root, run, WalkOn(Begin(root), agent, 0).current) && |run| == Count(root, agent))
  {
    run := WalkRuns(Begin(root), agent, 0, []);
  }

  // ---- An agent that holds a set of OIDs ----

  /** `name` is the lexicographic successor of `current` in the agent's OIDs. */
  ghost predicate IsNext(oids: set<Oid>, current: Oid, name: Oid) {
    name in oids && Less(current, name) && forall o :: o in oids && Less(current, o) ==> o == name || Less(name, o)
  }

  ghost predicate NoneAfter(oids: set<Oid>, current: Oid) {
    forall o :: o in oids ==> !Less(current, o)
  }

  /**
   GETNEXT as section 4.2.2 of RFC 3416 and section 4.1.3 of RFC 1157 have it: the
   successor, or at the end endOfMibView under the requested name, or noSuchName from an SNMPv1 agent.
   */
  ghost predicate NextReply(oids: set<Oid>, v1: bool, current: Oid, reply: Reply) {
    match reply
    case NoSuchName => v1 && NoneAfter(oids, current)
    case Unusable => false
    case Variables(list) =>
      |list| == 1 && list[0].name.Some? &&
      if list[0].exceptional then !v1 && list[0].name.value == current && NoneAfter(oids, current)
      else IsNext(oids, current, list[0].name.value)
  }

  ghost predicate Serves(agent: Agent, oids: set<Oid>, v1: bool) {
    && (forall n, current :: NextReply(oids, v1, current, agent(n, current)))
    && (forall o :: o in oids ==> |o| <= MAX_OID_LEN)
  }

  /** The agent's OIDs of the subtree after `current`. */
  function Below(oids: set<Oid>, root: Oid, current: Oid): set<Oid> {
    set o | o in oids && Under(root, o) && Less(current, o)
  }

  /** The walk meets an OID past the subtree before the agent's OIDs run out. */
  ghost predicate Beyond(oids: set<Oid>, root: Oid) {
    exists o :: o in oids && !Under(root, o) && Less(root, o)
  }

  /** The subtree's entries can be counted in an int; at the very limit the walk must not end in endOfMibView. */
  ghost predicate Countable(oids: set<Oid>, root: Oid, v1: bool) {
    var total := |Below(oids, root, root)|;
    total < INT_MAX || (total == INT_MAX && (v1 || Beyond(oids, root)))
  }

  /** Stepping to the successor uses up exactly that entry. */
  lemma SuccessorUsesOne(oids: set<Oid>, root: Oid, current: Oid, name: Oid)
    requires Under(root, current) && IsNext(oids, current, name)
    ensures Below(oids, root, current) != {} ==> name in Below(oids, root, current)
    ensures name in Below(oids, root, current) ==> Below(oids, root, name) == Below(oids, root, current) - {name}
  {
    if o :| o in Below(oids, root, current) {
      SubtreeConvex(root, current, name, o);
    }
    if Under(root, name) {
      forall o | o in oids && Under(root, o)
        ensures o in Below(oids, root, name) <==> o in Below(oids, root, current) - {name}
      {
        LessTotal(name, o);
        if Less(name, o) { LessTransitive(current, name, o); }
      }
    }
  }

  /** Past the last entry of the subtree, the agent has an OID beyond it or nothing at all. */
  lemma EndOfSubtree(oids: set<Oid>, root: Oid, current: Oid)
    requires Under(root, current) && Below(oids, root, current) == {}
    ensures NoneAfter(oids, current) <==> !Beyond(oids, root)
  {
    if o :| o in oids && !Under(root, o) && Less(root, o) {
      BeyondIsAfterAll(root, current, o);
    }
    if o :| o in oids && Less(current, o) {
      assert o !in Below(oids, root, current);
      if root != current {
        PrefixIsLess(root, current);
        LessTransitive(root, current, o);
      }
    }
  }

  lemma {:induction false} PrefixIsLess(root: Oid, name: Oid)
    requires Under(root, name) && root != name
    ensures Less(root, name)
  {
    if root != [] {
      PrefixIsLess(root[1..], name[1..]);
    }
  }

  /** An OID after the root and outside its subtree comes after the whole subtree. */
  lemma {:induction false} BeyondIsAfterAll(root: Oid, inside: Oid, o: Oid)
    requires Under(root, inside) && !Under(root, o) && Less(root, o)
    ensures Less(inside, o)
  {
    assert root != [];
    assert inside[0] == root[0];
    if root[0] == o[0] {
      assert !Under(root[1..], o[1..]);
      BeyondIsAfterAll(root[1..], inside[1..], o[1..]);
    }
  }

  lemma {:induction false} WalkCounts(w: Walk, agent: Agent, n: nat, oids: set<Oid>, v1: bool)
    requires Serves(agent, oids, v1) && !w.failed && w.count <= INT_MAX
    requires Under(w.root, w.current) && |w.current| <= MAX_OID_LEN
    ensures var r, total := WalkOn(w, agent, n), w.count + |Below(oids, w.root, w.current)|;
            if total < INT_MAX || (total == INT_MAX && (v1 || Beyond(oids, w.root)))
            then !r.failed && r.count == total else r.failed
    decreases INT_MAX - w.count
  {
    var reply := agent(n, w.current);
    var left := Below(oids, w.root, w.current);
    assert NextReply(oids, v1, w.current, reply);
    if reply.Variables? && !reply.list[0].exceptional {
      var name := reply.list[0].name.value;
      assert reply.list[1..] == [];
      SuccessorUsesOne(oids, w.root, w.current, name);
      if name in left {
        if w.count < INT_MAX {
          var next := w.(count := w.count + 1, current := name);
          assert Advance(w, reply.list[0]) == (next, true) && AdvanceAll(next, reply.list[1..]) == (next, true);
          assert Respond(w, reply) == (next, true);
          WalkCounts(next, agent, n + 1, oids, v1);
        }
        assert |left| == |left - {name}| + 1;
      } else {
        EndOfSubtree(oids, w.root, w.current);
      }
    } else {
      assert left == {};
      EndOfSubtree(oids, w.root, w.current);
    }
  }

  /**
   Against an agent that holds a finite set of OIDs the count is the number of OIDs
   strictly below the root, exactly when that number is countable; otherwise it is -1.
   */
  lemma CountIsExact(root: Oid, agent: Agent, oids: set<Oid>, v1: bool)
    requires Serves(agent, oids, v1) && |root| <= MAX_OID_LEN
    ensures Count(root, agent) ==
            if Countable(oids, root, v1) then |set o | o in oids && Under(root, o) && o != root| else -1
  {
    WalkCounts(Begin(root), agent, 0, oids, v1);
    assert Below(oids, root, root) == set o | o in oids && Under(root, o) && o != root by {
      forall o | o in oids && Under(root, o) ensures Less(root, o) <==> o != root {
        LessTotal(root, o);
        if o != root { PrefixIsLess(root, o); }
      }
    }
  }

  // ---- A table at the limit ----

  lemma {:induction false} NextExists(oids: set<Oid>, current: Oid) returns (name: Oid)
    requires !NoneAfter(oids, current)
    ensures IsNext(oids, current, name)
    decreases |oids|
  {
    var o :| o in oids && Less(current, o);
    name := o;
    var rest := oids - {o};
    if !NoneAfter(rest, current) {
      var next := NextExists(rest, current);
      LessTotal(o, next);
      if Less(next, o) { name := next; }
      forall x | x in oids && Less(current, x) ensures x == name || Less(name, x) {
        if x != o && x != next && name == o { LessTransitive(o, next, x); }
      }
    }
  }

  ghost function NextOf(oids: set<Oid>, current: Oid): (name: Oid)
    requires !NoneAfter(oids, current)
    ensures IsNext(oids, current, name)
  {
    assert exists name :: IsNext(oids, current, name) by {
      var next := NextExists(oids, current);
    }
    var name :| IsNext(oids, current, name);
    name
  }

  ghost function ReplyOf(oids: set<Oid>, v1: bool, current: Oid): Reply {
    if !NoneAfter(oids, current) then Variables([Variable(Some(NextOf(oids, current)), false)])
    else if v1 then NoSuchName
    else Variables([Variable(Some(current), true)])
  }

  /** The agent that holds a given set of OIDs. */
  ghost function AgentOf(oids: set<Oid>, v1: bool): Agent {
    (n: nat, current: Oid) => ReplyOf(oids, v1, current)
  }

  lemma AgentServes(oids: set<Oid>, v1: bool)
    requires forall o | o in oids :: |o| <= MAX_OID_LEN
    ensures Serves(AgentOf(oids, v1), oids, v1)
  {
    var agent := AgentOf(oids, v1);
    forall n: nat, current: Oid ensures NextReply(oids, v1, current, agent(n, current)) {
      assert agent(n, current) == ReplyOf(oids, v1, current);
    }
  }

  /** A table of n entries below a root. */
  function Entries(root: Oid, n: nat): set<Oid> {
    if n == 0 then {} else Entries(root, n - 1) + {root + [n - 1]}
  }

  lemma {:induction false} EntriesAre(root: Oid, n: nat)
    ensures |Entries(root, n)| == n
    ensures forall o | o in Entries(root, n) :: Under(root, o) && |o| == |root| + 1 && o[|root|] < n
  {
    if n > 0 { EntriesAre(root, n - 1); }
  }

  /**
   A table of 2^31 - 1 entries, with nothing after it, whose agent ends the walk with endOfMibView, is counted
   as -1.
   */
  lemma FullTableFails(root: Oid, n: nat)
    requires |root| < MAX_OID_LEN && n == INT_MAX
    ensures var oids := Entries(root, n);
            && Serves(AgentOf(oids, false), oids, false)
            && |set o | o in oids && Under(root, o) && o != root| == INT_MAX
            && Count(root, AgentOf(oids, false)) == -1
  {
    var oids := Entries(root, n);
    EntriesAre(root, n);
    AgentServes(oids, false);
    CountIsExact(root, AgentOf(oids, false), oids, false);
    assert (set o | o in oids && Under(root, o) && o != root) == oids;
    assert Below(oids, root, root) == oids by {
      forall o | o in oids ensures Less(root, o) { PrefixIsLess(root, o); }
    }
  }
}
