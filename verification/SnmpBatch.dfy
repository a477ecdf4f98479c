/**
 Collecting a device's items: SNMP items are queued and sent in batches over a
 session that is reopened whenever an item's credentials differ from the session's.
 Sessions, agents, script output and the text post-processing of a result
 (classification, output regex, spike kill) are parameters.
 */
module SnmpBatch {
  import opened SnmpMulti

  /** snmp_profile_t */
  datatype Profile = Profile(
    community: string, version: int, username: string, password: string,
    authProtocol: string, privPassphrase: string, privProtocol: string,
    context: string, engineId: string, port: int, timeout: int)

  datatype Item = Item(snmp: bool, hostname: string, oid: Oid, profile: Profile)

  /** What a session was opened with. */
  datatype Conn = Conn(hostname: string, profile: Profile)

  /** A batch as it was sent: the session, if one was open, and the positions asked for. */
  datatype Sent = Sent(session: Option<Conn>, positions: seq<nat>)

  /**
   What the collector sees of the outside: `ask` is the outcome of the n-th batch, its cells and
   whether it ends the polling of the host; `opens` decides the n-th session open; `finish` turns
   an item's cell into its stored text; `script` is what a non-SNMP item stores.
   */
  datatype Env = Env(
    ask: (nat, Option<Conn>, seq<Oid>) -> (seq<Cell>, bool),
    opens: nat -> bool, finish: (Item, Cell) -> string, script: nat -> string)

  /** Every batch has a cell for every OID. */
  ghost predicate Sized(env: Env) {
    forall n, session, oids :: |env.ask(n, session, oids).0| == |oids|
  }

  /** snmp_item_changed */
  predicate Changed(key: Profile, p: Profile) {
    || key.port != p.port
    || key.version != p.version
    || (p.version < 3 && key.community != p.community)
    || (p.version > 2 &&
        (|| key.username != p.username || key.password != p.password
         || key.authProtocol != p.authProtocol || key.privPassphrase != p.privPassphrase
         || key.privProtocol != p.privProtocol || key.context != p.context || key.engineId != p.engineId))
  }

  function ConnOf(item: Item): Conn {
    Conn(item.hostname, item.profile)
  }

  /** The session an item's predecessors and the item itself leave open, when every open succeeds. */
  function SessionAfter(items: seq<Item>, i: nat): (r: Option<Conn>)
    requires i <= |items|
    ensures i > 0 && items[i - 1].snmp ==> r.Some? && !Changed(r.value.profile, items[i - 1].profile)
  {
    if i == 0 then None
    else
      var before := SessionAfter(items, i - 1);
      if !items[i - 1].snmp then before
      else if before == None || Changed(before.value.profile, items[i - 1].profile) then Some(ConnOf(items[i - 1]))
      else before
  }

  /** The SNMP items among the first i, in order. */
  function SnmpPositions(items: seq<Item>, i: nat): seq<nat>
    requires i <= |items|
  {
    if i == 0 then []
    else SnmpPositions(items, i - 1) + (if items[i - 1].snmp then [i - 1] else [])
  }

  /** Positions of SNMP items, in order. */
  predicate Listed(items: seq<Item>, positions: seq<nat>) {
    && (forall k | 0 <= k < |positions| :: positions[k] < |items| && items[positions[k]].snmp)
    && (forall k, l | 0 <= k < l < |positions| :: positions[k] < positions[l])
  }

  lemma {:induction false} PositionsListed(items: seq<Item>, i: nat)
    requires i <= |items|
    ensures Listed(items, SnmpPositions(items, i))
    ensures forall k | 0 <= k < |SnmpPositions(items, i)| :: SnmpPositions(items, i)[k] < i
  {
    if i > 0 { PositionsListed(items, i - 1); }
  }

  function Flat(sent: seq<Sent>): seq<nat> {
    if sent == [] then [] else Flat(sent[..|sent| - 1]) + sent[|sent| - 1].positions
  }

  lemma FlatAppend(sent: seq<Sent>, b: Sent)
    ensures Flat(sent + [b]) == Flat(sent) + b.positions
  {
    assert (sent + [b])[..|sent|] == sent;
  }

  function Oids(items: seq<Item>, positions: seq<nat>): (r: seq<Oid>)
    requires Listed(items, positions)
    ensures |r| == |positions|
  {
    seq(|positions|, k requires 0 <= k < |positions| => items[positions[k]].oid)
  }

  // ---- The collector ----

  /** Every listed item may travel over the session: an open session was opened with an equal key. */
  predicate SameKey(items: seq<Item>, session: Option<Conn>, positions: seq<nat>)
    requires Listed(items, positions)
  {
    session.Some? ==> forall k | 0 <= k < |positions| :: !Changed(session.value.profile, items[positions[k]].profile)
  }

  /** A batch of at most `maxOids` items, none empty, sent with an equal key. */
  predicate GoodBatch(items: seq<Item>, maxOids: nat, b: Sent) {
    Listed(items, b.positions) && 1 <= |b.positions| <= maxOids && SameKey(items, b.session, b.positions)
  }

  predicate AllGood(items: seq<Item>, maxOids: nat, sent: seq<Sent>) {
    forall n | 0 <= n < |sent| :: GoodBatch(items, maxOids, sent[n])
  }

  /** host, batch and item results as collect_poll_items works on them; `openCount` and `sent` record what went out. */
  datatype Batch = Batch(
    session: Option<Conn>, initialized: bool, key: Profile, queue: seq<nat>,
    ignoreHost: bool, openCount: nat, sent: seq<Sent>, results: seq<string>)

  /** store_snmp_results: item queue[k] stores the text made from cell k. */
  function Stored(items: seq<Item>, env: Env, ignoreHost: bool, results: seq<string>, queue: seq<nat>,
                  cells: seq<Cell>): (r: seq<string>)
    requires |results| == |items| && (forall k | 0 <= k < |queue| :: queue[k] < |items|) && |cells| == |queue|
    ensures |r| == |results|
  {
    if queue == [] then results
    else
      var n := |queue| - 1;
      var earlier := Stored(items, env, ignoreHost, results, queue[..n], cells[..n]);
      earlier[queue[n] := StoredText(env, items[queue[n]], ignoreHost, cells[n])]
  }

  /** A host to be ignored stores every item as undefined. */
  function StoredText(env: Env, item: Item, ignoreHost: bool, cell: Cell): string {
    env.finish(item, if ignoreHost then Undefined else cell)
  }

  lemma {:induction false} StoredElsewhere(items: seq<Item>, env: Env, ignoreHost: bool, results: seq<string>,
                                           queue: seq<nat>, cells: seq<Cell>, p: nat)
    requires |results| == |items| && (forall k | 0 <= k < |queue| :: queue[k] < |items|) && |cells| == |queue|
    requires p < |items| && p !in queue
    ensures Stored(items, env, ignoreHost, results, queue, cells)[p] == results[p]
  {
    if queue != [] {
      var n := |queue| - 1;
      assert p !in queue[..n] && queue[n] != p;
      StoredElsewhere(items, env, ignoreHost, results, queue[..n], cells[..n], p);
    }
  }

  lemma {:induction false} StoredAt(items: seq<Item>, env: Env, ignoreHost: bool, results: seq<string>,
                                    queue: seq<nat>, cells: seq<Cell>, k: nat)
    requires |results| == |items| && Listed(items, queue) && |cells| == |queue| && k < |queue|
    ensures Stored(items, env, ignoreHost, results, queue, cells)[queue[k]] ==
            StoredText(env, items[queue[k]], ignoreHost, cells[k])
    decreases |queue|
  {
    var n := |queue| - 1;
    if k < n {
      StoredAt(items, env, ignoreHost, results, queue[..n], cells[..n], k);
      assert queue[k] < queue[n];
    }
  }

  /** A flush whose outcome is known. */
  function Flushed(items: seq<Item>, env: Env, b: Batch, cells: seq<Cell>, failed: bool): Batch
    requires Listed(items, b.queue) && |b.results| == |items| && |cells| == |b.queue|
  {
    var ignoreHost := b.ignoreHost || failed;
    b.(ignoreHost := ignoreHost, queue := [], sent := b.sent + [Sent(b.session, b.queue)],
       results := Stored(items, env, ignoreHost, b.results, b.queue, cells))
  }

  /** flush_snmp_batch */
  function Flush(items: seq<Item>, env: Env, b: Batch): Batch
    requires Sized(env) && Listed(items, b.queue) && |b.results| == |items|
  {
    if b.queue == [] then b
    else
      var r := env.ask(|b.sent|, b.session, Oids(items, b.queue));
      Flushed(items, env, b, r.0, r.1)
  }

  function Opened(env: Env, b: Batch, item: Item): Batch {
    b.(session := if env.opens(b.openCount) then Some(ConnOf(item)) else None,
       key := item.profile, initialized := true, openCount := b.openCount + 1)
  }

  function First(env: Env, b: Batch, item: Item): Batch {
    if b.initialized then b else Opened(env, b, item)
  }

  /** The head of poll_snmp_item: open the first session, then replace a session whose key differs. */
  function Prepared(items: seq<Item>, env: Env, b: Batch, item: Item): Batch
    requires Sized(env) && Listed(items, b.queue) && |b.results| == |items|
  {
    var first := First(env, b, item);
    if first.session == None then first.(ignoreHost := true)
    else if Changed(first.key, item.profile) then Opened(env, Flush(items, env, first), item)
    else first
  }

  function Enqueued(b: Batch, position: nat): Batch {
    b.(queue := b.queue + [position])
  }

  /** A full batch goes out before the next item is queued. */
  function Roomed(items: seq<Item>, env: Env, maxOids: nat, b: Batch): Batch
    requires Sized(env) && Listed(items, b.queue) && |b.results| == |items|
  {
    if |b.queue| >= maxOids then Flush(items, env, b) else b
  }

  ghost predicate Valid(items: seq<Item>, maxOids: nat, b: Batch) {
    && maxOids >= 1 && |b.results| == |items|
    && Listed(items, b.queue) && |b.queue| <= maxOids && SameKey(items, b.session, b.queue)
    && (b.session.Some? ==> b.session.value.profile == b.key)
    && (!b.initialized ==> b.queue == [] && b.session == None)
    && AllGood(items, maxOids, b.sent)
  }

  lemma PreparedListed(items: seq<Item>, env: Env, b: Batch, item: Item)
    requires Sized(env) && Listed(items, b.queue) && |b.results| == |items|
    ensures Listed(items, Prepared(items, env, b, item).queue) && |Prepared(items, env, b, item).results| == |items|
  {
  }

  /** poll_snmp_item; without a session the item is not queued. */
  function Polled(items: seq<Item>, env: Env, maxOids: nat, b: Batch, position: nat): Batch
    requires Sized(env) && position < |items| && Listed(items, b.queue) && |b.results| == |items|
  {
    var ready := Prepared(items, env, b, items[position]);
    PreparedListed(items, env, b, items[position]);
    if First(env, b, items[position]).session == None then ready
    else Enqueued(Roomed(items, env, maxOids, ready), position)
  }

  // ---- What flushing and polling keep ----

  /** The first i items have been taken: each SNMP item among them is queued or in exactly one batch, in order. */
  ghost predicate Covers(items: seq<Item>, b: Batch, i: nat)
    requires i <= |items|
  {
    Flat(b.sent) + b.queue == SnmpPositions(items, i)
  }

  lemma FlushedKeeps(items: seq<Item>, env: Env, maxOids: nat, b: Batch, i: nat, cells: seq<Cell>, failed: bool)
    requires Valid(items, maxOids, b) && i <= |items| && Covers(items, b, i) && b.queue != [] && |cells| == |b.queue|
    ensures Valid(items, maxOids, Flushed(items, env, b, cells, failed))
    ensures Covers(items, Flushed(items, env, b, cells, failed), i)
  {
    var batch := Sent(b.session, b.queue);
    assert AllGood(items, maxOids, b.sent + [batch]) by { assert GoodBatch(items, maxOids, batch); }
    FlatAppend(b.sent, batch);
    assert Flat(b.sent) + b.queue + [] == Flat(b.sent) + b.queue;
  }

  lemma FlushKeeps(items: seq<Item>, env: Env, maxOids: nat, b: Batch, i: nat)
    requires Sized(env) && Valid(items, maxOids, b) && i <= |items| && Covers(items, b, i)
    ensures Valid(items, maxOids, Flush(items, env, b)) && Covers(items, Flush(items, env, b), i)
    ensures Flush(items, env, b).queue == []
  {
    if b.queue != [] {
      var r := env.ask(|b.sent|, b.session, Oids(items, b.queue));
      FlushedKeeps(items, env, maxOids, b, i, r.0, r.1);
    }
  }

  /** Opening a session for an item when nothing is queued. */
  lemma OpenedKeeps(items: seq<Item>, env: Env, maxOids: nat, b: Batch, i: nat, item: Item)
    requires Valid(items, maxOids, b) && i <= |items| && Covers(items, b, i) && b.queue == []
    ensures Valid(items, maxOids, Opened(env, b, item)) && Covers(items, Opened(env, b, item), i)
  {
  }

  lemma FirstKeeps(items: seq<Item>, env: Env, maxOids: nat, b: Batch, i: nat, item: Item)
    requires Valid(items, maxOids, b) && i <= |items| && Covers(items, b, i)
    ensures Valid(items, maxOids, First(env, b, item))
    ensures Covers(items, First(env, b, item), i) && First(env, b, item).initialized
  {
    if !b.initialized { OpenedKeeps(items, env, maxOids, b, i, item); }
  }

  lemma PreparedKeeps(items: seq<Item>, env: Env, maxOids: nat, b: Batch, position: nat)
    requires Sized(env) && Valid(items, maxOids, b) && position < |items| && Covers(items, b, position)
    ensures var ready := Prepared(items, env, b, items[position]);
            && Valid(items, maxOids, ready) && Covers(items, ready, position) && ready.initialized
            && (ready.session.Some? ==> !Changed(ready.session.value.profile, items[position].profile))
  {
    var item := items[position];
    var first := First(env, b, item);
    FirstKeeps(items, env, maxOids, b, position, item);
    if first.session.Some? && Changed(first.key, item.profile) {
      FlushKeeps(items, env, maxOids, first, position);
      OpenedKeeps(items, env, maxOids, Flush(items, env, first), position, item);
    }
  }

  /** There is room for one more item of the same key. */
  ghost predicate Ready(items: seq<Item>, maxOids: nat, b: Batch, position: nat)
    requires position < |items|
  {
    && Valid(items, maxOids, b) && Covers(items, b, position) && b.initialized && |b.queue| < maxOids
    && (b.session.Some? ==> !Changed(b.session.value.profile, items[position].profile))
  }

  lemma RoomedKeeps(items: seq<Item>, env: Env, maxOids: nat, b: Batch, position: nat)
    requires Sized(env) && Valid(items, maxOids, b) && position < |items| && Covers(items, b, position)
    ensures var ready := Prepared(items, env, b, items[position]);
            && Listed(items, ready.queue) && |ready.results| == |items|
            && Ready(items, maxOids, Roomed(items, env, maxOids, ready), position)
  {
    PreparedKeeps(items, env, maxOids, b, position);
    FlushKeeps(items, env, maxOids, Prepared(items, env, b, items[position]), position);
  }

  /** The queue ends a list of positions that are all below the next one. */
  lemma QueueGrows(items: seq<Item>, done: seq<nat>, queue: seq<nat>, position: nat)
    requires position < |items| && items[position].snmp
    requires done + queue == SnmpPositions(items, position) && Listed(items, queue)
    ensures Listed(items, queue + [position]) && done + (queue + [position]) == SnmpPositions(items, position + 1)
  {
    PositionsListed(items, position);
    assert forall k | 0 <= k < |queue| :: queue[k] == (done + queue)[|done| + k];
    assert done + (queue + [position]) == (done + queue) + [position];
  }

  lemma EnqueueKeeps(items: seq<Item>, maxOids: nat, b: Batch, position: nat)
    requires position < |items| && items[position].snmp && Ready(items, maxOids, b, position)
    ensures Valid(items, maxOids, Enqueued(b, position)) && Covers(items, Enqueued(b, position), position + 1)
  {
    QueueGrows(items, Flat(b.sent), b.queue, position);
  }

  lemma PolledKeeps(items: seq<Item>, env: Env, maxOids: nat, b: Batch, position: nat)
    requires Sized(env) && Valid(items, maxOids, b) && position < |items|
    requires items[position].snmp && Covers(items, b, position)
    ensures var b' := Polled(items, env, maxOids, b, position);
            && Valid(items, maxOids, b')
            && (Covers(items, b', position + 1) || (b'.ignoreHost && Covers(items, b', position)))
            && (First(env, b, items[position]).session.Some? ==> Covers(items, b', position + 1))
  {
    var item := items[position];
    if First(env, b, item).session == None {
      PreparedKeeps(items, env, maxOids, b, position);
    } else {
      RoomedKeeps(items, env, maxOids, b, position);
      EnqueueKeeps(items, maxOids, Roomed(items, env, maxOids, Prepared(items, env, b, item)), position);
    }
  }

  // ---- Nothing fails on the way ----

  /** Every open succeeds and every batch gives each OID what its session answers for it. */
  ghost predicate CalmEnv(env: Env, truth: (Conn, Oid) -> Varbind) {
    && Sized(env)
    && (forall n :: env.opens(n))
    && (forall n, c, oids :: !env.ask(n, Some(c), oids).1)
    && (forall n, c, oids, k | 0 <= k < |oids| :: env.ask(n, Some(c), oids).0[k] == CellOf(truth(c, oids[k])))
  }

  /** What item p stores when it is asked for, by itself, over the session then open. */
  function OverSession(items: seq<Item>, finish: (Item, Cell) -> string, truth: (Conn, Oid) -> Varbind, p: nat): string
    requires p < |items| && items[p].snmp
  {
    finish(items[p], CellOf(truth(SessionAfter(items, p + 1).value, items[p].oid)))
  }

  /** The listed items hold what asking for each by itself would have stored. */
  ghost predicate StoredOver(items: seq<Item>, env: Env, truth: (Conn, Oid) -> Varbind, positions: seq<nat>,
                             results: seq<string>) {
    |results| == |items| &&
    forall k | 0 <= k < |positions| ::
      positions[k] < |items| && items[positions[k]].snmp &&
      results[positions[k]] == OverSession(items, env.finish, truth, positions[k])
  }

  /** The queued items are to be asked for over the open session. */
  predicate QueueOver(items: seq<Item>, b: Batch) {
    forall k | 0 <= k < |b.queue| :: b.queue[k] < |items| && SessionAfter(items, b.queue[k] + 1) == b.session
  }

  /**
   In a calm world the open session is the one that one-at-a-time polling of the first i items
   would have open, the queued items belong to it, and the items sent for hold their results.
   */
  ghost predicate CalmSoFar(items: seq<Item>, env: Env, truth: (Conn, Oid) -> Varbind, b: Batch, i: nat)
    requires i <= |items|
  {
    && !b.ignoreHost && b.initialized == b.session.Some?
    && b.session == SessionAfter(items, i) && QueueOver(items, b)
    && StoredOver(items, env, truth, Flat(b.sent), b.results)
  }

  /** The two halves of a strictly increasing list share nothing. */
  lemma Apart(a: seq<nat>, b: seq<nat>, whole: seq<nat>, k: nat)
    requires a + b == whole && (forall k, l | 0 <= k < l < |whole| :: whole[k] < whole[l]) && k < |a|
    ensures a[k] !in b
  {
    forall l | 0 <= l < |b| ensures a[k] != b[l] {
      assert whole[k] == a[k] && whole[|a| + l] == b[l];
    }
  }

  /** In a calm world cell k of a batch makes its item store what asking for it by itself stores. */
  lemma CalmCell(items: seq<Item>, env: Env, truth: (Conn, Oid) -> Varbind, b: Batch, k: nat)
    requires CalmEnv(env, truth) && Listed(items, b.queue)
    requires |b.results| == |items| && QueueOver(items, b) && k < |b.queue|
    ensures var r := env.ask(|b.sent|, b.session, Oids(items, b.queue));
            && !r.1
            && Stored(items, env, false, b.results, b.queue, r.0)[b.queue[k]] ==
               OverSession(items, env.finish, truth, b.queue[k])
  {
    var p, oids := b.queue[k], Oids(items, b.queue);
    var r := env.ask(|b.sent|, b.session, oids);
    assert SessionAfter(items, p + 1) == b.session && b.session.Some? && oids[k] == items[p].oid;
    StoredAt(items, env, false, b.results, b.queue, r.0, k);
  }

  /** A flush leaves alone what was stored for the items of earlier batches. */
  lemma FlushSpares(items: seq<Item>, env: Env, b: Batch, i: nat, cells: seq<Cell>, k: nat)
    requires i <= |items| == |b.results| && Listed(items, b.queue)
    requires Covers(items, b, i) && |cells| == |b.queue| && k < |Flat(b.sent)|
    ensures var p := Flat(b.sent)[k];
            p < |items| && Stored(items, env, false, b.results, b.queue, cells)[p] == b.results[p]
  {
    PositionsListed(items, i);
    var done, whole := Flat(b.sent), SnmpPositions(items, i);
    assert done[k] == whole[k];
    Apart(done, b.queue, whole, k);
    StoredElsewhere(items, env, false, b.results, b.queue, cells, done[k]);
  }

  lemma StoredBoth(items: seq<Item>, env: Env, truth: (Conn, Oid) -> Varbind, a: seq<nat>, b: seq<nat>,
                   results: seq<string>)
    requires StoredOver(items, env, truth, a, results) && StoredOver(items, env, truth, b, results)
    ensures StoredOver(items, env, truth, a + b, results)
  {
  }

  /** The items of a flushed batch hold their results. */
  lemma FlushStores(items: seq<Item>, env: Env, truth: (Conn, Oid) -> Varbind, b: Batch, cells: seq<Cell>)
    requires CalmEnv(env, truth) && Listed(items, b.queue) && |b.results| == |items| && QueueOver(items, b)
    requires cells == env.ask(|b.sent|, b.session, Oids(items, b.queue)).0
    ensures StoredOver(items, env, truth, b.queue, Stored(items, env, false, b.results, b.queue, cells))
  {
    forall k | 0 <= k < |b.queue|
      ensures Stored(items, env, false, b.results, b.queue, cells)[b.queue[k]] ==
              OverSession(items, env.finish, truth, b.queue[k])
    {
      CalmCell(items, env, truth, b, k);
    }
  }

  /** The items of earlier batches still hold theirs. */
  lemma FlushKeepsStored(items: seq<Item>, env: Env, truth: (Conn, Oid) -> Varbind, b: Batch, i: nat, cells: seq<Cell>)
    requires i <= |items| && Listed(items, b.queue) && Covers(items, b, i) && |cells| == |b.queue|
    requires StoredOver(items, env, truth, Flat(b.sent), b.results)
    ensures StoredOver(items, env, truth, Flat(b.sent), Stored(items, env, false, b.results, b.queue, cells))
  {
    forall k | 0 <= k < |Flat(b.sent)|
      ensures Stored(items, env, false, b.results, b.queue, cells)[Flat(b.sent)[k]] == b.results[Flat(b.sent)[k]]
    {
      FlushSpares(items, env, b, i, cells, k);
    }
  }

  lemma FlushKeepsCalm(items: seq<Item>, env: Env, truth: (Conn, Oid) -> Varbind, maxOids: nat, b: Batch, i: nat,
                       j: nat)
    requires Valid(items, maxOids, b) && i <= |items| && j <= |items| && Covers(items, b, i)
    requires CalmEnv(env, truth) && CalmSoFar(items, env, truth, b, j)
    ensures CalmSoFar(items, env, truth, Flush(items, env, b), j)
  {
    if b.queue != [] {
      var r := env.ask(|b.sent|, b.session, Oids(items, b.queue));
      CalmCell(items, env, truth, b, 0);
      FlatAppend(b.sent, Sent(b.session, b.queue));
      var results := Stored(items, env, false, b.results, b.queue, r.0);
      assert StoredOver(items, env, truth, Flat(b.sent) + b.queue, results) by {
        FlushStores(items, env, truth, b, r.0);
        FlushKeepsStored(items, env, truth, b, i, r.0);
        StoredBoth(items, env, truth, Flat(b.sent), b.queue, results);
      }
    }
  }

  lemma EnqueueKeepsCalm(items: seq<Item>, env: Env, truth: (Conn, Oid) -> Varbind, b: Batch, position: nat)
    requires position < |items| && CalmSoFar(items, env, truth, b, position + 1)
    ensures CalmSoFar(items, env, truth, Enqueued(b, position), position + 1)
  {
  }

  lemma FirstIsCalm(items: seq<Item>, env: Env, truth: (Conn, Oid) -> Varbind, maxOids: nat, b: Batch, position: nat)
    requires Valid(items, maxOids, b) && position < |items| && items[position].snmp
    requires CalmEnv(env, truth) && CalmSoFar(items, env, truth, b, position)
    ensures var first := First(env, b, items[position]);
            && first.session.Some? && first.sent == b.sent && first.queue == b.queue && first.results == b.results
            && (b.initialized ==> first == b)
            && (!b.initialized ==>
                CalmSoFar(items, env, truth, first, position + 1) && !Changed(first.key, items[position].profile))
  {
    assert env.opens(b.openCount);
  }

  lemma PreparedIsCalm(items: seq<Item>, env: Env, truth: (Conn, Oid) -> Varbind, maxOids: nat, b: Batch, position: nat)
    requires Valid(items, maxOids, b) && position < |items| && items[position].snmp && Covers(items, b, position)
    requires CalmEnv(env, truth) && CalmSoFar(items, env, truth, b, position)
    ensures CalmSoFar(items, env, truth, Prepared(items, env, b, items[position]), position + 1)
  {
    var item := items[position];
    FirstIsCalm(items, env, truth, maxOids, b, position);
    if b.initialized && Changed(b.key, item.profile) {
      FlushKeepsCalm(items, env, truth, maxOids, b, position, position);
      FlushKeeps(items, env, maxOids, b, position);
      assert env.opens(Flush(items, env, b).openCount);
    }
  }

  /** Making room for an item keeps a calm collection calm. */
  lemma RoomIsCalm(items: seq<Item>, env: Env, truth: (Conn, Oid) -> Varbind, maxOids: nat, b: Batch, position: nat)
    requires Valid(items, maxOids, b) && position < |items| && items[position].snmp && Covers(items, b, position)
    requires CalmEnv(env, truth) && CalmSoFar(items, env, truth, b, position)
    ensures var ready := Prepared(items, env, b, items[position]);
            && Listed(items, ready.queue) && |ready.results| == |items|
            && CalmSoFar(items, env, truth, Roomed(items, env, maxOids, ready), position + 1)
  {
    PreparedIsCalm(items, env, truth, maxOids, b, position);
    PreparedKeeps(items, env, maxOids, b, position);
    FlushKeepsCalm(items, env, truth, maxOids, Prepared(items, env, b, items[position]), position, position + 1);
  }

  lemma PolledKeepsCalm(items: seq<Item>, env: Env, truth: (Conn, Oid) -> Varbind, maxOids: nat, b: Batch,
                        position: nat)
    requires Valid(items, maxOids, b) && position < |items| && items[position].snmp && Covers(items, b, position)
    requires CalmEnv(env, truth) && CalmSoFar(items, env, truth, b, position)
    ensures var b' := Polled(items, env, maxOids, b, position);
            CalmSoFar(items, env, truth, b', position + 1) && Covers(items, b', position + 1)
  {
    FirstIsCalm(items, env, truth, maxOids, b, position);
    RoomIsCalm(items, env, truth, maxOids, b, position);
    EnqueueKeepsCalm(items, env, truth, Roomed(items, env, maxOids, Prepared(items, env, b, items[position])),
                     position);
    PolledKeeps(items, env, maxOids, b, position);
  }

  // ---- The whole collection ----

  const NO_PROFILE := Profile("", 0, "", "", "", "", "", "", "", 0, 0)

  /** load_poll_items leaves every result undefined and raises a batch limit below one to one. */
  function Loaded(items: seq<Item>): (b: Batch)
    ensures |b.results| == |items|
  {
    Batch(None, false, NO_PROFILE, [], false, 0, [], seq(|items|, _ => "U"))
  }

  /** A script item stores its own output. */
  lemma ScriptKeeps(items: seq<Item>, env: Env, maxOids: nat, b: Batch, i: nat)
    requires Valid(items, maxOids, b) && i < |items| && !items[i].snmp && Covers(items, b, i)
    ensures var b' := b.(results := b.results[i := env.script(i)]);
            Valid(items, maxOids, b') && Covers(items, b', i + 1)
  {
  }

  lemma ScriptKeepsCalm(items: seq<Item>, env: Env, truth: (Conn, Oid) -> Varbind, b: Batch, i: nat)
    requires i < |items| == |b.results| && !items[i].snmp && CalmSoFar(items, env, truth, b, i)
    ensures CalmSoFar(items, env, truth, b.(results := b.results[i := env.script(i)]), i + 1)
  {
  }

  /** One turn of collect_poll_items. */
  function Taken(items: seq<Item>, env: Env, maxOids: nat, b: Batch, i: nat): Batch
    requires Sized(env) && i < |items| && Listed(items, b.queue) && |b.results| == |items|
  {
    if items[i].snmp then Polled(items, env, maxOids, b, i) else b.(results := b.results[i := env.script(i)])
  }

  /** The script items among the first i hold their output. */
  ghost predicate ScriptsStored(items: seq<Item>, env: Env, results: seq<string>, i: nat) {
    |results| == |items| && forall p | 0 <= p < i && p < |items| && !items[p].snmp :: results[p] == env.script(p)
  }

  lemma FlushKeepsScripts(items: seq<Item>, env: Env, b: Batch, i: nat)
    requires Sized(env) && Listed(items, b.queue) && ScriptsStored(items, env, b.results, i)
    ensures ScriptsStored(items, env, Flush(items, env, b).results, i)
  {
    if b.queue != [] {
      var r := env.ask(|b.sent|, b.session, Oids(items, b.queue));
      forall p | 0 <= p < i && p < |items| && !items[p].snmp ensures Flush(items, env, b).results[p] == env.script(p) {
        StoredElsewhere(items, env, b.ignoreHost || r.1, b.results, b.queue, r.0, p);
      }
    }
  }

  lemma PreparedKeepsScripts(items: seq<Item>, env: Env, b: Batch, i: nat, item: Item)
    requires Sized(env) && Listed(items, b.queue) && ScriptsStored(items, env, b.results, i)
    ensures ScriptsStored(items, env, Prepared(items, env, b, item).results, i)
  {
    FlushKeepsScripts(items, env, First(env, b, item), i);
  }

  lemma TakenKeepsScripts(items: seq<Item>, env: Env, maxOids: nat, b: Batch, i: nat)
    requires Sized(env) && i < |items| && Listed(items, b.queue) && ScriptsStored(items, env, b.results, i)
    ensures ScriptsStored(items, env, Taken(items, env, maxOids, b, i).results, i + 1)
  {
    if items[i].snmp {
      PreparedKeepsScripts(items, env, b, i, items[i]);
      PreparedListed(items, env, b, items[i]);
      FlushKeepsScripts(items, env, Prepared(items, env, b, items[i]), i);
    }
  }

  /** Where the loop stands after i items; the last one may have found no session. */
  ghost predicate Going(items: seq<Item>, env: Env, truth: (Conn, Oid) -> Varbind, maxOids: nat, b: Batch, i: nat) {
    && i <= |items| && Valid(items, maxOids, b) && ScriptsStored(items, env, b.results, i)
    && (Covers(items, b, i) || (i > 0 && b.ignoreHost && Covers(items, b, i - 1)))
    && (CalmEnv(env, truth) ==> Covers(items, b, i) && CalmSoFar(items, env, truth, b, i))
  }

  lemma TakenKeeps(items: seq<Item>, env: Env, truth: (Conn, Oid) -> Varbind, maxOids: nat, b: Batch, i: nat)
    requires Sized(env) && Going(items, env, truth, maxOids, b, i) && i < |items| && !b.ignoreHost
    ensures Going(items, env, truth, maxOids, Taken(items, env, maxOids, b, i), i + 1)
  {
    TakenKeepsScripts(items, env, maxOids, b, i);
    if items[i].snmp {
      PolledKeeps(items, env, maxOids, b, i);
      if CalmEnv(env, truth) { PolledKeepsCalm(items, env, truth, maxOids, b, i); }
    } else {
      ScriptKeeps(items, env, maxOids, b, i);
      if CalmEnv(env, truth) { ScriptKeepsCalm(items, env, truth, b, i); }
    }
  }

  /**
   The SNMP items taken are, in order, exactly the items of the batches sent, except that the
   last one taken may have found no session; every batch is non-empty, within the limit and
   sent over a session with an equal key.
   */
  ghost predicate EachInOneBatch(items: seq<Item>, maxOids: nat, b: Batch, i: nat) {
    && i <= |items| && |b.results| == |items| && b.queue == []
    && (Flat(b.sent) == SnmpPositions(items, i)
        || (i > 0 && b.ignoreHost && Flat(b.sent) == SnmpPositions(items, i - 1)))
    && (forall n | 0 <= n < |b.sent| :: GoodBatch(items, maxOids, b.sent[n]))
  }

  lemma FinalFlush(items: seq<Item>, env: Env, truth: (Conn, Oid) -> Varbind, maxOids: nat, b: Batch, i: nat)
    requires Sized(env) && Going(items, env, truth, maxOids, b, i) && (i == |items| || b.ignoreHost)
    ensures EachInOneBatch(items, maxOids, Flush(items, env, b), i)
    ensures ScriptsStored(items, env, Flush(items, env, b).results, i)
    ensures CalmEnv(env, truth) ==>
            i == |items| && StoredOver(items, env, truth, SnmpPositions(items, i), Flush(items, env, b).results)
  {
    FlushKeeps(items, env, maxOids, b, if Covers(items, b, i) then i else i - 1);
    FlushKeepsScripts(items, env, b, i);
    if CalmEnv(env, truth) { FlushKeepsCalm(items, env, truth, maxOids, b, i, i); }
  }

  /** Every SNMP item is among the positions. */
  lemma {:induction false} AllSent(items: seq<Item>, i: nat)
    requires i <= |items|
    ensures forall p | 0 <= p < i && items[p].snmp :: p in SnmpPositions(items, i)
  {
    if i > 0 { AllSent(items, i - 1); }
  }

  // ---- Sessions that reach agents ----

  /** The n-th batch finds memory for its request, usable OIDs and a network; the rest is as for the collector. */
  datatype World = World(
    pdu: nat -> bool, usable: (nat, Oid) -> bool, net: (nat, Conn) -> Network,
    opens: nat -> bool, finish: (Item, Cell) -> string, script: nat -> string)

  function AllPending(n: nat): (r: seq<Cell>)
    ensures |r| == n && forall i | 0 <= i < n :: r[i] == Pending
  {
    seq(n, _ => Pending)
  }

  /** The cells that snmp_get_multi leaves for the n-th batch, and whether it ends the polling of the host. */
  function Ask(world: World, n: nat, session: Option<Conn>, oids: seq<Oid>): (r: (seq<Cell>, bool))
    ensures |r.0| == |oids|
  {
    var usable := seq(|oids|, k requires 0 <= k < |oids| => world.usable(n, oids[k]));
    if session == None then (AllUndefined(|oids|), oids != [])
    else Collected(true, world.pdu(n), oids, AllPending(|oids|), usable, world.net(n, session.value))
  }

  function EnvOf(world: World): Env {
    Env((n: nat, session: Option<Conn>, oids: seq<Oid>) => Ask(world, n, session, oids), world.opens, world.finish,
        world.script)
  }

  /** Every open and every allocation succeeds and every session answers each OID by itself. */
  ghost predicate Calm(world: World, truth: (Conn, Oid) -> Varbind) {
    && (forall n :: world.opens(n))
    && (forall n :: world.pdu(n))
    && (forall n, o :: world.usable(n, o))
    && (forall n, c :: Faithful(world.net(n, c), o => truth(c, o)))
  }

  lemma {:induction false} PendingAreDefined(n: nat, k: nat)
    requires k <= n
    ensures Before(AllPending(n), k) == k
  {
    if k > 0 { PendingAreDefined(n, k - 1); }
  }

  /** In a calm world a batch gives every OID the agent's own answer for it. */
  lemma CalmAsk(world: World, truth: (Conn, Oid) -> Varbind, n: nat, session: Conn, oids: seq<Oid>)
    requires Calm(world, truth)
    ensures var r := Ask(world, n, Some(session), oids);
            !r.1 && forall k | 0 <= k < |oids| :: r.0[k] == CellOf(truth(session, oids[k]))
  {
    if oids != [] {
      var net, own := world.net(n, session), (o: Oid) => truth(session, o);
      var usable := seq(|oids|, k requires 0 <= k < |oids| => world.usable(n, oids[k]));
      var kept := DropUnusable(AllPending(|oids|), usable);
      assert kept == AllPending(|oids|);
      PendingAreDefined(|oids|, |oids|);
      assert Faithful(net, own);
      forall k | 0 <= k < |oids|
        ensures Retry(oids, kept, net, 0).status == Success
        ensures Retry(oids, kept, net, 0).cells[k] == CellOf(truth(session, oids[k]))
      {
        BatchAgreesWithAgent(oids, kept, net, 0, own, k);
      }
      BatchAgreesWithAgent(oids, kept, net, 0, own, 0);
    }
  }

  lemma CalmWorld(world: World, truth: (Conn, Oid) -> Varbind)
    requires Calm(world, truth)
    ensures CalmEnv(EnvOf(world), truth)
  {
    var env := EnvOf(world);
    forall n: nat, c: Conn, oids: seq<Oid>
      ensures !env.ask(n, Some(c), oids).1
      ensures forall k | 0 <= k < |oids| :: env.ask(n, Some(c), oids).0[k] == CellOf(truth(c, oids[k]))
    {
      CalmAsk(world, truth, n, c, oids);
    }
  }

  // ---- Polling an item over a connection of its own ----

  /** What polling item p alone, over a session opened for it, stores. */
  function Alone(items: seq<Item>, finish: (Item, Cell) -> string, truth: (Conn, Oid) -> Varbind, p: nat): string
    requires p < |items| && items[p].snmp
  {
    finish(items[p], CellOf(truth(ConnOf(items[p]), items[p].oid)))
  }

  /** What an agent says depends on the host and on the part of the profile that makes up the session key. */
  ghost predicate KeyDecides(truth: (Conn, Oid) -> Varbind) {
    forall c: Conn, d: Conn, o: Oid | c.hostname == d.hostname && !Changed(c.profile, d.profile) ::
      truth(c, o) == truth(d, o)
  }

  /** The item that opened the session over which item p is asked for. */
  function Opener(items: seq<Item>, p: nat): (q: nat)
    requires p < |items| && items[p].snmp
    ensures q <= p && items[q].snmp && SessionAfter(items, p + 1) == Some(ConnOf(items[q]))
  {
    if SessionAfter(items, p) == None || Changed(SessionAfter(items, p).value.profile, items[p].profile) then p
    else OpenerOf(items, p)
  }

  function OpenerOf(items: seq<Item>, i: nat): (q: nat)
    requires i <= |items| && SessionAfter(items, i).Some?
    ensures q < i && items[q].snmp && SessionAfter(items, i) == Some(ConnOf(items[q]))
  {
    var before := SessionAfter(items, i - 1);
    if items[i - 1].snmp && (before == None || Changed(before.value.profile, items[i - 1].profile)) then i - 1
    else OpenerOf(items, i - 1)
  }

  /** The item that opened the session has the same host name. */
  predicate OwnHost(items: seq<Item>, p: nat)
    requires p < |items| && items[p].snmp
  {
    items[Opener(items, p)].hostname == items[p].hostname
  }

  /** An item whose session was opened for its own host stores what polling it alone stores. */
  lemma OwnHostAgrees(items: seq<Item>, finish: (Item, Cell) -> string, truth: (Conn, Oid) -> Varbind, p: nat)
    requires p < |items| && items[p].snmp && KeyDecides(truth) && OwnHost(items, p)
    ensures OverSession(items, finish, truth, p) == Alone(items, finish, truth, p)
  {
    var session := SessionAfter(items, p + 1).value;
    assert session == ConnOf(items[Opener(items, p)]);
    assert truth(session, items[p].oid) == truth(ConnOf(items[p]), items[p].oid);
  }

  /** Agents that answer every OID with the name of the host they were asked at. */
  function HostTruth(): (Conn, Oid) -> Varbind {
    (c: Conn, o: Oid) => Value(c.hostname)
  }

  function HostReply(c: Conn, request: seq<Oid>): Reply {
    Answer(Values(seq(|request|, _ => Value(c.hostname))))
  }

  function HostWorld(): World {
    World(_ => true, (_, _) => true, (n: nat, c: Conn) => ((a: nat, request: seq<Oid>) => HostReply(c, request)),
          _ => true, (item: Item, cell: Cell) => if cell.Answered? then cell.text else "U", _ => "")
  }

  lemma HostWorldIsCalm()
    ensures Calm(HostWorld(), HostTruth()) && KeyDecides(HostTruth())
  {
    var world, truth := HostWorld(), HostTruth();
    forall n: nat, c: Conn ensures Faithful(world.net(n, c), (o: Oid) => truth(c, o)) {
      var own := (o: Oid) => truth(c, o);
      forall a: nat, request: seq<Oid> ensures FaithfulReply(own, request, world.net(n, c)(a, request)) {
        assert world.net(n, c)(a, request) == HostReply(c, request);
      }
    }
  }

  /**
   The session key leaves the host name out, so batched polling agrees with polling each item over a
   connection of its own, for all agents that answer by host and key, exactly for the items whose
   session was opened by an item of the same host.
   */
  lemma AgreesIffOwnHost(items: seq<Item>, p: nat)
    requires p < |items| && items[p].snmp
    ensures (forall world: World, truth: (Conn, Oid) -> Varbind | Calm(world, truth) && KeyDecides(truth) ::
               OverSession(items, world.finish, truth, p) == Alone(items, world.finish, truth, p)) <==>
            OwnHost(items, p)
  {
    if OwnHost(items, p) {
      forall world: World, truth: (Conn, Oid) -> Varbind | Calm(world, truth) && KeyDecides(truth)
        ensures OverSession(items, world.finish, truth, p) == Alone(items, world.finish, truth, p)
      {
        OwnHostAgrees(items, world.finish, truth, p);
      }
    } else {
      HostWorldIsCalm();
      assert OverSession(items, HostWorld().finish, HostTruth(), p) == items[Opener(items, p)].hostname;
      assert Alone(items, HostWorld().finish, HostTruth(), p) == items[p].hostname;
    }
  }

  /** When all SNMP items name one host, every one of them is asked for there. */
  lemma OneHostAgrees(items: seq<Item>, p: nat, host: string)
    requires p < |items| && items[p].snmp && forall q | 0 <= q < |items| && items[q].snmp :: items[q].hostname == host
    ensures OwnHost(items, p)
  {
  }

  /** Two items with one key and two hosts: the second is asked for at the first one's host. */
  lemma TwoHostsDisagree(profile: Profile)
    ensures var items := [Item(true, "a", "1.1", profile), Item(true, "b", "1.2", profile)];
            && !OwnHost(items, 1)
            && Calm(HostWorld(), HostTruth()) && KeyDecides(HostTruth())
            && OverSession(items, HostWorld().finish, HostTruth(), 1) == "a"
            && Alone(items, HostWorld().finish, HostTruth(), 1) == "b"
  {
    HostWorldIsCalm();
    var items := [Item(true, "a", "1.1", profile), Item(true, "b", "1.2", profile)];
    assert SessionAfter(items, 0) == None;
    assert SessionAfter(items, 1) == Some(ConnOf(items[0]));
    assert SessionAfter(items, 2) == Some(ConnOf(items[0]));
    assert Opener(items, 1) == 0;
  }

  /** What each SNMP item stores in a calm world. */
  ghost predicate Delivered(items: seq<Item>, finish: (Item, Cell) -> string, truth: (Conn, Oid) -> Varbind,
                            results: seq<string>) {
    && |results| == |items|
    && (forall p | 0 <= p < |items| && items[p].snmp :: results[p] == OverSession(items, finish, truth, p))
    && (KeyDecides(truth) ==>
          forall p | 0 <= p < |items| && items[p].snmp && OwnHost(items, p) ::
            results[p] == Alone(items, finish, truth, p))
  }

  lemma StoredIsDelivered(items: seq<Item>, env: Env, truth: (Conn, Oid) -> Varbind, results: seq<string>)
    requires StoredOver(items, env, truth, SnmpPositions(items, |items|), results)
    ensures Delivered(items, env.finish, truth, results)
  {
    AllSent(items, |items|);
    if KeyDecides(truth) {
      forall p | 0 <= p < |items| && items[p].snmp && OwnHost(items, p)
        ensures results[p] == Alone(items, env.finish, truth, p)
      {
        OwnHostAgrees(items, env.finish, truth, p);
      }
    }
  }

  lemma LoadedGoing(items: seq<Item>, env: Env, truth: (Conn, Oid) -> Varbind, maxOids: nat)
    requires maxOids >= 1
    ensures Going(items, env, truth, maxOids, Loaded(items), 0)
  {
    assert SnmpPositions(items, 0) == Flat([]) + [];
  }

  /** The loop of collect_poll_items. */
  method TakeAll(items: seq<Item>, maxOids: nat, env: Env, ghost truth: (Conn, Oid) -> Varbind)
    returns (b: Batch, processed: nat)
    requires Sized(env) && maxOids >= 1
    ensures Going(items, env, truth, maxOids, b, processed) && (processed == |items| || b.ignoreHost)
  {
    b, processed := Loaded(items), 0;
    LoadedGoing(items, env, truth, maxOids);
    while processed < |items| && !b.ignoreHost
      invariant Going(items, env, truth, maxOids, b, processed)
    {
      TakenKeeps(items, env, truth, maxOids, b, processed);
      b := Taken(items, env, maxOids, b, processed);
      processed := processed + 1;
    }
  }

  /** The loop of collect_poll_items and its last flush. */
  method Collect(items: seq<Item>, maxOids: nat, env: Env, ghost truth: (Conn, Oid) -> Varbind)
    returns (b: Batch, processed: nat)
    requires Sized(env) && maxOids >= 1
    ensures EachInOneBatch(items, maxOids, b, processed) && ScriptsStored(items, env, b.results, processed)
    ensures CalmEnv(env, truth) ==>
            processed == |items| && StoredOver(items, env, truth, SnmpPositions(items, |items|), b.results)
  {
    b, processed := TakeAll(items, maxOids, env, truth);
    FinalFlush(items, env, truth, maxOids, b, processed);
    b := Flush(items, env, b);
  }

  /**
   collect_poll_items.  In a calm world every item is processed, each SNMP item stores what asking
   for it by itself over the open session would store, whatever the batch limit, and that is what
   polling it alone would store wherever the session was opened for the item's own host.
   */
  method CollectPollItems(items: seq<Item>, limit: int, world: World, ghost truth: (Conn, Oid) -> Varbind)
    returns (b: Batch, processed: nat)
    ensures EachInOneBatch(items, if limit <= 0 then 1 else limit, b, processed)
    ensures ScriptsStored(items, EnvOf(world), b.results, processed)
    ensures Calm(world, truth) ==> processed == |items| && Delivered(items, world.finish, truth, b.results)
  {
    b, processed := Collect(items, if limit <= 0 then 1 else limit, EnvOf(world), truth);
    if Calm(world, truth) {
      CalmWorld(world, truth);
      StoredIsDelivered(items, EnvOf(world), truth, b.results);
    }
  }
}
