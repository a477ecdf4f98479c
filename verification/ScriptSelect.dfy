/**
 Choosing a script server and reading one line from it: the round-robin scan with its
 contended and recovery candidates, and the read loop with its bounded buffer.
 */
module ScriptSelect {

  const MAX_PHP_SERVERS := 15

  // ---- Selection ----

  /** What the scan finds at a slot: its lock taken, a usable server, or one to repair. */
  datatype Look = Locked | Usable | Broken

  /** What the second visit to the slot to repair comes to. */
  datatype Repair = LockedNow | UsableNow | Repaired | Unrepaired

  /** The slot at a distance from the start, around the ring. */
  function Around(start: nat, d: nat, n: nat): nat
    requires start < n && d < n
  {
    if start + d < n then start + d else start + d - n
  }

  lemma {:induction false} Multiple(n: nat, q: nat)
    ensures n * q >= if q >= 2 then 2 * n else 0
    ensures n * 0 == 0 && n * 1 == n
  {
    if q > 2 {
      Multiple(n, q - 1);
      assert n * q == n * (q - 1) + n;
    }
  }

  lemma AroundIsModulo(start: nat, d: nat, n: nat)
    requires start < n && d < n
    ensures Around(start, d, n) == (start + d) % n
  {
    var x := start + d;
    var q, r := x / n, x % n;
    assert x == n * q + r && 0 <= r < n && q >= 0;
    Multiple(n, q);
    assert q == 0 || q == 1;
  }

  /** No slot at a distance in a range looks a given way. */
  predicate Absent(n: nat, start: nat, look: nat -> Look, kind: Look, d: nat)
    requires start < n && d <= n
  {
    forall e | 0 <= e < d :: look(Around(start, e, n)) != kind
  }

  /** Distance of the first slot, going round from start, that looks a given way; n if none does. */
  function First(n: nat, start: nat, look: nat -> Look, kind: Look, d: nat): (r: nat)
    requires start < n && d <= n
    ensures d <= r <= n
    decreases n - d
  {
    if d == n || look(Around(start, d, n)) == kind then d else First(n, start, look, kind, d + 1)
  }

  lemma {:induction false} FirstIs(n: nat, start: nat, look: nat -> Look, kind: Look, d: nat, r: nat)
    requires start < n && d <= r <= n
    ensures First(n, start, look, kind, d) == r <==>
            && (forall e | d <= e < r :: look(Around(start, e, n)) != kind)
            && (r < n ==> look(Around(start, r, n)) == kind)
    decreases n - d
  {
    if d < r && look(Around(start, d, n)) != kind { FirstIs(n, start, look, kind, d + 1, r); }
  }

  /** A slot number, or minus one for none. */
  function Candidate(n: nat, start: nat, d: nat): int
    requires start < n
  {
    if d < n then Around(start, d, n) else -1
  }

  /** The first usable slot; failing that the first broken one if it comes back; failing that the first locked one. */
  function Choice(n: nat, start: nat, look: nat -> Look, repair: nat -> Repair): int
    requires start < n
  {
    var usable, broken := First(n, start, look, Usable, 0), First(n, start, look, Broken, 0);
    var locked := Candidate(n, start, First(n, start, look, Locked, 0));
    if usable < n then Around(start, usable, n)
    else if broken < n && repair(Around(start, broken, n)) in {UsableNow, Repaired} then Around(start, broken, n)
    else locked
  }

  class Selector {
    var current: int

    constructor ()
      ensures current == 0
    {
      current := 0;
    }

    /** php_get_process */
    method GetProcess(servers: int, look: nat -> Look, repair: nat -> Repair) returns (slot: int)
      requires current >= 0
      modifies this
      ensures servers <= 0 ==> slot == -1 && current == old(current)
      ensures servers > 0 ==>
                var n := if servers > MAX_PHP_SERVERS then MAX_PHP_SERVERS else servers;
                var start := if old(current) >= n then 0 else old(current);
                current == start + 1 && slot == Choice(n, start, look, repair)
    {
      if servers <= 0 { return -1; }
      var n: nat := if servers > MAX_PHP_SERVERS then MAX_PHP_SERVERS else servers;
      if current >= n { current := 0; }
      var start: nat := current;
      current := current + 1;
      var found: bool, contended: int, broken: int;
      found, slot, contended, broken := Scan(n, start, look);
      if found { return; }
      if contended >= 0 && broken < 0 { return contended; }
      if broken < 0 { return contended; }
      match repair(broken) {
        case LockedNow => slot := contended;
        case UsableNow => slot := broken;
        case Repaired => slot := broken;
        case Unrepaired => slot := contended;
      }
    }
  }

  /** The first slot of a kind among those looked at, or minus one. */
  predicate Kept(n: nat, start: nat, look: nat -> Look, kind: Look, d: nat, kept: int, at: nat)
    requires start < n && d <= n
  {
    if kept < 0 then kept == -1 && Absent(n, start, look, kind, d)
    else at < d && kept == Around(start, at, n) && look(kept) == kind && Absent(n, start, look, kind, at)
  }

  /** The loop of the scan: stops at a usable slot, else keeps the first locked and the first broken one. */
  method Scan(n: nat, start: nat, look: nat -> Look) returns (found: bool, slot: int, contended: int, broken: int)
    requires start < n
    ensures found <==> First(n, start, look, Usable, 0) < n
    ensures found ==> slot == Candidate(n, start, First(n, start, look, Usable, 0))
    ensures !found ==> contended == Candidate(n, start, First(n, start, look, Locked, 0))
    ensures !found ==> broken == Candidate(n, start, First(n, start, look, Broken, 0))
  {
    found, slot, contended, broken := false, -1, -1, -1;
    ghost var locked: nat, bad: nat := 0, 0;
    var checked := 0;
    while checked < n
      invariant 0 <= checked <= n && !found
      invariant Absent(n, start, look, Usable, checked)
      invariant Kept(n, start, look, Locked, checked, contended, locked)
      invariant Kept(n, start, look, Broken, checked, broken, bad)
    {
      var candidate := Around(start, checked, n);
      match look(candidate) {
        case Locked => if contended < 0 { contended, locked := candidate, checked; }
        case Usable =>
          FirstIs(n, start, look, Usable, 0, checked);
          return true, candidate, contended, broken;
        case Broken => if broken < 0 { broken, bad := candidate, checked; }
      }
      checked := checked + 1;
    }
    FirstIs(n, start, look, Usable, 0, n);
    FirstIs(n, start, look, Locked, 0, if contended < 0 then n else locked);
    FirstIs(n, start, look, Broken, 0, if broken < 0 then n else bad);
  }

  /** Nothing is chosen exactly when every slot is broken and the first of them does not come back. */
  lemma NothingIffAllBroken(n: nat, start: nat, look: nat -> Look, repair: nat -> Repair)
    requires start < n
    ensures Choice(n, start, look, repair) == -1 <==>
            (forall d | 0 <= d < n :: look(Around(start, d, n)) == Broken) &&
            repair(Around(start, 0, n)) !in {UsableNow, Repaired}
  {
    var usable, locked := First(n, start, look, Usable, 0), First(n, start, look, Locked, 0);
    FirstIs(n, start, look, Usable, 0, usable);
    FirstIs(n, start, look, Locked, 0, locked);
    if usable == n && locked == n {
      forall d | 0 <= d < n ensures look(Around(start, d, n)) == Broken {
        assert look(Around(start, d, n)) != Usable && look(Around(start, d, n)) != Locked;
      }
      assert look(Around(start, 0, n)) == Broken;
    }
  }

  /** A usable slot is always preferred, and the one nearest round the ring from the start. */
  lemma NearestUsable(n: nat, start: nat, look: nat -> Look, repair: nat -> Repair, d: nat)
    requires start < n && d < n && look(Around(start, d, n)) == Usable
    ensures exists e: nat | e <= d ::
              && Choice(n, start, look, repair) == Around(start, e, n) && look(Around(start, e, n)) == Usable
              && Absent(n, start, look, Usable, e)
  {
    var e := First(n, start, look, Usable, 0);
    FirstIs(n, start, look, Usable, 0, e);
    assert e <= d;
    assert Choice(n, start, look, repair) == Around(start, e, n);
  }

  /** Where the scan begins at the k-th call, when the number of servers stays. */
  function StartOf(current: nat, n: nat, k: nat): nat
    requires n > 0
    decreases k
  {
    var start := if current >= n then 0 else current;
    if k == 0 then start else StartOf(start + 1, n, k - 1)
  }

  /** Within n calls every slot is the first to be looked at exactly once: they begin at successive slots. */
  lemma {:induction false} RoundRobin(current: nat, n: nat, k: nat)
    requires current <= n && k < n
    ensures var start := if current == n then 0 else current;
            StartOf(current, n, k) == if start + k < n then start + k else start + k - n
    decreases k
  {
    var start := if current == n then 0 else current;
    if k > 0 { RoundRobin(start + 1, n, k - 1); }
  }

  /** So each slot is where exactly one of n successive calls begins. */
  lemma EachSlotOnce(current: nat, n: nat, slot: nat) returns (k: nat)
    requires current <= n && slot < n
    ensures k < n && StartOf(current, n, k) == slot
    ensures forall j: nat | j < n && StartOf(current, n, j) == slot :: j == k
  {
    var start := if current == n then 0 else current;
    k := if start <= slot then slot - start else n - start + slot;
    RoundRobin(current, n, k);
    forall j: nat | j < n && StartOf(current, n, j) == slot ensures j == k {
      RoundRobin(current, n, j);
    }
  }

  // ---- Reading a line ----

  /** What waiting and reading bring: bytes, an interruption, the end, or nothing in time. */
  datatype Event = Data(bytes: string) | Interrupted | Ended | NotReady

  datatype Result = NoLine | Line(text: string)

  /** The bytes that arrive before anything fails. */
  function Stream(events: seq<Event>): string {
    if events == [] || events[0].Ended? || events[0].NotReady? then []
    else if events[0].Interrupted? then Stream(events[1..])
    else if events[0].bytes == [] then []
    else events[0].bytes + Stream(events[1..])
  }

  /** A text as a string function sees it: up to the first zero byte. */
  function Seen(text: string): string {
    if text == [] || text[0] == '\0' then [] else [text[0]] + Seen(text[1..])
  }

  predicate HasLine(text: string) {
    '\n' in Seen(text)
  }

  function Cut(s: string, n: nat): string {
    if |s| <= n then s else s[..n]
  }

  /** The read loop over what arrived so far. */
  function ReadOn(text: string, events: seq<Event>, limit: nat): Result
    requires |text| < limit
    decreases |events|
  {
    if events == [] || events[0].Ended? || events[0].NotReady? || |text| == limit - 1 then NoLine
    else if events[0].Interrupted? then ReadOn(text, events[1..], limit)
    else
      var got := Cut(events[0].bytes, limit - 1 - |text|);
      if got == [] then NoLine
      else if HasLine(text + got) then Line(text + got)
      else ReadOn(text + got, events[1..], limit)
  }

  lemma {:induction false} SeenGrows(a: string, b: string)
    ensures Seen(a) <= Seen(a + b)
  {
    if a != [] && a[0] != '\0' {
      SeenGrows(a[1..], b);
      assert (a + b)[1..] == a[1..] + b;
    }
  }

  lemma LineStays(a: string, b: string)
    requires HasLine(a)
    ensures HasLine(a + b)
  {
    SeenGrows(a, b);
    var i :| 0 <= i < |Seen(a)| && Seen(a)[i] == '\n';
    assert Seen(a + b)[i] == '\n';
  }

  lemma CutData(text: string, bytes: string, rest: string, space: nat)
    ensures text + Cut(bytes + rest, space) ==
            if |bytes| > space then text + Cut(bytes, space) else (text + bytes) + Cut(rest, space - |bytes|)
  {
  }

  lemma PrefixData(text: string, got: string, bytes: string, rest: string)
    requires got <= bytes
    ensures text + got <= text + (bytes + rest) == (text + bytes) + rest
  {
  }

  /** A line is found exactly when a line end arrives, before any failure and any zero byte, within the buffer. */
  lemma {:induction false} LineIff(text: string, events: seq<Event>, limit: nat)
    requires |text| < limit && !HasLine(text)
    ensures ReadOn(text, events, limit).Line? <==> HasLine(text + Cut(Stream(events), limit - 1 - |text|))
    decreases |events|
  {
    var space := limit - 1 - |text|;
    if events == [] || events[0].Ended? || events[0].NotReady? || space == 0 {
      assert text + [] == text;
    } else if events[0].Interrupted? {
      LineIff(text, events[1..], limit);
    } else if events[0].bytes == [] {
      assert text + [] == text;
    } else {
      DataLineIff(text, events, limit);
    }
  }

  lemma {:induction false} DataLineIff(text: string, events: seq<Event>, limit: nat)
    requires |text| < limit - 1 && !HasLine(text) && events != [] && events[0].Data? && events[0].bytes != []
    ensures ReadOn(text, events, limit).Line? <==> HasLine(text + Cut(Stream(events), limit - 1 - |text|))
    decreases |events|, 0
  {
    var bytes, rest, space := events[0].bytes, Stream(events[1..]), limit - 1 - |text|;
    var got := Cut(bytes, space);
    CutData(text, bytes, rest, space);
    if HasLine(text + got) {
      if |bytes| <= space { LineStays(text + bytes, Cut(rest, space - |bytes|)); }
    } else if |bytes| <= space {
      LineIff(text + bytes, events[1..], limit);
    }
  }

  /** The line, with anything that came along, is what arrived first, and fits the buffer. */
  lemma {:induction false} LineIsWhatCame(text: string, events: seq<Event>, limit: nat)
    requires |text| < limit && ReadOn(text, events, limit).Line?
    ensures var r := ReadOn(text, events, limit); |r.text| < limit && HasLine(r.text) && r.text <= text + Stream(events)
    decreases |events|
  {
    if events[0].Interrupted? {
      LineIsWhatCame(text, events[1..], limit);
    } else {
      var bytes := events[0].bytes;
      var got := Cut(bytes, limit - 1 - |text|);
      PrefixData(text, got, bytes, Stream(events[1..]));
      if !HasLine(text + got) { LineIsWhatCame(text + got, events[1..], limit); }
    }
  }

  /** The read loop of php_read_result, from a descriptor that select found readable. */
  method ReadLine(events: seq<Event>, limit: nat) returns (result: Result)
    requires limit > 0
    ensures result == ReadOn("", events, limit)
    ensures result.Line? <==> HasLine(Cut(Stream(events), limit - 1))
  {
    LineIff("", events, limit);
    assert "" + Cut(Stream(events), limit - 1) == Cut(Stream(events), limit - 1);
    var text, i := "", 0;
    while i < |events|
      invariant 0 <= i <= |events| && |text| < limit
      invariant ReadOn(text, events[i..], limit) == ReadOn("", events, limit)
    {
      var event := events[i];
      assert events[i..][0] == event && events[i..][1..] == events[i + 1..];
      if |text| >= limit - 1 { return NoLine; }
      if event.NotReady? || event.Ended? { return NoLine; }
      if event.Data? {
        var got := Cut(event.bytes, limit - 1 - |text|);
        if got == [] { return NoLine; }
        text := text + got;
        if HasLine(text) { return Line(text); }
        if |text| >= limit - 1 { return NoLine; }
      }
      i := i + 1;
    }
    result := NoLine;
  }
}
