/**
 Writing the collected values of a device: rows are formatted, packed into insert
 statements for the output table and, when boost redirection is on, for the boost
 table, and flushed whenever the next row would not fit.
 */
module OutputWriter {

  // ---- Formatting a row ----

  predicate Digit(c: char) {
    '0' <= c <= '9'
  }

  /** Number of places at which a character stands in a text. */
  function Occurrences(text: string, c: char): nat {
    if text == [] then 0 else Occurrences(text[..|text| - 1], c) + if text[|text| - 1] == c then 1 else 0
  }

  /** A timestamp that may be written outside quotes: digits with at most one point among them. */
  predicate Timestamp(text: string) {
    && (forall i | 0 <= i < |text| :: Digit(text[i]) || text[i] == '.')
    && Occurrences(text, '.') <= 1
    && exists i :: 0 <= i < |text| && Digit(text[i])
  }

  lemma {:induction false} OccurrencesGrow(text: string, n: nat, c: char)
    requires n <= |text|
    ensures Occurrences(text[..n], c) <= Occurrences(text, c)
    decreases |text|
  {
    if n == |text| {
      assert text[..n] == text;
    } else {
      OccurrencesGrow(text[..|text| - 1], n, c);
      assert text[..|text| - 1][..n] == text[..n];
    }
  }

  /** The timestamp check of format_poller_output_row. */
  method CheckTime(text: string) returns (ok: bool)
    ensures ok <==> Timestamp(text)
  {
    var points, digits, i := 0, 0, 0;
    while i < |text|
      invariant 0 <= i <= |text|
      invariant points == Occurrences(text[..i], '.') <= 1
      invariant forall j | 0 <= j < i :: Digit(text[j]) || text[j] == '.'
      invariant digits > 0 <==> exists j :: 0 <= j < i && Digit(text[j])
      invariant digits >= 0
    {
      assert text[..i + 1][..i] == text[..i];
      if text[i] == '.' {
        points := points + 1;
        if points > 1 {
          OccurrencesGrow(text, i + 1, '.');
          return false;
        }
      } else if !Digit(text[i]) {
        return false;
      } else {
        digits := digits + 1;
      }
      i := i + 1;
    }
    assert text[..i] == text;
    ok := digits > 0;
  }

  function Decimal(n: nat): string {
    if n < 10 then ['0' + n as char] else Decimal(n / 10) + ['0' + (n % 10) as char]
  }

  function Number(n: int): string {
    if n < 0 then "-" + Decimal(-n) else Decimal(n)
  }

  /** One collected value, its name and text already escaped for the database. */
  datatype Item = Item(id: int, name: string, result: string)

  function RowText(item: Item, time: string): string {
    " (" + Number(item.id) + ", '" + item.name + "', FROM_UNIXTIME(" + time + "), '" + item.result + "')"
  }

  /** Bytes kept for one formatted row; results is the configured result size. */
  function RowCapacity(results: nat): nat {
    results * 2 + 2048 + 256
  }

  predicate Formattable(item: Item, time: string, results: nat) {
    Timestamp(time) && |RowText(item, time)| < RowCapacity(results)
  }

  /** What escaping into the program's buffers guarantees, and the width of an identifier. */
  predicate Escaped(item: Item, results: nat) {
    |item.result| <= results * 2 && |item.name| < 2048 && -0x8000_0000 <= item.id < 0x8000_0000
  }

  lemma {:induction false} DecimalLength(n: nat, digits: nat, bound: nat)
    requires digits > 0 && n < bound && bound == Power(digits)
    ensures |Decimal(n)| <= digits
  {
    if n >= 10 {
      assert Power(digits) == 10 * Power(digits - 1);
      DecimalLength(n / 10, digits - 1, Power(digits - 1));
    }
  }

  function Power(n: nat): nat {
    if n == 0 then 1 else 10 * Power(n - 1)
  }

  /** With a good timestamp no row is ever skipped for its size; with a bad one every row is. */
  lemma SkippedOnlyForTime(item: Item, time: string, results: nat)
    requires Escaped(item, results) && |time| < 40
    ensures Formattable(item, time, results) <==> Timestamp(time)
  {
    assert Power(10) == 10_000_000_000 by {
      assert Power(5) == 100000;
    }
    DecimalLength(if item.id < 0 then -item.id else item.id, 10, Power(10));
    assert |Number(item.id)| <= 11;
  }

  // ---- Packing rows into statements ----

  /** Combined length of some rows. */
  function Size(rows: seq<string>): nat {
    if rows == [] then 0 else Size(rows[..|rows| - 1]) + |rows[|rows| - 1]|
  }

  /** Finished batches of rows and the one being filled. */
  datatype Packing = Packing(done: seq<seq<string>>, filling: seq<string>)

  /** Adds a row, starting a new batch when the text would reach the limit. */
  function Pack(base: nat, limit: nat, p: Packing, row: string): Packing {
    if base + Size(p.filling) + |row| >= limit then Packing(p.done + [p.filling], [row])
    else p.(filling := p.filling + [row])
  }

  function PackAll(base: nat, limit: nat, rows: seq<string>): Packing {
    if rows == [] then Packing([], [])
    else Pack(base, limit, PackAll(base, limit, rows[..|rows| - 1]), rows[|rows| - 1])
  }

  /** The batches sent: the finished ones, and the last if it holds anything. */
  function Batches(base: nat, limit: nat, rows: seq<string>): seq<seq<string>> {
    var p := PackAll(base, limit, rows);
    if p.filling == [] then p.done else p.done + [p.filling]
  }

  function Flat(batches: seq<seq<string>>): seq<string> {
    if batches == [] then [] else Flat(batches[..|batches| - 1]) + batches[|batches| - 1]
  }

  lemma FlatAppend(batches: seq<seq<string>>, b: seq<string>)
    ensures Flat(batches + [b]) == Flat(batches) + b
  {
    assert (batches + [b])[..|batches|] == batches;
  }

  lemma Associative<T>(a: seq<T>, b: seq<T>, c: seq<T>)
    ensures a + b + c == a + (b + c)
  {
  }

  lemma PackAddsRow(base: nat, limit: nat, p: Packing, row: string)
    ensures var q := Pack(base, limit, p, row); Flat(q.done) + q.filling == Flat(p.done) + p.filling + [row]
  {
    FlatAppend(p.done, p.filling);
    Associative(Flat(p.done), p.filling, [row]);
  }

  lemma {:induction false} PackKeepsRows(base: nat, limit: nat, rows: seq<string>)
    ensures var p := PackAll(base, limit, rows); Flat(p.done) + p.filling == rows
  {
    if rows != [] {
      var rest, row := rows[..|rows| - 1], rows[|rows| - 1];
      PackKeepsRows(base, limit, rest);
      PackAddsRow(base, limit, PackAll(base, limit, rest), row);
      assert rows == rest + [row];
    }
  }

  /** The batches, taken in order, are exactly the rows. */
  lemma BatchesAreTheRows(base: nat, limit: nat, rows: seq<string>)
    ensures Flat(Batches(base, limit, rows)) == rows
  {
    PackKeepsRows(base, limit, rows);
    var p := PackAll(base, limit, rows);
    FlatAppend(p.done, p.filling);
  }

  /** The first finished batch is empty exactly when the first row alone reaches the limit; no other is. */
  lemma {:induction false} PackFills(base: nat, limit: nat, rows: seq<string>)
    ensures var p := PackAll(base, limit, rows);
            && (rows != [] ==> p.filling != [])
            && (forall k | 0 < k < |p.done| :: p.done[k] != [])
            && ((p.done != [] && p.done[0] == []) <==> (rows != [] && base + |rows[0]| >= limit))
  {
    if rows != [] {
      var rest := rows[..|rows| - 1];
      PackFills(base, limit, rest);
      var p := PackAll(base, limit, rest);
      if rest == [] {
        assert Size(p.filling) == 0;
      } else {
        assert rest[0] == rows[0];
      }
    }
  }

  /** A statement without rows is sent exactly when the very first row does not fit beside the prefix. */
  lemma EmptyBatchIff(base: nat, limit: nat, rows: seq<string>)
    ensures ([] in Batches(base, limit, rows)) <==> (rows != [] && base + |rows[0]| >= limit)
  {
    PackFills(base, limit, rows);
    var p, sent := PackAll(base, limit, rows), Batches(base, limit, rows);
    if rows != [] && base + |rows[0]| >= limit {
      assert sent[0] == [];
    }
  }

  /** No batch is sent early: the row that begins the next one would have reached the limit. */
  predicate Maximal(base: nat, limit: nat, batches: seq<seq<string>>) {
    forall k | 0 < k < |batches| ::
      batches[k] != [] && base + Size(batches[k - 1]) + |batches[k][0]| >= limit
  }

  lemma {:induction false} PackMaximal(base: nat, limit: nat, rows: seq<string>)
    requires rows != []
    ensures var p := PackAll(base, limit, rows); Maximal(base, limit, p.done + [p.filling])
  {
    if |rows| == 1 {
      assert PackAll(base, limit, rows[..0]) == Packing([], []);
    } else {
      var rest, row := rows[..|rows| - 1], rows[|rows| - 1];
      PackMaximal(base, limit, rest);
      PackFills(base, limit, rest);
      MaximalStep(base, limit, PackAll(base, limit, rest), row);
    }
  }

  lemma MaximalStep(base: nat, limit: nat, p: Packing, row: string)
    requires p.filling != [] && Maximal(base, limit, p.done + [p.filling])
    ensures var q := Pack(base, limit, p, row); Maximal(base, limit, q.done + [q.filling])
  {
    var q := Pack(base, limit, p, row);
    var was, now := p.done + [p.filling], q.done + [q.filling];
    forall k | 0 < k < |now|
      ensures now[k] != [] && base + Size(now[k - 1]) + |now[k][0]| >= limit
    {
      if k < |was| {
        assert was[k] != [] && base + Size(was[k - 1]) + |was[k][0]| >= limit;
        assert now[k - 1] == was[k - 1] && now[k][0] == was[k][0];
      }
    }
  }

  lemma BatchesMaximal(base: nat, limit: nat, rows: seq<string>)
    ensures Maximal(base, limit, Batches(base, limit, rows))
  {
    if rows != [] {
      PackMaximal(base, limit, rows);
      PackFills(base, limit, rows);
    }
  }

  // ---- Statement text ----

  /** A row with its leading character replaced by the delimiter. */
  function Delimited(row: string, first: bool): string {
    if row == [] then [] else [if first then ' ' else ','] + row[1..]
  }

  function Joined(batch: seq<string>): (text: string)
    ensures |text| == Size(batch)
  {
    if batch == [] then []
    else Joined(batch[..|batch| - 1]) + Delimited(batch[|batch| - 1], |batch| == 1)
  }

  /** Rows each led by a comma, from the front. */
  function Continued(rows: seq<string>): string {
    if rows == [] then [] else Delimited(rows[0], false) + Continued(rows[1..])
  }

  lemma {:induction false} ContinuedAppend(rows: seq<string>, row: string)
    ensures Continued(rows + [row]) == Continued(rows) + Delimited(row, false)
  {
    if rows == [] {
      assert [] + [row] == [row];
      assert Continued([row]) == Delimited(row, false) + [];
    } else {
      calc {
        Continued(rows + [row]);
        { assert (rows + [row])[1..] == rows[1..] + [row]; }
        Delimited(rows[0], false) + Continued(rows[1..] + [row]);
        { ContinuedAppend(rows[1..], row); }
        Delimited(rows[0], false) + (Continued(rows[1..]) + Delimited(row, false));
        { Associative(Delimited(rows[0], false), Continued(rows[1..]), Delimited(row, false)); }
        Continued(rows) + Delimited(row, false);
      }
    }
  }

  /** A batch is its first row led by a blank and every other row led by a comma. */
  lemma {:induction false} JoinedFromFront(first: string, rows: seq<string>)
    ensures Joined([first] + rows) == Delimited(first, true) + Continued(rows)
  {
    var head := Delimited(first, true);
    if rows == [] {
      assert [first] + [] == [] + [first];
      JoinedAppend([], first);
    } else {
      var rest, row := rows[..|rows| - 1], rows[|rows| - 1];
      assert rows == rest + [row];
      calc {
        Joined([first] + rows);
        { JoinedStep(first, rest, row); }
        Joined([first] + rest) + Delimited(row, false);
        { JoinedFromFront(first, rest); }
        (head + Continued(rest)) + Delimited(row, false);
        { Associative(head, Continued(rest), Delimited(row, false)); }
        head + (Continued(rest) + Delimited(row, false));
        { ContinuedAppend(rest, row); }
        head + Continued(rows);
      }
    }
  }

  lemma JoinedStep(first: string, rest: seq<string>, row: string)
    ensures Joined([first] + (rest + [row])) == Joined([first] + rest) + Delimited(row, false)
  {
    Associative([first], rest, [row]);
    JoinedAppend([first] + rest, row);
  }

  function Statement(prefix: string, batch: seq<string>, suffix: string): string {
    prefix + Joined(batch) + suffix
  }

  function Statements(prefix: string, batches: seq<seq<string>>, suffix: string): seq<string> {
    if batches == [] then []
    else Statements(prefix, batches[..|batches| - 1], suffix) + [Statement(prefix, batches[|batches| - 1], suffix)]
  }

  /** The k-th statement carries the k-th batch, whatever the table. */
  lemma {:induction false} StatementAt(prefix: string, batches: seq<seq<string>>, suffix: string, k: nat)
    requires k < |batches|
    ensures |Statements(prefix, batches, suffix)| == |batches|
    ensures Statements(prefix, batches, suffix)[k] == Statement(prefix, batches[k], suffix)
  {
    StatementCount(prefix, batches[..|batches| - 1], suffix);
    if k < |batches| - 1 { StatementAt(prefix, batches[..|batches| - 1], suffix, k); }
  }

  lemma {:induction false} StatementCount(prefix: string, batches: seq<seq<string>>, suffix: string)
    ensures |Statements(prefix, batches, suffix)| == |batches|
  {
    if batches != [] { StatementCount(prefix, batches[..|batches| - 1], suffix); }
  }

  // ---- The writer ----

  /** The fixed texts of the insert statements. */
  datatype Queries = Queries(output: string, boostOutput: string, suffix: string)

  /** Rows of a given size fit both statement buffers with prefix, suffix and terminator. */
  predicate SizeFits(queries: Queries, size: nat, capacity: nat) {
    |queries.output| + size + |queries.suffix| < capacity && |queries.boostOutput| + size + |queries.suffix| < capacity
  }

  /**
   What the buffers need: every row fits by itself, and the result size has room for the suffix and for
   what the boost prefix is longer than the plain one, whose text alone is kept below the limit.
   */
  predicate Spacious(queries: Queries, limit: nat, results: nat, rows: seq<string>) {
    && SizeFits(queries, 0, limit + results)
    && |queries.suffix| <= results && |queries.boostOutput| + |queries.suffix| <= |queries.output| + results
    && forall k | 0 <= k < |rows| :: SizeFits(queries, |rows[k]|, limit + results)
  }

  /** The build's sizes leave room for one row beside the prefix, and for what the boost text adds. */
  predicate Roomy(queries: Queries, limit: nat, results: nat) {
    && |queries.output| + RowCapacity(results) <= limit
    && |queries.suffix| <= results
    && |queries.boostOutput| + |queries.suffix| <= |queries.output| + results
  }

  /** The row of an item, if it can be formatted. */
  function RowsOf(item: Item, time: string, results: nat): seq<string> {
    if Formattable(item, time, results) then [RowText(item, time)] else []
  }

  /** The rows that can be formatted, in order. */
  function Rows(items: seq<Item>, time: string, results: nat): seq<string> {
    if items == [] then []
    else Rows(items[..|items| - 1], time, results) + RowsOf(items[|items| - 1], time, results)
  }

  /** A statement buffer and what was sent from it, against the packing so far. */
  predicate Filled(prefix: string, suffix: string, p: Packing, text: string, sent: seq<string>) {
    && text == prefix + Joined(p.filling)
    && sent == Statements(prefix, p.done, suffix)
  }

  lemma FilledFlush(prefix: string, suffix: string, p: Packing, text: string, sent: seq<string>)
    requires Filled(prefix, suffix, p, text, sent)
    ensures Filled(prefix, suffix, Packing(p.done + [p.filling], []), prefix, sent + [text + suffix])
  {
    assert (p.done + [p.filling])[..|p.done|] == p.done;
    assert prefix + Joined([]) == prefix;
  }

  lemma FilledAppend(prefix: string, suffix: string, p: Packing, text: string, sent: seq<string>, row: string)
    requires Filled(prefix, suffix, p, text, sent)
    ensures Filled(prefix, suffix, p.(filling := p.filling + [row]), text + Delimited(row, p.filling == []), sent)
  {
    JoinedAppend(p.filling, row);
    Associative(prefix, Joined(p.filling), Delimited(row, p.filling == []));
  }

  lemma JoinedAppend(batch: seq<string>, row: string)
    ensures Joined(batch + [row]) == Joined(batch) + Delimited(row, batch == [])
  {
    assert (batch + [row])[..|batch|] == batch;
  }

  lemma SizeAppend(rows: seq<string>, row: string)
    ensures Size(rows + [row]) == Size(rows) + |row|
  {
    assert (rows + [row])[..|rows|] == rows;
  }

  /** Below the limit both buffers have room. */
  lemma BelowLimitFits(queries: Queries, limit: nat, results: nat, rows: seq<string>, size: nat)
    requires Spacious(queries, limit, results, rows) && |queries.output| + size < limit
    ensures SizeFits(queries, size, limit + results)
  {
  }

  /** The rows being filled in always fit both buffers. */
  lemma {:induction false} PackFits(queries: Queries, limit: nat, results: nat, rows: seq<string>)
    requires Spacious(queries, limit, results, rows)
    ensures SizeFits(queries, Size(PackAll(|queries.output|, limit, rows).filling), limit + results)
  {
    if rows != [] {
      var rest, row := rows[..|rows| - 1], rows[|rows| - 1];
      assert Spacious(queries, limit, results, rest);
      PackFits(queries, limit, results, rest);
      var p := PackAll(|queries.output|, limit, rest);
      SizeAppend(p.filling, row);
      SizeAppend([], row);
      assert [] + [row] == [row];
      if |queries.output| + Size(p.filling) + |row| < limit {
        BelowLimitFits(queries, limit, results, rows, Size(p.filling) + |row|);
      }
    }
  }

  /** Appending to a statement buffer, which must have room for the terminator too. */
  function Cat(buffer: string, piece: string, capacity: nat): string
    requires |buffer| + |piece| < capacity
  {
    buffer + piece
  }

  /** Some of the first n inserts was rejected. */
  ghost predicate Rejected(accepts: nat -> bool, n: nat) {
    exists k: nat :: k < n && !accepts(k)
  }

  /** Both tables' buffers and everything sent, against the packing so far. */
  predicate Written(queries: Queries, p: Packing, boost: bool, text: string, boostText: string,
                    plain: seq<string>, boosted: seq<string>)
  {
    && Filled(queries.output, queries.suffix, p, text, plain)
    && (if boost then Filled(queries.boostOutput, queries.suffix, p, boostText, boosted) else boosted == [])
  }

  /** Room for another statement's end in both buffers. */
  lemma FlushRoom(queries: Queries, limit: nat, results: nat, boost: bool, p: Packing, text: string, boostText: string,
                  plain: seq<string>, boosted: seq<string>)
    requires SizeFits(queries, Size(p.filling), limit + results)
    requires Written(queries, p, boost, text, boostText, plain, boosted)
    ensures |text| + |queries.suffix| < limit + results
    ensures boost ==> |boostText| + |queries.suffix| < limit + results
  {
  }

  /** Completes and sends both buffers, in order; the caller starts them again. */
  method FlushTables(queries: Queries, limit: nat, results: nat, boost: bool, ghost p: Packing,
                     text: string, boostText: string, plain: seq<string>, boosted: seq<string>,
                     accepts: nat -> bool, failed: bool)
    returns (plain': seq<string>, boosted': seq<string>, failed': bool)
    requires SizeFits(queries, Size(p.filling), limit + results)
    requires Written(queries, p, boost, text, boostText, plain, boosted)
    requires failed <==> Rejected(accepts, |plain| + |boosted|)
    ensures Written(queries, Packing(p.done + [p.filling], []), boost, queries.output, queries.boostOutput, plain',
                    boosted')
    ensures failed' <==> Rejected(accepts, |plain'| + |boosted'|)
  {
    FlushRoom(queries, limit, results, boost, p, text, boostText, plain, boosted);
    FilledFlush(queries.output, queries.suffix, p, text, plain);
    plain', boosted', failed' := plain + [Cat(text, queries.suffix, limit + results)], boosted, failed;
    RejectedNext(accepts, |plain| + |boosted|);
    if !accepts(|plain| + |boosted|) { failed' := true; }
    if boost {
      FilledFlush(queries.boostOutput, queries.suffix, p, boostText, boosted);
      boosted' := boosted + [Cat(boostText, queries.suffix, limit + results)];
      RejectedNext(accepts, |plain'| + |boosted|);
      if !accepts(|plain'| + |boosted|) { failed' := true; }
    }
  }

  /** Adds one row to both buffers. */
  method AppendTables(queries: Queries, limit: nat, results: nat, boost: bool, ghost p: Packing,
                      text: string, boostText: string, ghost plain: seq<string>, ghost boosted: seq<string>,
                      row: string, first: bool)
    returns (text': string, boostText': string)
    requires SizeFits(queries, Size(p.filling) + |row|, limit + results) && (first <==> p.filling == [])
    requires Written(queries, p, boost, text, boostText, plain, boosted)
    ensures Written(queries, p.(filling := p.filling + [row]), boost, text', boostText', plain, boosted)
  {
    FilledAppend(queries.output, queries.suffix, p, text, plain, row);
    text', boostText' := Cat(text, Delimited(row, first), limit + results), boostText;
    if boost {
      FilledAppend(queries.boostOutput, queries.suffix, p, boostText, boosted, row);
      boostText' := Cat(boostText, Delimited(row, first), limit + results);
    }
  }

  lemma RowsStep(items: seq<Item>, time: string, results: nat, i: nat)
    requires i < |items|
    ensures Rows(items[..i + 1], time, results) == Rows(items[..i], time, results) + RowsOf(items[i], time, results)
  {
    assert items[..i + 1][..i] == items[..i];
  }

  lemma {:induction false} RowsFit(items: seq<Item>, time: string, results: nat)
    ensures forall k | 0 <= k < |Rows(items, time, results)| :: |Rows(items, time, results)[k]| < RowCapacity(results)
  {
    if items != [] { RowsFit(items[..|items| - 1], time, results); }
  }

  lemma PackStep(base: nat, limit: nat, rows: seq<string>, row: string)
    ensures PackAll(base, limit, rows + [row]) == Pack(base, limit, PackAll(base, limit, rows), row)
  {
    assert (rows + [row])[..|rows|] == rows;
  }

  lemma RejectedNext(accepts: nat -> bool, n: nat)
    ensures Rejected(accepts, n + 1) <==> Rejected(accepts, n) || !accepts(n)
  {
    if k: nat :| k < n && !accepts(k) {
      assert k < n + 1 && !accepts(k);
    }
  }

  lemma SpaciousPrefix(queries: Queries, limit: nat, results: nat, rows: seq<string>, more: seq<string>)
    requires Spacious(queries, limit, results, more) && rows <= more
    ensures Spacious(queries, limit, results, rows)
  {
  }

  lemma {:induction false} RowsPrefix(items: seq<Item>, time: string, results: nat, i: nat)
    requires i <= |items|
    ensures Rows(items[..i], time, results) <= Rows(items, time, results)
    decreases |items|
  {
    if i < |items| {
      RowsPrefix(items[..|items| - 1], time, results, i);
      assert items[..|items| - 1][..i] == items[..i];
    } else {
      assert items[..i] == items;
    }
  }

  /** A formatted row is never empty, so the length tells whether anything waits. */
  lemma {:induction false} WaitingHasLength(base: nat, limit: nat, rows: seq<string>)
    requires forall k | 0 <= k < |rows| :: rows[k] != []
    ensures var p := PackAll(base, limit, rows); p.filling != [] ==> Size(p.filling) > 0
  {
    if rows != [] {
      WaitingHasLength(base, limit, rows[..|rows| - 1]);
      var p, row := PackAll(base, limit, rows[..|rows| - 1]), rows[|rows| - 1];
      assert (p.filling + [row])[..|p.filling|] == p.filling;
    }
  }

  lemma {:induction false} RowsNonEmpty(items: seq<Item>, time: string, results: nat)
    ensures forall k | 0 <= k < |Rows(items, time, results)| :: Rows(items, time, results)[k] != []
  {
    if items != [] { RowsNonEmpty(items[..|items| - 1], time, results); }
  }

  /** Where the writer stands with some rows packed. */
  predicate Progress(queries: Queries, p: Packing, boost: bool,
                     text: string, boostText: string, plain: seq<string>, boosted: seq<string>,
                     outBuffer: nat, newBuffer: bool)
  {
    && Written(queries, p, boost, text, boostText, plain, boosted)
    && outBuffer == |queries.output| + Size(p.filling)
    && (newBuffer <==> p.filling == [])
  }

  /** What is being filled fits, the next row fits alone, and it fits beside the others below the limit. */
  predicate NextFits(queries: Queries, limit: nat, results: nat, p: Packing, row: string) {
    var size := Size(p.filling);
    && SizeFits(queries, size, limit + results) && SizeFits(queries, |row|, limit + results)
    && (|queries.output| + size + |row| < limit ==> SizeFits(queries, size + |row|, limit + results))
  }

  lemma RowsLeaveRoom(queries: Queries, limit: nat, results: nat, rows: seq<string>, row: string, all: seq<string>)
    requires Spacious(queries, limit, results, all) && rows + [row] <= all
    ensures NextFits(queries, limit, results, PackAll(|queries.output|, limit, rows), row)
  {
    var more := rows + [row];
    assert more[|rows|] == row && all[|rows|] == row;
    assert rows <= all;
    SpaciousPrefix(queries, limit, results, rows, all);
    PackFits(queries, limit, results, rows);
  }

  /** One row: flushes when it would reach the limit, then appends. */
  method WriteRow(queries: Queries, limit: nat, results: nat, boost: bool, ghost p: Packing,
                  text: string, boostText: string, plain: seq<string>, boosted: seq<string>,
                  accepts: nat -> bool, failed: bool, row: string, outBuffer: nat, newBuffer: bool)
    returns (text': string, boostText': string, plain': seq<string>, boosted': seq<string>, failed': bool,
             outBuffer': nat)
    requires NextFits(queries, limit, results, p, row)
    requires Progress(queries, p, boost, text, boostText, plain, boosted, outBuffer, newBuffer)
    requires failed <==> Rejected(accepts, |plain| + |boosted|)
    ensures Progress(queries, Pack(|queries.output|, limit, p, row), boost, text', boostText', plain', boosted',
                     outBuffer', false)
    ensures failed' <==> Rejected(accepts, |plain'| + |boosted'|)
  {
    SizeAppend(p.filling, row);
    SizeAppend([], row);
    assert [] + [row] == [row];
    if outBuffer + |row| >= limit {
      ghost var q := Packing(p.done + [p.filling], []);
      plain', boosted', failed' :=
        FlushTables(queries, limit, results, boost, p, text, boostText, plain, boosted, accepts, failed);
      text', boostText' :=
        AppendTables(queries, limit, results, boost, q, queries.output, queries.boostOutput, plain', boosted', row,
                     true);
      outBuffer' := |queries.output| + |row|;
    } else {
      plain', boosted', failed' := plain, boosted, failed;
      text', boostText' :=
        AppendTables(queries, limit, results, boost, p, text, boostText, plain, boosted, row, newBuffer);
      outBuffer' := outBuffer + |row|;
    }
  }

  /** format_poller_output_row: the row, if it can be formatted. */
  method FormatRow(item: Item, time: string, results: nat) returns (rows: seq<string>)
    ensures rows == RowsOf(item, time, results)
  {
    var timed := CheckTime(time);
    var row := RowText(item, time);
    rows := if timed && |row| < RowCapacity(results) then [row] else [];
  }

  /** One item of the loop, of those whose rows are packed so far. */
  method WriteItem(queries: Queries, limit: nat, results: nat, boost: bool, ghost items: seq<Item>, ghost i: nat,
                   item: Item, time: string, text: string, boostText: string, plain: seq<string>, boosted: seq<string>,
                   accepts: nat -> bool, failed: bool, outBuffer: nat, newBuffer: bool)
    returns (text': string, boostText': string, plain': seq<string>, boosted': seq<string>, failed': bool,
             outBuffer': nat, newBuffer': bool)
    requires i < |items| && item == items[i] && Spacious(queries, limit, results, Rows(items, time, results))
    requires Progress(queries, PackAll(|queries.output|, limit, Rows(items[..i], time, results)), boost,
                      text, boostText, plain, boosted, outBuffer, newBuffer)
    requires failed <==> Rejected(accepts, |plain| + |boosted|)
    ensures Progress(queries, PackAll(|queries.output|, limit, Rows(items[..i + 1], time, results)), boost,
                     text', boostText', plain', boosted', outBuffer', newBuffer')
    ensures failed' <==> Rejected(accepts, |plain'| + |boosted'|)
  {
    ghost var rows := Rows(items[..i], time, results);
    RowsStep(items, time, results, i);
    var formatted := FormatRow(item, time, results);
    if formatted == [] {
      assert rows + [] == rows;
      return text, boostText, plain, boosted, failed, outBuffer, newBuffer;
    }
    var row := formatted[0];
    assert formatted == [row];
    RowsPrefix(items, time, results, i + 1);
    RowsLeaveRoom(queries, limit, results, rows, row, Rows(items, time, results));
    PackStep(|queries.output|, limit, rows, row);
    text', boostText', plain', boosted', failed', outBuffer' := WriteRow(queries, limit, results, boost,
      PackAll(|queries.output|, limit, rows), text, boostText, plain, boosted, accepts, failed, row, outBuffer,
      newBuffer);
    newBuffer' := false;
  }

  /**
   write_poll_results. accepts tells of each insert, counted over both tables, whether the database
   took it. Both tables receive the same batches of exactly the formattable rows, and the call fails
   exactly when some insert did; the buffers never overflow, which Cat demands.
   */
  method WritePollResults(queries: Queries, items: seq<Item>, time: string, limit: nat, results: nat,
                          boost: bool, accepts: nat -> bool)
    returns (plain: seq<string>, boosted: seq<string>, failed: bool)
    requires Spacious(queries, limit, results, Rows(items, time, results))
    ensures var batches := Batches(|queries.output|, limit, Rows(items, time, results));
            && plain == Statements(queries.output, batches, queries.suffix)
            && boosted == if boost then Statements(queries.boostOutput, batches, queries.suffix) else []
    ensures failed <==> Rejected(accepts, |plain| + |boosted|)
  {
    plain, boosted, failed := [], [], false;
    var text, boostText := queries.output, queries.boostOutput;
    var outBuffer: nat, newBuffer := |queries.output|, true;
    assert items[..0] == [];
    for i := 0 to |items|
      invariant Progress(queries, PackAll(|queries.output|, limit, Rows(items[..i], time, results)), boost,
                         text, boostText, plain, boosted, outBuffer, newBuffer)
      invariant failed <==> Rejected(accepts, |plain| + |boosted|)
    {
      text, boostText, plain, boosted, failed, outBuffer, newBuffer := WriteItem(queries, limit, results, boost,
        items, i, items[i], time, text, boostText, plain, boosted, accepts, failed, outBuffer, newBuffer);
    }
    assert items[..|items|] == items;
    ghost var p := PackAll(|queries.output|, limit, Rows(items, time, results));
    assert outBuffer > |queries.output| <==> p.filling != [] by {
      RowsNonEmpty(items, time, results);
      WaitingHasLength(|queries.output|, limit, Rows(items, time, results));
    }
    if outBuffer > |queries.output| {
      PackFits(queries, limit, results, Rows(items, time, results));
      plain, boosted, failed :=
        FlushTables(queries, limit, results, boost, p, text, boostText, plain, boosted, accepts, failed);
    }
  }

  /** In a roomy build no statement is sent without rows, and each is a nonempty run of formatted rows. */
  lemma NoEmptyStatement(queries: Queries, items: seq<Item>, time: string, limit: nat, results: nat)
    requires Roomy(queries, limit, results)
    ensures [] !in Batches(|queries.output|, limit, Rows(items, time, results))
  {
    var rows := Rows(items, time, results);
    RowsFit(items, time, results);
    EmptyBatchIff(|queries.output|, limit, rows);
  }

  /** With a good timestamp every item is written, in order; with a bad one nothing is sent. */
  lemma AllOrNothing(items: seq<Item>, time: string, results: nat)
    requires |time| < 40 && forall i | 0 <= i < |items| :: Escaped(items[i], results)
    ensures var rows := Rows(items, time, results);
            if Timestamp(time)
            then |rows| == |items| && forall i | 0 <= i < |items| :: rows[i] == RowText(items[i], time)
            else rows == []
  {
    if Timestamp(time) {
      forall i | 0 <= i < |items|
        ensures i < |Rows(items, time, results)| && Rows(items, time, results)[i] == RowText(items[i], time)
      {
        RowAt(items, time, results, i);
      }
    }
    RowCount(items, time, results);
  }

  lemma GoodRow(item: Item, time: string, results: nat)
    requires |time| < 40 && Escaped(item, results)
    ensures RowsOf(item, time, results) == if Timestamp(time) then [RowText(item, time)] else []
  {
    SkippedOnlyForTime(item, time, results);
  }

  lemma {:induction false} RowCount(items: seq<Item>, time: string, results: nat)
    requires |time| < 40 && forall i | 0 <= i < |items| :: Escaped(items[i], results)
    ensures |Rows(items, time, results)| == if Timestamp(time) then |items| else 0
  {
    if items != [] {
      var n := |items| - 1;
      RowCount(items[..n], time, results);
      assert |RowsOf(items[n], time, results)| == (if Timestamp(time) then 1 else 0) by {
        GoodRow(items[n], time, results);
      }
    }
  }

  lemma {:induction false} RowAt(items: seq<Item>, time: string, results: nat, i: nat)
    requires |time| < 40 && Timestamp(time) && i < |items| && forall i | 0 <= i < |items| :: Escaped(items[i], results)
    ensures var rows := Rows(items, time, results); i < |rows| && rows[i] == RowText(items[i], time)
  {
    var n := |items| - 1;
    var rest := items[..n];
    assert Rows(items, time, results) == Rows(rest, time, results) + RowsOf(items[n], time, results);
    assert |Rows(rest, time, results)| == n by { RowCount(rest, time, results); }
    if i < n {
      assert rest[i] == items[i];
      RowAt(rest, time, results, i);
    } else {
      assert RowsOf(items[n], time, results) == [RowText(items[n], time)] by { GoodRow(items[n], time, results); }
    }
  }

  const MAX_MYSQL_BUF_SIZE: nat := 131072
  const RESULTS_BUFFER: nat := 2048

  function DefaultQueries(): Queries {
    Queries("INSERT INTO poller_output (local_data_id, rrd_name, time, output) VALUES",
            "INSERT INTO poller_output_boost (local_data_id, rrd_name, time, output) VALUES",
            " ON DUPLICATE KEY UPDATE output=VALUES(output)")
  }

  /** A roomy build has the space the writer needs, whatever the items. */
  lemma RoomyIsSpacious(queries: Queries, items: seq<Item>, time: string, limit: nat, results: nat)
    requires Roomy(queries, limit, results)
    ensures Spacious(queries, limit, results, Rows(items, time, results))
  {
    RowsFit(items, time, results);
  }

  /** A build whose rows fit the statement buffers without fitting the limit. */
  const LARGE_RESULTS: nat := 65536

  lemma LargeResultsAreSpacious(items: seq<Item>, time: string)
    ensures !Roomy(DefaultQueries(), MAX_MYSQL_BUF_SIZE, LARGE_RESULTS)
    ensures Spacious(DefaultQueries(), MAX_MYSQL_BUF_SIZE, LARGE_RESULTS, Rows(items, time, LARGE_RESULTS))
  {
    RowsFit(items, time, LARGE_RESULTS);
    DefaultLengths();
  }

  /**
   In such a build, with a prefix as long as the default one, a long first value makes the writer send a
   statement without rows. A result of up to one byte less than its buffer escapes to at most twice that.
   */
  lemma LongFirstRowSendsEmpty(queries: Queries, items: seq<Item>, time: string)
    requires |queries.output| == 72 && |time| < 40 && Timestamp(time)
    requires items != [] && 131000 <= |items[0].result| <= 2 * (LARGE_RESULTS - 1)
    requires forall i | 0 <= i < |items| :: Escaped(items[i], LARGE_RESULTS)
    ensures [] in Batches(|queries.output|, MAX_MYSQL_BUF_SIZE, Rows(items, time, LARGE_RESULTS))
  {
    RowAt(items, time, LARGE_RESULTS, 0);
    assert |RowText(items[0], time)| > |items[0].result|;
    EmptyBatchIff(|queries.output|, MAX_MYSQL_BUF_SIZE, Rows(items, time, LARGE_RESULTS));
  }

  lemma DefaultLengths()
    ensures |DefaultQueries().output| == 72 && |DefaultQueries().boostOutput| == 78 && |DefaultQueries().suffix| == 46
  {
  }

  /** The default build is roomy, so it never overflows either buffer. */
  lemma DefaultBuildIsRoomy()
    ensures Roomy(DefaultQueries(), MAX_MYSQL_BUF_SIZE, RESULTS_BUFFER)
  {
    DefaultLengths();
  }
}
