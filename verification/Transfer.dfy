/**
 Copying status rows to the main server: each row is printed into a row buffer, rows
 are packed into insert statements within a row limit and a fixed statement buffer,
 and printing past a buffer is fatal to the process.
 */
module Transfer {

  import opened OutputWriter

  const ESCAPED_BUFFER := 4096
  const STATEMENT_BUFFER: nat := 2048000

  datatype Option<T> = None | Some(value: T)

  /** The result of printing into a buffer: the new text, or the fatal exit. */
  datatype Printed = Fits(text: string) | Fatal

  /** spine_snprintf at the end of a buffer's text. */
  function Print(text: string, piece: string, capacity: nat): Printed {
    if |text| + |piece| < capacity then Fits(text + piece) else Fatal
  }

  /** One column of a fetched row, already escaped. */
  type Field = Option<string>

  /** The escape buffer admits half its size of input, which escaping at most doubles. */
  predicate EscapedField(f: Field) {
    f.Some? ==> |f.value| <= (ESCAPED_BUFFER - 1) / 2 * 2
  }

  function FieldText(f: Field, first: bool): string {
    (if first then "" else ", ") + if f.None? then "NULL" else "'" + f.value + "'"
  }

  function FieldsText(fields: seq<Field>): string {
    if fields == [] then []
    else FieldsText(fields[..|fields| - 1]) + FieldText(fields[|fields| - 1], |fields| == 1)
  }

  function RowSql(fields: seq<Field>): string {
    "(" + FieldsText(fields) + ")"
  }

  function RowCapacityFor(fieldCount: nat): nat {
    fieldCount * (ESCAPED_BUFFER + 4) + 2
  }

  lemma {:induction false} FieldsLength(fields: seq<Field>)
    requires forall i | 0 <= i < |fields| :: EscapedField(fields[i])
    ensures |FieldsText(fields)| <= |fields| * (ESCAPED_BUFFER + 2)
  {
    if fields != [] { FieldsLength(fields[..|fields| - 1]); }
  }

  /** The text so far grows by one column and stays short of the row buffer. */
  lemma FieldsStep(fields: seq<Field>, i: nat)
    requires i < |fields| && forall k | 0 <= k < |fields| :: EscapedField(fields[k])
    ensures "(" + FieldsText(fields[..i + 1]) == "(" + FieldsText(fields[..i]) + FieldText(fields[i], i == 0)
    ensures |FieldsText(fields[..i + 1])| + 2 < RowCapacityFor(|fields|)
  {
    assert fields[..i + 1][..i] == fields[..i];
    Associative("(", FieldsText(fields[..i]), FieldText(fields[i], i == 0));
    FieldsLength(fields[..i + 1]);
    assert (i + 1) * (ESCAPED_BUFFER + 2) <= |fields| * (ESCAPED_BUFFER + 2);
  }

  lemma RowLength(fields: seq<Field>)
    requires fields != [] && forall k | 0 <= k < |fields| :: EscapedField(fields[k])
    ensures |FieldsText(fields)| + 2 < RowCapacityFor(|fields|)
  {
    FieldsStep(fields, |fields| - 1);
    assert fields[..|fields|] == fields;
  }

  /** The row buffer after the first i columns. */
  predicate RowSoFar(fields: seq<Field>, i: nat, row: Printed) {
    i <= |fields| && row == Fits("(" + FieldsText(fields[..i]))
  }

  lemma RowStarts(fields: seq<Field>)
    requires fields != []
    ensures RowSoFar(fields, 0, Print("", "(", RowCapacityFor(|fields|)))
  {
    assert "" + "(" == "(" + FieldsText(fields[..0]);
  }

  lemma RowGrows(fields: seq<Field>, i: nat, row: Printed)
    requires i < |fields| && RowSoFar(fields, i, row) && forall k | 0 <= k < |fields| :: EscapedField(fields[k])
    ensures RowSoFar(fields, i + 1, Print(row.text, FieldText(fields[i], i == 0), RowCapacityFor(|fields|)))
  {
    FieldsStep(fields, i);
  }

  lemma RowEnds(fields: seq<Field>, row: Printed)
    requires fields != [] && RowSoFar(fields, |fields|, row) && forall k | 0 <= k < |fields| :: EscapedField(fields[k])
    ensures Print(row.text, ")", RowCapacityFor(|fields|)) == Fits(RowSql(fields))
    ensures |RowSql(fields)| < RowCapacityFor(|fields|)
  {
    RowLength(fields);
    assert fields[..|fields|] == fields;
  }

  /** transfer_row: with at least one column the fatal exit is unreachable. */
  method TransferRow(fields: seq<Field>) returns (row: Printed)
    requires fields != [] && forall i | 0 <= i < |fields| :: EscapedField(fields[i])
    ensures row == Fits(RowSql(fields)) && |RowSql(fields)| < RowCapacityFor(|fields|)
  {
    var capacity := RowCapacityFor(|fields|);
    RowStarts(fields);
    row := Print("", "(", capacity);
    for i := 0 to |fields|
      invariant RowSoFar(fields, i, row)
    {
      RowGrows(fields, i, row);
      row := Print(row.text, FieldText(fields[i], i == 0), capacity);
    }
    RowEnds(fields, row);
    row := Print(row.text, ")", capacity);
  }

  // ---- Packing rows ----

  datatype Plan = Plan(fieldCount: nat, rowLimit: nat, prefix: string, suffix: string)

  /** Rows separated by commas. */
  function Listed(batch: seq<string>): string {
    if batch == [] then []
    else if |batch| == 1 then batch[0]
    else Listed(batch[..|batch| - 1]) + (", " + batch[|batch| - 1])
  }

  function Insert(plan: Plan, batch: seq<string>): string {
    plan.prefix + Listed(batch) + plan.suffix
  }

  /** The row does not go into the batch: it has its fill, or the statement buffer has. */
  predicate Full(plan: Plan, batch: seq<string>, row: string) {
    batch != [] &&
    (|batch| == plan.rowLimit ||
     |row| + |plan.suffix| + 3 > STATEMENT_BUFFER - (|plan.prefix| + |Listed(batch)|))
  }

  function Fill(plan: Plan, p: Packing, row: string): Packing {
    if Full(plan, p.filling, row) then Packing(p.done + [p.filling], [row])
    else p.(filling := p.filling + [row])
  }

  function FillAll(plan: Plan, rows: seq<string>): Packing {
    if rows == [] then Packing([], [])
    else Fill(plan, FillAll(plan, rows[..|rows| - 1]), rows[|rows| - 1])
  }

  function Batched(plan: Plan, rows: seq<string>): seq<seq<string>> {
    var p := FillAll(plan, rows);
    if p.filling == [] then p.done else p.done + [p.filling]
  }

  lemma FillStep(plan: Plan, rows: seq<string>, row: string)
    ensures FillAll(plan, rows + [row]) == Fill(plan, FillAll(plan, rows), row)
  {
    assert (rows + [row])[..|rows|] == rows;
  }

  lemma FillAddsRow(plan: Plan, p: Packing, row: string)
    ensures Content(Fill(plan, p, row)) == Content(p) + [row]
  {
    FlatAppend(p.done, p.filling);
    Associative(Flat(p.done), p.filling, [row]);
  }

  function Content(p: Packing): seq<string> {
    Flat(p.done) + p.filling
  }

  lemma {:induction false} FillKeepsRows(plan: Plan, rows: seq<string>)
    ensures Content(FillAll(plan, rows)) == rows
  {
    if rows != [] {
      var rest, row := rows[..|rows| - 1], rows[|rows| - 1];
      calc {
        Content(FillAll(plan, rows));
        Content(Fill(plan, FillAll(plan, rest), row));
        { FillAddsRow(plan, FillAll(plan, rest), row); }
        Content(FillAll(plan, rest)) + [row];
        { FillKeepsRows(plan, rest); }
        rest + [row];
        rows;
      }
    }
  }

  /** The batches, in order, are exactly the rows. */
  lemma BatchedIsAll(plan: Plan, rows: seq<string>)
    ensures Flat(Batched(plan, rows)) == rows
  {
    FillKeepsRows(plan, rows);
    var p := FillAll(plan, rows);
    FlatAppend(p.done, p.filling);
  }

  /** A batch the plan allows: some rows, no more than the limit, in a statement that fits with its end. */
  predicate Sendable(plan: Plan, batch: seq<string>) {
    0 < |batch| <= plan.rowLimit && |Insert(plan, batch)| < STATEMENT_BUFFER
  }

  /** Any single row fits beside the fixed texts. */
  predicate Ample(plan: Plan) {
    && plan.fieldCount > 0 && plan.rowLimit > 0
    && |plan.prefix| + RowCapacityFor(plan.fieldCount) + |plan.suffix| <= STATEMENT_BUFFER
  }

  predicate RowFits(plan: Plan, row: string) {
    |row| < RowCapacityFor(plan.fieldCount)
  }

  lemma ListedAppend(batch: seq<string>, row: string)
    ensures batch != [] ==> Listed(batch + [row]) == Listed(batch) + (", " + row)
    ensures Listed([row]) == row
  {
    assert (batch + [row])[..|batch|] == batch;
  }

  /** A list of rows is its parts with a comma and a blank between them, wherever it is split. */
  lemma {:induction false} ListedSplit(a: seq<string>, b: seq<string>)
    requires a != [] && b != []
    ensures Listed(a + b) == Listed(a) + (", " + Listed(b))
    decreases |b|
  {
    var rest, row := b[..|b| - 1], b[|b| - 1];
    if rest == [] {
      ListedAppend(a, row);
      assert b == [row];
    } else {
      ListedSplit(a, rest);
      assert a + b == (a + rest) + [row] && b == rest + [row];
      ListedAppend(a + rest, row);
      ListedAppend(rest, row);
      assert Listed(a) + (", " + Listed(rest)) + (", " + row) == Listed(a) + (", " + (Listed(rest) + (", " + row)));
    }
  }

  lemma FillSendable(plan: Plan, p: Packing, row: string)
    requires Ample(plan) && RowFits(plan, row) && (p.filling == [] || Sendable(plan, p.filling))
    ensures Sendable(plan, Fill(plan, p, row).filling)
  {
    ListedAppend(p.filling, row);
  }

  lemma {:induction false} FilledSendable(plan: Plan, rows: seq<string>)
    requires Ample(plan) && forall k | 0 <= k < |rows| :: RowFits(plan, rows[k])
    ensures var p := FillAll(plan, rows);
            && (if rows == [] then p.filling == [] else Sendable(plan, p.filling))
            && forall k | 0 <= k < |p.done| :: Sendable(plan, p.done[k])
  {
    if rows != [] {
      var rest, row := rows[..|rows| - 1], rows[|rows| - 1];
      FilledSendable(plan, rest);
      FillSendable(plan, FillAll(plan, rest), row);
    }
  }

  /** Every batch has at least one row and at most the limit, and its statement fits with the terminator. */
  lemma BatchedSendable(plan: Plan, rows: seq<string>, k: nat)
    requires Ample(plan) && (forall i | 0 <= i < |rows| :: RowFits(plan, rows[i])) && k < |Batched(plan, rows)|
    ensures Sendable(plan, Batched(plan, rows)[k])
  {
    FilledSendable(plan, rows);
  }

  /** A batch ends only when the next row could not join it. */
  lemma {:induction false} BatchedMaximal(plan: Plan, rows: seq<string>, k: nat)
    requires 0 < k < |Batched(plan, rows)|
    ensures var b := Batched(plan, rows); b[k] != [] && Full(plan, b[k - 1], b[k][0])
    decreases |rows|
  {
    var rest, row := rows[..|rows| - 1], rows[|rows| - 1];
    var p := FillAll(plan, rest);
    if k < |Batched(plan, rest)| { BatchedMaximal(plan, rest, k); }
  }

  lemma {:induction false} DoneGrows(plan: Plan, rows: seq<string>, n: nat)
    requires n <= |rows|
    ensures FillAll(plan, rows[..n]).done <= FillAll(plan, rows).done
    decreases |rows|
  {
    if n == |rows| {
      assert rows[..n] == rows;
    } else {
      DoneGrows(plan, rows[..|rows| - 1], n);
      assert rows[..|rows| - 1][..n] == rows[..n];
    }
  }

  // ---- The transfer ----

  predicate AllAccepted(accepts: nat -> bool, n: nat) {
    forall k: nat | k < n :: accepts(k)
  }

  /** The number of statements sent of n: sending stops after the first rejected one. */
  function Attempts(accepts: nat -> bool, n: nat): (m: nat)
    ensures m <= n
  {
    if n == 0 then 0
    else
      var m := Attempts(accepts, n - 1);
      if m == n - 1 && (m == 0 || accepts(m - 1)) then n else m
  }

  /** Everything is sent when all but perhaps the last are accepted. */
  lemma {:induction false} AttemptsAll(accepts: nat -> bool, n: nat)
    requires n > 0 ==> AllAccepted(accepts, n - 1)
    ensures Attempts(accepts, n) == n
  {
    if n > 0 { AttemptsAll(accepts, n - 1); }
  }

  /** A rejected statement is the last one sent. */
  lemma {:induction false} AttemptsRejected(accepts: nat -> bool, n: nat, total: nat)
    requires AllAccepted(accepts, n) && n < total && !accepts(n)
    ensures Attempts(accepts, total) == n + 1
  {
    if n + 1 == total { AttemptsAll(accepts, total); } else { AttemptsRejected(accepts, n, total - 1); }
  }

  function Inserts(plan: Plan, batches: seq<seq<string>>): seq<string> {
    if batches == [] then [] else Inserts(plan, batches[..|batches| - 1]) + [Insert(plan, batches[|batches| - 1])]
  }

  lemma InsertsAppend(plan: Plan, batches: seq<seq<string>>, b: seq<string>)
    ensures Inserts(plan, batches + [b]) == Inserts(plan, batches) + [Insert(plan, b)]
  {
    assert (batches + [b])[..|batches|] == batches;
  }

  datatype Outcome = Finished(success: bool) | Died

  /** What a run has sent when the rows so far are packed and nothing was rejected. */
  predicate Sent(plan: Plan, p: Packing, buffer: string, rows: nat, sent: seq<string>, accepts: nat -> bool) {
    && rows == |p.filling|
    && (rows > 0 ==> buffer == plan.prefix + Listed(p.filling))
    && sent == Inserts(plan, p.done) && AllAccepted(accepts, |p.done|)
  }

  /** Puts one row at the end of the statement being built, starting it first when it is empty. */
  method AddRow(plan: Plan, buffer: string, row: string, rows: nat, ghost batch: seq<string>) returns (r: Printed)
    requires Ample(plan) && RowFits(plan, row) && rows == |batch|
    requires rows > 0 ==> buffer == plan.prefix + Listed(batch)
    requires !Full(plan, batch, row)
    ensures r == Fits(plan.prefix + Listed(batch + [row])) && |r.text| + |plan.suffix| < STATEMENT_BUFFER
  {
    ListedAppend(batch, row);
    if rows == 0 {
      r := Print("", plan.prefix, STATEMENT_BUFFER);
      assert [] + plan.prefix == plan.prefix && batch + [row] == [row];
    } else {
      r := Print(buffer, ", ", STATEMENT_BUFFER);
      Associative(plan.prefix, Listed(batch), ", " + row);
      Associative(buffer, ", ", row);
    }
    if r.Fatal? { return; }
    r := Print(r.text, row, STATEMENT_BUFFER);
  }

  /** The statements sent and the verdict that a plan, the fetched rows and the servers determine. */
  predicate Transferred(plan: Plan, rows: seq<string>, sourceFailed: bool, accepts: nat -> bool,
                        sent: seq<string>, success: bool)
  {
    var whole := Batched(plan, rows);
    var batches := if sourceFailed then FillAll(plan, rows).done else whole;
    && sent == Inserts(plan, batches[..Attempts(accepts, |batches|)])
    && (success <==> !sourceFailed && AllAccepted(accepts, |whole|))
  }

  /** A batch that is sent while rows still come is one of the finished batches. */
  lemma SentIsDone(plan: Plan, rows: seq<string>, n: nat)
    requires n < |rows| && Full(plan, FillAll(plan, rows[..n]).filling, rows[n])
    ensures var p := FillAll(plan, rows[..n]); p.done + [p.filling] <= FillAll(plan, rows).done
  {
    RowsPrefix(rows, n);
    FillStep(plan, rows[..n], rows[n]);
    DoneGrows(plan, rows, n + 1);
  }

  lemma DoneIsBatched(plan: Plan, rows: seq<string>)
    ensures FillAll(plan, rows).done <= Batched(plan, rows)
  {
  }

  lemma TakePrefix(batches: seq<seq<string>>, upTo: seq<seq<string>>)
    requires upTo <= batches
    ensures batches[..|upTo|] == upTo
  {
  }

  /** Of batches that begin with those sent, of which only the last is rejected, just those are sent. */
  lemma StopsAt(batches: seq<seq<string>>, upTo: seq<seq<string>>, accepts: nat -> bool)
    requires upTo != [] && upTo <= batches && AllAccepted(accepts, |upTo| - 1) && !accepts(|upTo| - 1)
    ensures batches[..Attempts(accepts, |batches|)] == upTo
  {
    AttemptsRejected(accepts, |upTo| - 1, |batches|);
    TakePrefix(batches, upTo);
  }

  /** A rejected batch ends the transfer: what was sent is everything up to and including it. */
  lemma RejectedEnds(plan: Plan, rows: seq<string>, n: nat, sourceFailed: bool, accepts: nat -> bool)
    requires n < |rows|
    requires var p := FillAll(plan, rows[..n]);
             Full(plan, p.filling, rows[n]) && AllAccepted(accepts, |p.done|) && !accepts(|p.done|)
    ensures var p := FillAll(plan, rows[..n]);
            Transferred(plan, rows, sourceFailed, accepts, Inserts(plan, p.done + [p.filling]), false)
  {
    var p := FillAll(plan, rows[..n]);
    var upTo := p.done + [p.filling];
    var done, whole := FillAll(plan, rows).done, Batched(plan, rows);
    SentIsDone(plan, rows, n);
    DoneIsBatched(plan, rows);
    assert !AllAccepted(accepts, |whole|) by { assert |p.done| < |whole|; }
    assert upTo <= whole;
    StopsAt(done, upTo, accepts);
    StopsAt(whole, upTo, accepts);
  }

  lemma AllSent(batches: seq<seq<string>>, accepts: nat -> bool)
    requires batches != [] ==> AllAccepted(accepts, |batches| - 1)
    ensures batches[..Attempts(accepts, |batches|)] == batches
  {
    AttemptsAll(accepts, |batches|);
  }

  lemma AcceptedNext(accepts: nat -> bool, n: nat)
    ensures AllAccepted(accepts, n + 1) <==> AllAccepted(accepts, n) && accepts(n)
  {
  }

  /** After the last row the waiting batch goes out. */
  lemma EndsWithBatch(plan: Plan, rows: seq<string>, accepts: nat -> bool)
    requires var p := FillAll(plan, rows); AllAccepted(accepts, |p.done|) && p.filling != []
    ensures var p := FillAll(plan, rows);
            Transferred(plan, rows, false, accepts, Inserts(plan, p.done + [p.filling]), accepts(|p.done|))
  {
    var p := FillAll(plan, rows);
    var whole := p.done + [p.filling];
    assert Batched(plan, rows) == whole;
    AcceptedNext(accepts, |p.done|);
    AllSent(whole, accepts);
  }

  /** Nothing is waiting, or the source failed and what is waiting is dropped. */
  lemma EndsWithoutBatch(plan: Plan, rows: seq<string>, sourceFailed: bool, accepts: nat -> bool)
    requires var p := FillAll(plan, rows); AllAccepted(accepts, |p.done|) && (sourceFailed || p.filling == [])
    ensures Transferred(plan, rows, sourceFailed, accepts, Inserts(plan, FillAll(plan, rows).done), !sourceFailed)
  {
    AllSent(FillAll(plan, rows).done, accepts);
  }

  function RowsSql(rows: seq<seq<Field>>): seq<string> {
    if rows == [] then [] else RowsSql(rows[..|rows| - 1]) + [RowSql(rows[|rows| - 1])]
  }

  lemma {:induction false} RowsSqlAt(rows: seq<seq<Field>>, n: nat)
    requires n <= |rows|
    ensures |RowsSql(rows)| == |rows| && RowsSql(rows)[..n] == RowsSql(rows[..n])
    ensures forall k | 0 <= k < |rows| :: RowsSql(rows)[k] == RowSql(rows[k])
    decreases |rows|
  {
    if rows != [] {
      var rest := rows[..|rows| - 1];
      RowsSqlAt(rest, if n < |rows| then n else |rows| - 1);
      if n < |rows| {
        assert rest[..n] == rows[..n];
      } else {
        assert rows[..n] == rows;
      }
    }
  }

  /** Every fetched row has the plan's columns, escaped. */
  predicate Fetched(plan: Plan, rows: seq<seq<Field>>) {
    forall i | 0 <= i < |rows| ::
      |rows[i]| == plan.fieldCount && forall k | 0 <= k < |rows[i]| :: EscapedField(rows[i][k])
  }

  /** transfer_batch: completes the statement and sends it. */
  method SendBatch(plan: Plan, buffer: string, ghost batch: seq<string>, ghost done: seq<seq<string>>,
                   sent: seq<string>)
    returns (r: Printed, sent': seq<string>)
    requires buffer == plan.prefix + Listed(batch) && |buffer| + |plan.suffix| < STATEMENT_BUFFER
    requires sent == Inserts(plan, done)
    ensures r == Fits(Insert(plan, batch)) && sent' == Inserts(plan, done + [batch])
  {
    InsertsAppend(plan, done, batch);
    r := Print(buffer, plan.suffix, STATEMENT_BUFFER);
    sent' := sent + [r.text];
  }

  lemma InsertsCount(plan: Plan, batches: seq<seq<string>>)
    ensures |Inserts(plan, batches)| == |batches|
  {
    if batches != [] { InsertsCount(plan, batches[..|batches| - 1]); }
  }

  /** What has been sent and is waiting, with room kept for the statement's end. */
  predicate Underway(plan: Plan, p: Packing, buffer: string, waiting: nat, sent: seq<string>, accepts: nat -> bool) {
    Sent(plan, p, buffer, waiting, sent, accepts) && (waiting > 0 ==> |buffer| + |plan.suffix| < STATEMENT_BUFFER)
  }

  /** One row of the loop: sends the waiting batch when it is full, then adds the row. */
  method PlaceRow(plan: Plan, row: string, ghost p: Packing, buffer: string, waiting: nat, sent: seq<string>,
                  accepts: nat -> bool)
    returns (r: Printed, waiting': nat, sent': seq<string>, rejected: bool)
    requires Ample(plan) && RowFits(plan, row) && Underway(plan, p, buffer, waiting, sent, accepts)
    ensures r.Fits?
    ensures rejected ==>
            Full(plan, p.filling, row) && !accepts(|p.done|) && sent' == Inserts(plan, p.done + [p.filling])
    ensures !rejected ==> Underway(plan, Fill(plan, p, row), r.text, waiting', sent', accepts)
  {
    waiting', sent', rejected := waiting, sent, false;
    ghost var batch := p.filling;
    if waiting > 0 && (waiting == plan.rowLimit || |row| + |plan.suffix| + 3 > STATEMENT_BUFFER - |buffer|) {
      r, sent' := SendBatch(plan, buffer, p.filling, p.done, sent);
      if r.Fatal? { return; }
      InsertsCount(plan, p.done + [p.filling]);
      rejected := !accepts(|sent'| - 1);
      if rejected { return; }
      waiting', batch := 0, [];
    }
    r := AddRow(plan, buffer, row, waiting', batch);
    waiting' := waiting' + 1;
  }

  /**
   transfer_table, from the rows the source gave before it ended or failed. accepts tells of each
   statement whether the main server took it. Printing never runs past a buffer.
   */
  method TransferTable(plan: Plan, rows: seq<seq<Field>>, sourceFailed: bool, accepts: nat -> bool)
    returns (outcome: Outcome, sent: seq<string>)
    requires Ample(plan) && Fetched(plan, rows)
    ensures outcome.Finished? && Transferred(plan, RowsSql(rows), sourceFailed, accepts, sent, outcome.success)
  {
    var buffer, waiting: nat, rejected := "", 0, false;
    sent := [];
    ghost var all := RowsSql(rows);
    RowsSqlAt(rows, 0);
    for i := 0 to |rows|
      invariant |all| == |rows| && Underway(plan, FillAll(plan, all[..i]), buffer, waiting, sent, accepts)
    {
      RowsSqlAt(rows, i);
      RowsPrefix(all, i);
      FillStep(plan, all[..i], all[i]);
      var printed := TransferRow(rows[i]);
      if printed.Fatal? { return Died, sent; }
      var placed;
      placed, waiting, sent, rejected :=
        PlaceRow(plan, printed.text, FillAll(plan, all[..i]), buffer, waiting, sent, accepts);
      if placed.Fatal? { return Died, sent; }
      if rejected {
        RejectedEnds(plan, all, i, sourceFailed, accepts);
        return Finished(false), sent;
      }
      buffer := placed.text;
    }
    assert all[..|rows|] == all;
    ghost var p := FillAll(plan, all);
    if !sourceFailed && waiting > 0 {
      EndsWithBatch(plan, all, accepts);
      var result;
      result, sent := SendBatch(plan, buffer, p.filling, p.done, sent);
      InsertsCount(plan, p.done + [p.filling]);
      if result.Fatal? { return Died, sent; }
      return Finished(accepts(|sent| - 1)), sent;
    }
    EndsWithoutBatch(plan, all, sourceFailed, accepts);
    outcome := Finished(!sourceFailed);
  }

  lemma RowsPrefix(rows: seq<string>, i: nat)
    requires i < |rows|
    ensures rows[..i + 1] == rows[..i] + [rows[i]]
  {
  }

  lemma {:induction false} FlatPrefix(batches: seq<seq<string>>, k: nat)
    requires k <= |batches|
    ensures Flat(batches[..k]) <= Flat(batches)
    decreases |batches|
  {
    if k < |batches| {
      var rest := batches[..|batches| - 1];
      FlatPrefix(rest, k);
      assert rest[..k] == batches[..k];
    } else {
      assert batches[..k] == batches;
    }
  }

  /** What goes out is a prefix of the rows in source order, and all of them, every statement accepted, on success. */
  lemma RowsArriveInOrder(plan: Plan, rows: seq<string>, sourceFailed: bool, accepts: nat -> bool, sent: seq<string>,
                          success: bool)
      returns (batches: seq<seq<string>>)
    requires Transferred(plan, rows, sourceFailed, accepts, sent, success)
    ensures sent == Inserts(plan, batches) && Flat(batches) <= rows
    ensures success ==> Flat(batches) == rows && AllAccepted(accepts, |batches|)
  {
    var done, whole := FillAll(plan, rows).done, Batched(plan, rows);
    BatchedIsAll(plan, rows);
    var all := if sourceFailed then done else whole;
    batches := all[..Attempts(accepts, |all|)];
    FlatPrefix(whole, |done|);
    assert whole[..|done|] == done;
    FlatPrefix(all, |batches|);
    if success { AllSent(whole, accepts); }
  }

  /** Both tables' plans leave room for any row: prefix and suffix are printed into buffers of 1024 bytes. */
  lemma PlansAreAmple(prefix: string, suffix: string)
    requires |prefix| < 1024 && |suffix| < 1024
    ensures Ample(Plan(21, 500, prefix, suffix)) && Ample(Plan(5, 10000, prefix, suffix))
  {
  }
}
