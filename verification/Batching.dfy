/** Bounded requests: lookup parameters, insert chunks, and the writer that coalesces inserts. */
module Batching {
  import opened Options
  import opened OutputTables

  /** `ClickHouse::new` refuses a zero batch size or event size, and a batch smaller than an event. */
  datatype Limits = Limits(batchSize: nat, maxBatchBytes: nat, maxEventBytes: nat) {
    predicate Valid() { batchSize > 0 && maxEventBytes > 0 && maxBatchBytes >= maxEventBytes }
  }

  lemma {:induction false} FlattenAppend<T>(parts: seq<seq<T>>, last: seq<T>)
    ensures Flatten(parts + [last]) == Flatten(parts) + last
  {
    if parts == [] {
      assert [last][1..] == [];
      assert Flatten([last]) == last;
      assert parts + [last] == [last];
    } else {
      assert (parts + [last])[1..] == parts[1..] + [last];
      FlattenAppend(parts[1..], last);
    }
  }

  function Sum<T>(rows: seq<T>, size: T -> nat): nat {
    if rows == [] then 0 else size(rows[0]) + Sum(rows[1..], size)
  }

  lemma {:induction false} SumAppend<T>(a: seq<T>, b: seq<T>, size: T -> nat)
    ensures Sum(a + b, size) == Sum(a, size) + Sum(b, size)
  {
    if a == [] {
      assert a + b == b;
    } else {
      assert (a + b)[1..] == a[1..] + b;
      SumAppend(a[1..], b, size);
    }
  }

  // ----- lookup parameters -----

  /** Bytes of a JSON array: two brackets, the rows, and the commas between them. */
  function ArrayBytes<T>(rows: seq<T>, size: T -> nat): nat {
    if rows == [] then 2 else 1 + Sum(rows, size) + |rows|
  }

  ghost predicate Fits<T>(group: seq<T>, size: T -> nat, maxRows: nat, maxBytes: nat) {
    group != [] && (|group| <= maxRows || |group| == 1) && ArrayBytes(group, size) <= maxBytes
  }

  /** A group was closed only because the first row of the next one would not have fitted. */
  ghost predicate Closed<T>(group: seq<T>, next: seq<T>, size: T -> nat, maxRows: nat, maxBytes: nat) {
    next != [] && (|group| >= maxRows || ArrayBytes(group + [next[0]], size) > maxBytes)
  }

  ghost predicate Packed<T>(groups: seq<seq<T>>, size: T -> nat, maxRows: nat, maxBytes: nat) {
    && (forall i :: 0 <= i < |groups| ==> Fits(groups[i], size, maxRows, maxBytes))
    && (forall i :: 0 <= i < |groups| - 1 ==> Closed(groups[i], groups[i + 1], size, maxRows, maxBytes))
  }

  lemma ArrayBytesAppend<T>(group: seq<T>, row: T, size: T -> nat)
    ensures ArrayBytes(group + [row], size) == ArrayBytes(group, size) + size(row) + (if group == [] then 0 else 1)
  {
    SumAppend(group, [row], size);
  }

  lemma PackedExtend<T>(full: seq<seq<T>>, group: seq<T>, row: T, size: T -> nat, maxRows: nat, maxBytes: nat)
    requires group != [] && Packed(full + [group], size, maxRows, maxBytes)
    requires |group| < maxRows && ArrayBytes(group + [row], size) <= maxBytes
    ensures Packed(full + [group + [row]], size, maxRows, maxBytes)
  {
    var before, after := full + [group], full + [group + [row]];
    forall i | 0 <= i < |after| - 1 ensures Closed(after[i], after[i + 1], size, maxRows, maxBytes) {
      assert Closed(before[i], before[i + 1], size, maxRows, maxBytes);
    }
    forall i | 0 <= i < |after| ensures Fits(after[i], size, maxRows, maxBytes) {
      assert i < |full| ==> after[i] == before[i];
    }
  }

  lemma PackedOpen<T>(full: seq<seq<T>>, row: T, size: T -> nat, maxRows: nat, maxBytes: nat)
    requires Packed(full, size, maxRows, maxBytes) && size(row) + 2 <= maxBytes
    requires full != [] ==> Closed(full[|full| - 1], [row], size, maxRows, maxBytes)
    ensures Packed(full + [[row]], size, maxRows, maxBytes)
  {
    ArrayBytesAppend([], row, size);
    assert [] + [row] == [row];
  }

  method ParameterBatches<T>(rows: seq<T>, size: T -> nat, maxRows: nat, maxBytes: nat)
    returns (batches: Option<seq<seq<T>>>)
    ensures batches.None? <==> exists i :: 0 <= i < |rows| && size(rows[i]) + 2 > maxBytes
    ensures batches.Some? ==> Flatten(batches.value) == rows && Packed(batches.value, size, maxRows, maxBytes)
  {
    var full: seq<seq<T>> := [];
    var group: seq<T> := [];
    var bytes := 1;  // the opening bracket
    for i := 0 to |rows|
      invariant Flatten(full) + group == rows[..i]
      invariant group == [] ==> full == []
      invariant bytes == ArrayBytes(group, size) - 1
      invariant group != [] ==> Packed(full + [group], size, maxRows, maxBytes)
      invariant forall k :: 0 <= k < i ==> size(rows[k]) + 2 <= maxBytes
    {
      var row := rows[i];
      if size(row) + 2 > maxBytes { return None; }
      ArrayBytesAppend(group, row, size);
      ArrayBytesAppend([], row, size);
      assert [] + [row] == [row];
      if group != [] && (|group| >= maxRows || bytes + size(row) + 2 > maxBytes) {
        FlattenAppend(full, group);
        full := full + [group];
        PackedOpen(full, row, size, maxRows, maxBytes);
        group, bytes := [row], 1 + size(row);
      } else {
        if group == [] { PackedOpen(full, row, size, maxRows, maxBytes); }
        else { PackedExtend(full, group, row, size, maxRows, maxBytes); }
        bytes := bytes + (if group == [] then 0 else 1) + size(row);
        group := group + [row];
      }
    }
    FlattenAppend(full, group);
    batches := Some(if group == [] then full else full + [group]);
  }

  // ----- insert chunks -----

  /** Each encoded row is followed by a newline. */
  function BodyBytes<T>(rows: seq<T>, size: T -> nat): nat { Sum(rows, size) + |rows| }

  ghost predicate PassesGuard<T>(rows: seq<T>, size: T -> nat, limits: Limits) {
    0 < |rows| <= limits.batchSize && BodyBytes(rows, size) <= limits.maxBatchBytes
  }

  predicate TooLarge(size: nat, limits: Limits) {
    size > limits.maxEventBytes || size + 1 > limits.maxBatchBytes
  }

  ghost predicate NoneTooLarge<T>(rows: seq<T>, size: T -> nat, limits: Limits) {
    forall i :: 0 <= i < |rows| ==> !TooLarge(size(rows[i]), limits)
  }

  ghost predicate Open<T>(body: seq<T>, size: T -> nat, limits: Limits) {
    |body| <= limits.batchSize && BodyBytes(body, size) <= limits.maxBatchBytes
  }

  /** The next row closes the open chunk when either limit would be passed. */
  predicate MustFlush<T>(body: seq<T>, bytes: nat, row: T, size: T -> nat, limits: Limits) {
    |body| > 0 && (|body| >= limits.batchSize || bytes + size(row) + 1 > limits.maxBatchBytes)
  }

  /** The chunks still to be sent for an open chunk and the rows behind it. */
  function Plan<T>(body: seq<T>, rest: seq<T>, size: T -> nat, limits: Limits): seq<seq<T>>
    decreases |rest|
  {
    if rest == [] then (if body == [] then [] else [body])
    else if MustFlush(body, BodyBytes(body, size), rest[0], size, limits) then
      [body] + Plan([rest[0]], rest[1..], size, limits)
    else Plan(body + [rest[0]], rest[1..], size, limits)
  }

  lemma BodyAppend<T>(body: seq<T>, row: T, size: T -> nat)
    ensures BodyBytes(body + [row], size) == BodyBytes(body, size) + size(row) + 1
  {
    SumAppend(body, [row], size);
  }

  lemma OpenOne<T>(row: T, size: T -> nat, limits: Limits)
    requires limits.Valid() && !TooLarge(size(row), limits)
    ensures Open([row], size, limits) && BodyBytes([row], size) == size(row) + 1
  {
    BodyAppend([], row, size);
    assert [] + [row] == [row];
  }

  /** Every planned chunk passes the writer's guard, and together they are the rows in order. */
  lemma {:induction false} PlanFits<T>(body: seq<T>, rest: seq<T>, size: T -> nat, limits: Limits)
    requires limits.Valid() && Open(body, size, limits) && NoneTooLarge(rest, size, limits)
    ensures Flatten(Plan(body, rest, size, limits)) == body + rest
    ensures forall c :: c in Plan(body, rest, size, limits) ==> PassesGuard(c, size, limits)
    decreases |rest|
  {
    if rest == [] {
      assert Flatten([body]) == body;
    } else {
      var row := rest[0];
      BodyAppend(body, row, size);
      OpenOne(row, size, limits);
      assert [row] + rest[1..] == rest;
      if MustFlush(body, BodyBytes(body, size), row, size, limits) {
        PlanFits([row], rest[1..], size, limits);
      } else {
        PlanFits(body + [row], rest[1..], size, limits);
        assert (body + [row]) + rest[1..] == body + rest;
      }
    }
  }

  lemma {:induction false} PlanStarts<T>(body: seq<T>, rest: seq<T>, size: T -> nat, limits: Limits)
    requires body != []
    ensures var plan := Plan(body, rest, size, limits); plan != [] && body <= plan[0]
    decreases |rest|
  {
    if rest != [] && !MustFlush(body, BodyBytes(body, size), rest[0], size, limits) { PlanStarts(body + [rest[0]], rest[1..], size, limits); }
  }

  /** The chunk was closed only because the first row of the next one would not have fitted. */
  ghost predicate Ended<T>(chunk: seq<T>, next: seq<T>, size: T -> nat, limits: Limits) {
    next != [] && (|chunk| >= limits.batchSize || Sum(chunk, size) + |chunk| + size(next[0]) + 1 > limits.maxBatchBytes)
  }

  ghost predicate Tight<T>(plan: seq<seq<T>>, size: T -> nat, limits: Limits) {
    forall i :: 0 <= i < |plan| - 1 ==> Ended(plan[i], plan[i + 1], size, limits)
  }

  lemma {:induction false} PlanIsTight<T>(body: seq<T>, rest: seq<T>, size: T -> nat, limits: Limits)
    ensures Tight(Plan(body, rest, size, limits), size, limits)
    decreases |rest|
  {
    if rest != [] {
      var row := rest[0];
      if MustFlush(body, BodyBytes(body, size), row, size, limits) {
        var later := Plan([row], rest[1..], size, limits);
        PlanIsTight([row], rest[1..], size, limits);
        PlanStarts([row], rest[1..], size, limits);
        var plan := [body] + later;
        forall i | 0 <= i < |plan| - 1 ensures Ended(plan[i], plan[i + 1], size, limits) {
          if i > 0 { assert Ended(later[i - 1], later[i], size, limits); } else { assert later[0][0] == row; }
        }
      } else {
        PlanIsTight(body + [row], rest[1..], size, limits);
      }
    }
  }

  /** `whole` chunks were stored in full; of one more, if one more was sent, some part was. */
  ghost predicate StoredUpTo<T>(before: multiset<T>, plan: seq<seq<T>>, whole: nat, sent: nat, after: multiset<T>) {
    && whole <= sent <= whole + 1 && sent <= |plan|
    && before + multiset(Flatten(plan[..whole])) <= after <= before + multiset(Flatten(plan[..sent]))
  }

  lemma Bags<T>(a: seq<T>, b: seq<T>)
    ensures multiset(a + b) == multiset(a) + multiset(b)
  {
  }

  /** Before row `i`: the chunks `done` are stored, `body` is open, and the plan is what was done and what is left. */
  ghost predicate Underway<T>(rows: seq<T>, i: nat, body: seq<T>, size: T -> nat, limits: Limits, done: seq<seq<T>>,
                              before: multiset<T>, table: multiset<T>)
  {
    && i <= |rows| && Plan([], rows, size, limits) == done + Plan(body, rows[i..], size, limits)
    && table == before + multiset(Flatten(done)) && Flatten(done) + body == rows[..i]
  }

  lemma SetsOut<T>(rows: seq<T>, size: T -> nat, limits: Limits, table: multiset<T>)
    ensures Underway(rows, 0, [], size, limits, [], table, table)
  {
    assert rows[0..] == rows;
  }

  lemma RowTaken<T>(rows: seq<T>, i: nat, body: seq<T>, size: T -> nat, limits: Limits, done: seq<seq<T>>, before: multiset<T>, table: multiset<T>)
    requires i < |rows| && Underway(rows, i, body, size, limits, done, before, table)
    requires !MustFlush(body, BodyBytes(body, size), rows[i], size, limits)
    ensures Underway(rows, i + 1, body + [rows[i]], size, limits, done, before, table)
  {
    hide Flatten;
    assert rows[i..] == [rows[i]] + rows[i + 1..] && rows[..i + 1] == rows[..i] + [rows[i]];
  }

  /** Whatever stops the sending between two chunks, the chunks done are stored and nothing else is. */
  lemma StoredWhole<T>(rows: seq<T>, i: nat, body: seq<T>, size: T -> nat, limits: Limits, done: seq<seq<T>>, before: multiset<T>, table: multiset<T>)
    requires Underway(rows, i, body, size, limits, done, before, table)
    ensures var plan := Plan([], rows, size, limits);
            && StoredUpTo(before, plan, |done|, |done|, table) && plan[..|done|] == done
            && before <= table <= before + multiset(rows)
            && (i == |rows| && body == [] ==> plan == done && table == before + multiset(rows))
  {
    hide Flatten;
    assert Plan([], rows, size, limits)[..|done|] == done;
    assert rows == Flatten(done) + (body + rows[i..]);
    Bags(Flatten(done), body + rows[i..]);
  }

  /** The open chunk is the next of the plan. */
  lemma ChunkIsNext<T>(rows: seq<T>, i: nat, body: seq<T>, size: T -> nat, limits: Limits)
    requires body != [] && i <= |rows| && (i < |rows| ==> MustFlush(body, BodyBytes(body, size), rows[i], size, limits))
    ensures Plan(body, rows[i..], size, limits) == [body] + Plan([], rows[i..], size, limits)
  {
    if i < |rows| { assert [] + [rows[i]] == [rows[i]]; }
  }

  lemma ChunkSent<T>(rows: seq<T>, i: nat, body: seq<T>, size: T -> nat, limits: Limits, done: seq<seq<T>>, before: multiset<T>, table: multiset<T>,
                     after: multiset<T>)
    requires Underway(rows, i, body, size, limits, done, before, table) && table <= after <= table + multiset(body)
    requires body != [] && (i < |rows| ==> MustFlush(body, BodyBytes(body, size), rows[i], size, limits))
    ensures var plan := Plan([], rows, size, limits);
            StoredUpTo(before, plan, |done|, |done| + 1, after) && plan[..|done| + 1] == done + [body]
    ensures before <= after <= before + multiset(rows)
    ensures after == table + multiset(body) ==> Underway(rows, i, [], size, limits, done + [body], before, after)
  {
    hide Flatten, Plan;
    var plan := Plan([], rows, size, limits);
    ChunkIsNext(rows, i, body, size, limits);
    FlattenAppend(done, body);
    Bags(Flatten(done), body);
    assert plan == (done + [body]) + Plan([], rows[i..], size, limits);
    assert plan[..|done|] == done && plan[..|done| + 1] == done + [body];
    assert rows == (Flatten(done) + body) + rows[i..];
    Bags(Flatten(done) + body, rows[i..]);
    assert Flatten(done + [body]) + [] == rows[..i];
  }

  /** The jobs from number `from` on were acknowledged, `count` of them. */
  ghost predicate Acknowledged(answers: nat -> bool, from: nat, count: nat) { forall n :: from <= n < from + count ==> answers(n) }

  lemma NoAnswers(answers: nat -> bool, from: nat)
    ensures Acknowledged(answers, from, 0)
  {
  }

  lemma OneMoreAnswer(answers: nat -> bool, from: nat, count: nat)
    requires Acknowledged(answers, from, count) && answers(from + count)
    ensures Acknowledged(answers, from, count + 1)
  {
  }

  /** The insert side of one output table; `jobs` is everything handed to the shared writer. */
  class TableWriter<T(!new,==)> {
    const limits: Limits
    const size: T -> nat
    const answers: nat -> bool        // whether the n-th job is acknowledged
    var table: multiset<T>
    var jobs: seq<seq<T>>

    constructor (limits: Limits, size: T -> nat, answers: nat -> bool, stored: multiset<T>)
      ensures this.limits == limits && this.size == size && this.answers == answers && table == stored && jobs == []
    {
      this.limits, this.size, this.answers, this.table, this.jobs := limits, size, answers, stored, [];
    }

    /** Acknowledged means stored in full; otherwise any part may have been stored. */
    method EnqueueInsert(rows: seq<T>, bytes: nat) returns (ok: bool)
      modifies this
      ensures |rows| == 0 || |rows| > limits.batchSize || bytes > limits.maxBatchBytes
              ==> !ok && table == old(table) && jobs == old(jobs)
      ensures 0 < |rows| <= limits.batchSize && bytes <= limits.maxBatchBytes ==> jobs == old(jobs) + [rows]
      ensures 0 < |rows| <= limits.batchSize && bytes <= limits.maxBatchBytes ==> ok == answers(|old(jobs)|)
      ensures ok ==> table == old(table) + multiset(rows)
      ensures old(table) <= table <= old(table) + multiset(rows)
    {
      if |rows| == 0 || |rows| > limits.batchSize || bytes > limits.maxBatchBytes { return false; }
      ok := answers(|jobs|);
      jobs := jobs + [rows];
      if ok {
        table := table + multiset(rows);
      } else {
        assert multiset{} <= multiset(rows);
        var part: multiset<T> :| part <= multiset(rows);
        table := table + part;
      }
    }

    /** Sends the open chunk; `done` were sent before it, of the table `before`, from job `first` on. */
    method SendChunk(body: seq<T>, bytes: nat, ghost rows: seq<T>, ghost i: nat, ghost done: seq<seq<T>>, ghost before: multiset<T>, ghost first: nat)
      returns (ok: bool)
      requires body != [] && bytes == BodyBytes(body, size) && Open(body, size, limits)
      requires Underway(rows, i, body, size, limits, done, before, table) && (i < |rows| ==> MustFlush(body, bytes, rows[i], size, limits))
      requires |jobs| == first + |done| && Acknowledged(answers, first, |done|)
      modifies this
      ensures jobs == old(jobs) + [body] && ok == answers(first + |done|) && before <= table <= before + multiset(rows)
      ensures var plan := Plan([], rows, size, limits);
              StoredUpTo(before, plan, |done|, |done| + 1, table) && |plan| > |done| && plan[..|done| + 1] == done + [body]
      ensures ok ==> Underway(rows, i, [], size, limits, done + [body], before, table) && Acknowledged(answers, first, |done| + 1)
    {
      hide Underway, Plan, Flatten, Acknowledged;
      ghost var was := table;
      ok := EnqueueInsert(body, bytes);
      ChunkSent(rows, i, body, size, limits, done, before, was, table);
      if ok { OneMoreAnswer(answers, first, |done|); }
    }

    /**
     * Sends the planned chunks one by one. On success every row is stored; an error leaves the chunks
     * before it stored and at most a part of its own: `whole` chunks stored in full, `sent` handed over.
     */
    method InsertRows(rows: seq<T>) returns (inserted: Option<nat>, ghost whole: nat, ghost sent: nat)
      requires limits.Valid()
      modifies this
      ensures inserted.Some? ==> inserted.value == |rows| && NoneTooLarge(rows, size, limits)
      ensures var plan := Plan([], rows, size, limits);
              && StoredUpTo(old(table), plan, whole, sent, table) && jobs == old(jobs) + plan[..sent]
              && (inserted.Some? ==> whole == |plan|)
      ensures inserted.Some? ==> table == old(table) + multiset(rows)
      ensures old(table) <= table <= old(table) + multiset(rows)
      ensures Acknowledged(answers, |old(jobs)|, whole)
      ensures inserted.None? ==>
        || (exists k :: 0 <= k < |rows| && (size(rows[k]) > limits.maxEventBytes || size(rows[k]) + 1 > limits.maxBatchBytes))
        || (sent == whole + 1 && !answers(|old(jobs)| + whole))
    {
      hide StoredUpTo, Underway, Plan, Flatten, Acknowledged;
      ghost var done: seq<seq<T>> := [];
      var body: seq<T> := [];
      var bytes, count, i := 0, 0, 0;
      SetsOut(rows, size, limits, table);
      NoAnswers(answers, |jobs|);
      while i < |rows|
        invariant 0 <= i <= |rows| && count + |body| == i
        invariant bytes == BodyBytes(body, size) && Open(body, size, limits)
        invariant NoneTooLarge(rows[..i], size, limits)
        invariant Underway(rows, i, body, size, limits, done, old(table), table) && jobs == old(jobs) + done
        invariant Acknowledged(answers, |old(jobs)|, |done|)
      {
        var row := rows[i];
        if TooLarge(size(row), limits) {
          StoredWhole(rows, i, body, size, limits, done, old(table), table);
          return None, |done|, |done|;
        }
        if MustFlush(body, bytes, row, size, limits) {
          var ok := SendChunk(body, bytes, rows, i, done, old(table), |old(jobs)|);
          if !ok { return None, |done|, |done| + 1; }
          done := done + [body];
          count, body, bytes := count + |body|, [], 0;
        }
        OpenOne(row, size, limits);
        BodyAppend(body, row, size);
        RowTaken(rows, i, body, size, limits, done, old(table), table);
        assert rows[..i + 1] == rows[..i] + [row];
        body, bytes, i := body + [row], bytes + size(row) + 1, i + 1;
      }
      assert rows[..i] == rows;
      if |body| > 0 {
        var ok := SendChunk(body, bytes, rows, i, done, old(table), |old(jobs)|);
        if !ok { return None, |done|, |done| + 1; }
        done := done + [body];
        count, body := count + |body|, [];
      }
      StoredWhole(rows, i, body, size, limits, done, old(table), table);
      inserted, whole, sent := Some(count), |done|, |done|;
    }
  }
}
