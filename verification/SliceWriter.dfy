/** Cleaning one slice: read batches, compute, look up, deduplicate and insert, then check the row count. */
module SliceWriter {
  import opened Options
  import opened OutputTables
  import opened RetryConvergence
  import opened Batching

  /** Smallest and largest time of the batch, or none as soon as a time is not in canonical form. */
  method EventTimeBounds(batch: seq<Event>) returns (bounds: Option<(int, int)>)
    ensures bounds.None? <==> batch == [] || exists e :: e in batch && !e.canonicalTime
    ensures batch != [] ==> forall t :: InBounds(bounds, t) <==> InSpan(batch, t)
  {
    if batch == [] { return None; }
    var lo, hi := batch[0], batch[0];
    for i := 0 to |batch|
      invariant forall e :: e in batch[..i] ==> e.canonicalTime && lo.time <= e.time <= hi.time
      invariant lo in batch && hi in batch
      invariant i == 0 ==> lo == hi == batch[0]
    {
      var e := batch[i];
      assert batch[..i + 1] == batch[..i] + [e];
      if !e.canonicalTime { return None; }
      if e.time < lo.time { lo := e; }
      if hi.time < e.time { hi := e; }
    }
    assert batch[..|batch|] == batch;
    bounds := Some((lo.time, hi.time));
  }

  predicate InBounds(bounds: Option<(int, int)>, t: int) {
    bounds.None? || bounds.value.0 <= t <= bounds.value.1
  }

  /** One lookup request; the reply lists the ids present among those asked for. */
  function QueryIds(table: multiset<Event>, ids: seq<string>, bounds: Option<(int, int)>): set<string> {
    set e | e in table && e.id in ids && InBounds(bounds, e.time) :: e.id
  }

  /** The ids already stored, gathered over bounded requests; a failed request ends the lookup. */
  method LookupEvents(table: multiset<Event>, batch: seq<Event>, requests: seq<seq<string>>)
    returns (existing: Option<set<string>>)
    requires batch != [] && Flatten(requests) == Ids(batch)
    ensures existing.Some? ==> existing.value == ExistingIds(table, batch)
  {
    var bounds := EventTimeBounds(batch);
    var found: set<string> := {};
    for i := 0 to |requests|
      invariant found == QueryIds(table, Flatten(requests[..i]), bounds)
    {
      var answered: bool := *;
      if !answered { return None; }
      assert requests[..i + 1] == requests[..i] + [requests[i]];
      FlattenAppend(requests[..i], requests[i]);
      found := found + QueryIds(table, requests[i], bounds);
    }
    assert requests[..|requests|] == requests;
    existing := Some(found);
  }

  function QueryCounts(table: multiset<Tuple>, keys: seq<Tuple>): map<Tuple, nat> {
    map x | x in keys && x in table :: table[x]
  }

  /** The stored multiplicities; a tuple asked for twice is the same observation, never a sum. */
  method LookupTuples(table: multiset<Tuple>, rows: seq<Tuple>, requests: seq<seq<Tuple>>)
    returns (counts: Option<map<Tuple, nat>>)
    requires Flatten(requests) == rows
    ensures counts.Some? ==> counts.value == ObservedCounts(table, rows)
  {
    var found: map<Tuple, nat> := map[];
    for i := 0 to |requests|
      invariant found == QueryCounts(table, Flatten(requests[..i]))
    {
      var answered: bool := *;
      if !answered { return None; }
      assert requests[..i + 1] == requests[..i] + [requests[i]];
      FlattenAppend(requests[..i], requests[i]);
      found := found + QueryCounts(table, requests[i]);
    }
    assert requests[..|requests|] == requests;
    counts := Some(found);
  }

  /** Filters the rows while counting the stored ones down. */
  method DeductStored(rows: seq<Tuple>, counts: map<Tuple, nat>) returns (pending: seq<Tuple>)
    ensures pending == Deduct(rows, counts)
  {
    pending := [];
    var remaining := counts;
    for i := 0 to |rows|
      invariant pending + Deduct(rows[i..], remaining) == Deduct(rows, counts)
    {
      assert rows[i..][1..] == rows[i + 1..];
      if rows[i] in remaining && remaining[rows[i]] > 0 {
        remaining := remaining[rows[i] := remaining[rows[i]] - 1];
      } else {
        pending := pending + [rows[i]];
      }
    }
  }

  /** The progress protocol counts in 32-bit signed integers; a larger slice is refused. */
  const MAX_PROGRESS: nat := 0x7fff_ffff

  class Cleaner {
    const limits: Limits
    const idSize: string -> nat
    const tupleSize: Tuple -> nat
    const maxAttributions: nat
    const events: TableWriter<Event>
    const tuples: TableWriter<Tuple>

    ghost predicate Valid()
      reads this
    {
      && limits.Valid() && events.limits == limits && tuples.limits == limits
      && events as object != tuples as object
    }

    ghost function View(): Tables
      reads events, tuples
    {
      Tables(events.table, tuples.table)
    }

    constructor (limits: Limits, idSize: string -> nat, tupleSize: Tuple -> nat, maxAttributions: nat,
                 events: TableWriter<Event>, tuples: TableWriter<Tuple>)
      requires limits.Valid() && events.limits == limits && tuples.limits == limits
      requires events as object != tuples as object
      ensures Valid() && this.events == events && this.tuples == tuples
    {
      this.limits, this.idSize, this.tupleSize := limits, idSize, tupleSize;
      this.maxAttributions, this.events, this.tuples := maxAttributions, events, tuples;
    }

    method WriteEvents(batch: seq<Event>) returns (inserted: Option<nat>)
      requires Valid()
      modifies events
      ensures inserted.Some? ==> events.table == old(events.table) + MissingEvents(old(View()), batch)
      ensures inserted.Some? ==> inserted.value == |MissingEvents(old(View()), batch)|
      ensures old(events.table) <= events.table <= old(events.table) + MissingEvents(old(View()), batch)
    {
      if batch == [] { return Some(0); }
      var requests := ParameterBatches(Ids(batch), idSize, limits.batchSize, limits.maxBatchBytes);
      if requests.None? { return None; }
      var existing := LookupEvents(events.table, batch, requests.value);
      if existing.None? { return None; }
      ghost var whole, sent;
      inserted, whole, sent := events.InsertRows(PendingEvents(batch, existing.value));
    }

    method WriteAttributions(rows: seq<Tuple>) returns (inserted: Option<nat>)
      requires Valid()
      modifies tuples
      ensures var missing := multiset(Deduct(rows, ObservedCounts(old(tuples.table), rows)));
              && (inserted.Some? ==> tuples.table == old(tuples.table) + missing && inserted.value == |missing|)
              && old(tuples.table) <= tuples.table <= old(tuples.table) + missing
    {
      if rows == [] { return Some(0); }
      var requests := ParameterBatches(rows, tupleSize, limits.batchSize, limits.maxBatchBytes);
      if requests.None? { return None; }
      var counts := LookupTuples(tuples.table, rows, requests.value);
      if counts.None? { return None; }
      var pending := DeductStored(rows, counts.value);
      ghost var whole, sent;
      inserted, whole, sent := tuples.InsertRows(pending);
    }

    /** Both writes settle before either result is looked at. */
    method WriteBatch(batch: seq<Event>) returns (ok: bool)
      requires Valid()
      modifies events, tuples
      ensures ok ==> Written(old(View()), batch, View())
      ensures PartlyWritten(old(View()), batch, View())
      ensures ok ==> forall id, key, value ::
        tuples.table[Tuple(id, key, value)] == Larger(old(tuples.table)[Tuple(id, key, value)], Wanted(batch, id, key, value))
    {
      var rows := AllTuples(batch);
      if |rows| > maxAttributions { return false; }
      var wroteEvents := WriteEvents(batch);
      var wroteTuples := WriteAttributions(rows);
      ok := wroteEvents.Some? && wroteTuples.Some?;
      if ok { WrittenCounts(old(View()), batch, View()); }
    }

    /**
     * One attempt over the batches the reader delivers. The read may break off, a batch may be
     * refused, the node may shut down; success needs every batch written and the row count met.
     */
    method Clean(batches: seq<seq<Event>>, total: nat) returns (ok: bool)
      requires Valid()
      modifies events, tuples
      ensures Attempt(old(View()), batches, total, ok, View())
    {
      ReachedStart(View(), batches);
      ReachedFails(View(), batches, 0, View(), total);
      if total > MAX_PROGRESS { return false; }
      var processed := 0;
      for i := 0 to |batches|
        invariant Reached(old(View()), batches, i, View())
        invariant processed == |Flatten(batches[..i])|
      {
        ReachedFails(old(View()), batches, i, View(), total);
        var stopped: bool := *;
        if stopped { return false; }
        FlattenStep(batches, i);
        ghost var before := View();
        var wrote := WriteBatch(batches[i]);
        if !wrote {
          ReachedPartly(old(View()), batches, i, before, View(), total);
          return false;
        }
        ReachedStep(old(View()), batches, i, before, View());
        processed := processed + |batches[i]|;
      }
      assert batches[..|batches|] == batches;
      ok := processed == total;
      ReachedEnd(old(View()), batches, View(), total, ok);
    }

    /** Retries until an attempt succeeds or the reads run out; success leaves exactly the source. */
    method CleanWithRetries(src: seq<Event>, readings: seq<seq<seq<Event>>>) returns (done: bool)
      requires Valid() && View() == EMPTY && DistinctIds(src)
      requires forall k :: 0 <= k < |readings| ==> ReadFrom(readings[k], src)
      modifies events, tuples
      ensures Within(View(), src)
      ensures done ==> View() == Exact(src)
      ensures done ==> forall id, key, value :: tuples.table[Tuple(id, key, value)] == Wanted(src, id, key, value)
    {
      for k := 0 to |readings|
        invariant Within(View(), src)
      {
        ghost var before := View();
        var ok := Clean(readings[k], |src|);
        AttemptWithin(src, before, readings[k], ok, View());
        if ok {
          AttemptCompletes(src, before, readings[k], View());
          CompleteWithinIsExact(src, View());
          forall id, key, value ensures tuples.table[Tuple(id, key, value)] == Wanted(src, id, key, value) {
            AllTuplesCount(src, id, key, value);
          }
          return true;
        }
      }
      done := false;
    }
  }

  function Larger(a: nat, b: nat): nat { if a > b then a else b }

  lemma WrittenCounts(t: Tables, batch: seq<Event>, t': Tables)
    requires Written(t, batch, t')
    ensures forall id, key, value ::
      t'.tuples[Tuple(id, key, value)] == Larger(t.tuples[Tuple(id, key, value)], Wanted(batch, id, key, value))
  {
    hide Written;
    forall id, key, value
      ensures t'.tuples[Tuple(id, key, value)] == Larger(t.tuples[Tuple(id, key, value)], Wanted(batch, id, key, value))
    {
      WrittenTakesMaximum(t, batch, t', Tuple(id, key, value));
      AllTuplesCount(batch, id, key, value);
    }
  }

  lemma AttemptWithin(src: seq<Event>, t: Tables, batches: seq<seq<Event>>, ok: bool, t': Tables)
    requires DistinctIds(src) && ReadFrom(batches, src) && Within(t, src)
    requires Attempt(t, batches, |src|, ok, t')
    ensures Within(t', src)
  {
    var states :| AttemptTrace(states, t, batches, |src|, ok, t');
    TraceWithin(src, states, t, batches, |src|, ok, t', |states| - 1);
  }

  lemma FlattenStep(batches: seq<seq<Event>>, i: nat)
    requires i < |batches|
    ensures |Flatten(batches[..i + 1])| == |Flatten(batches[..i])| + |batches[i]|
  {
    assert batches[..i + 1] == batches[..i] + [batches[i]];
    FlattenAppend(batches[..i], batches[i]);
  }

  // ----- the attempt so far -----

  ghost predicate ReachedBy(states: seq<Tables>, t: Tables, batches: seq<seq<Event>>, i: nat, t': Tables) {
    && |states| == i + 1 <= |batches| + 1 && states[0] == t && states[i] == t'
    && forall k :: 0 <= k < i ==> Written(states[k], batches[k], states[k + 1])
  }

  ghost predicate Reached(t: Tables, batches: seq<seq<Event>>, i: nat, t': Tables) {
    exists states :: ReachedBy(states, t, batches, i, t')
  }

  lemma ReachedStart(t: Tables, batches: seq<seq<Event>>)
    ensures Reached(t, batches, 0, t)
  {
    assert ReachedBy([t], t, batches, 0, t);
  }

  lemma ReachedStep(t: Tables, batches: seq<seq<Event>>, i: nat, m: Tables, t': Tables)
    requires i < |batches| && Reached(t, batches, i, m) && Written(m, batches[i], t')
    ensures Reached(t, batches, i + 1, t')
  {
    hide Written;
    var states :| ReachedBy(states, t, batches, i, m);
    assert ReachedBy(states + [t'], t, batches, i + 1, t');
  }

  lemma ReachedFails(t: Tables, batches: seq<seq<Event>>, i: nat, m: Tables, total: nat)
    requires i <= |batches| && Reached(t, batches, i, m)
    ensures Attempt(t, batches, total, false, m)
  {
    var states :| ReachedBy(states, t, batches, i, m);
    assert AttemptTrace(states, t, batches, total, false, m);
  }

  lemma ReachedPartly(t: Tables, batches: seq<seq<Event>>, i: nat, m: Tables, t': Tables, total: nat)
    requires i < |batches| && Reached(t, batches, i, m) && PartlyWritten(m, batches[i], t')
    ensures Attempt(t, batches, total, false, t')
  {
    var states :| ReachedBy(states, t, batches, i, m);
    assert AttemptTrace(states + [t'], t, batches, total, false, t');
  }

  lemma ReachedEnd(t: Tables, batches: seq<seq<Event>>, t': Tables, total: nat, ok: bool)
    requires Reached(t, batches, |batches|, t') && (ok ==> |Flatten(batches)| == total)
    ensures Attempt(t, batches, total, ok, t')
  {
    var states :| ReachedBy(states, t, batches, |batches|, t');
    assert AttemptTrace(states, t, batches, total, ok, t');
  }
}
