/** One slice's part of the two ClickHouse output tables, and the write path that repairs them. */
module OutputTables {
  // Look up what is already there, drop it from the batch, insert the rest. Inserts are not atomic.

  datatype Attribute = Attribute(key: string, value: string)

  /** `attributes` is what the attribution engine expands from this one event. */
  datatype Event = Event(id: string, time: int, canonicalTime: bool, attributes: seq<Attribute>, columns: string)

  datatype Tuple = Tuple(eventId: string, key: string, value: string)

  datatype Tables = Tables(events: multiset<Event>, tuples: multiset<Tuple>)

  function Expand(id: string, attributes: seq<Attribute>): seq<Tuple> {
    if attributes == [] then []
    else [Tuple(id, attributes[0].key, attributes[0].value)] + Expand(id, attributes[1..])
  }

  function TuplesOf(e: Event): seq<Tuple> { Expand(e.id, e.attributes) }

  function AllTuples(events: seq<Event>): seq<Tuple> {
    if events == [] then [] else TuplesOf(events[0]) + AllTuples(events[1..])
  }

  lemma {:induction false} ExpandBag(id: string, attributes: seq<Attribute>, key: string, value: string)
    ensures |Expand(id, attributes)| == |attributes|
    ensures multiset(Expand(id, attributes))[Tuple(id, key, value)] == multiset(attributes)[Attribute(key, value)]
  {
    if attributes != [] {
      ExpandBag(id, attributes[1..], key, value);
      assert attributes == [attributes[0]] + attributes[1..];
      assert multiset(attributes) == multiset{attributes[0]} + multiset(attributes[1..]);
    }
  }

  /** An event has one row for each of its attributes, repeated ones repeated. */
  lemma TuplesAreAttributes(e: Event, key: string, value: string)
    ensures |TuplesOf(e)| == |e.attributes|
    ensures multiset(TuplesOf(e))[Tuple(e.id, key, value)] == multiset(e.attributes)[Attribute(key, value)]
  {
    ExpandBag(e.id, e.attributes, key, value);
  }

  function Flatten<T>(parts: seq<seq<T>>): seq<T> {
    if parts == [] then [] else parts[0] + Flatten(parts[1..])
  }

  function Ids(batch: seq<Event>): (ids: seq<string>)
    ensures |ids| == |batch| && forall i :: 0 <= i < |batch| ==> ids[i] == batch[i].id
  {
    if batch == [] then [] else [batch[0].id] + Ids(batch[1..])
  }

  // ----- what a lookup sees -----

  /** The lookup is narrowed to the batch's time span, unless some time is not in canonical form. */
  ghost predicate InSpan(batch: seq<Event>, t: int) {
    || (exists e :: e in batch && !e.canonicalTime)
    || exists a, b :: a in batch && b in batch && a.time <= t <= b.time
  }

  ghost function ExistingIds(table: multiset<Event>, batch: seq<Event>): set<string> {
    set e | e in table && e.id in Ids(batch) && InSpan(batch, e.time) :: e.id
  }

  function ObservedCounts(table: multiset<Tuple>, rows: seq<Tuple>): map<Tuple, nat> {
    map x | x in rows && x in table :: table[x]
  }

  // ----- what is left to insert -----

  function PendingEvents(batch: seq<Event>, existing: set<string>): seq<Event> {
    if batch == [] then []
    else (if batch[0].id in existing then [] else [batch[0]]) + PendingEvents(batch[1..], existing)
  }

  lemma {:induction false} PendingEventsBag(batch: seq<Event>, existing: set<string>, e: Event)
    ensures multiset(PendingEvents(batch, existing))[e] == if e.id in existing then 0 else multiset(batch)[e]
  {
    if batch != [] {
      PendingEventsBag(batch[1..], existing, e);
      assert batch == [batch[0]] + batch[1..];
      assert multiset(batch) == multiset{batch[0]} + multiset(batch[1..]);
    }
  }

  function Deduct(rows: seq<Tuple>, counts: map<Tuple, nat>): seq<Tuple> {
    if rows == [] then []
    else if rows[0] in counts && counts[rows[0]] > 0 then
      Deduct(rows[1..], counts[rows[0] := counts[rows[0]] - 1])
    else [rows[0]] + Deduct(rows[1..], counts)
  }

  function Count(counts: map<Tuple, nat>, x: Tuple): nat { if x in counts then counts[x] else 0 }

  /** Per tuple, what stays is the wanted multiplicity minus the observed one. */
  lemma {:induction false} DeductBag(rows: seq<Tuple>, counts: map<Tuple, nat>, x: Tuple)
    ensures var wanted, seen := multiset(rows)[x], Count(counts, x);
            multiset(Deduct(rows, counts))[x] == if wanted > seen then wanted - seen else 0
  {
    if rows != [] {
      var r := rows[0];
      assert rows == [r] + rows[1..];
      if r in counts && counts[r] > 0 {
        DeductBag(rows[1..], counts[r := counts[r] - 1], x);
      } else {
        DeductBag(rows[1..], counts, x);
      }
    }
  }

  // ----- the relation one write step establishes -----

  ghost function MissingEvents(t: Tables, batch: seq<Event>): multiset<Event> {
    multiset(PendingEvents(batch, ExistingIds(t.events, batch)))
  }

  function MissingTuples(t: Tables, batch: seq<Event>): multiset<Tuple> {
    multiset(Deduct(AllTuples(batch), ObservedCounts(t.tuples, AllTuples(batch))))
  }

  ghost predicate Written(t: Tables, batch: seq<Event>, t': Tables) {
    && t'.events == t.events + MissingEvents(t, batch)
    && t'.tuples == t.tuples + MissingTuples(t, batch)
  }

  /** A failed write may have stored any part of what was missing, in either table. */
  ghost predicate PartlyWritten(t: Tables, batch: seq<Event>, t': Tables) {
    && t.events <= t'.events <= t.events + MissingEvents(t, batch)
    && t.tuples <= t'.tuples <= t.tuples + MissingTuples(t, batch)
  }

  /** Per tuple, a completed write leaves the larger of the old and the wanted count. */
  lemma WrittenTakesMaximum(t: Tables, batch: seq<Event>, t': Tables, x: Tuple)
    requires Written(t, batch, t')
    ensures var wanted := multiset(AllTuples(batch))[x];
            t'.tuples[x] == if t.tuples[x] > wanted then t.tuples[x] else wanted
  {
    var rows := AllTuples(batch);
    DeductBag(rows, ObservedCounts(t.tuples, rows), x);
    if x !in rows { assert multiset(rows)[x] == 0; }
  }

  /** And a failed one leaves a count between the two. */
  lemma PartlyWrittenBetween(t: Tables, batch: seq<Event>, t': Tables, x: Tuple)
    requires PartlyWritten(t, batch, t')
    ensures var wanted := multiset(AllTuples(batch))[x];
            t.tuples[x] <= t'.tuples[x] <= if t.tuples[x] > wanted then t.tuples[x] else wanted
  {
    var full := Tables(t.events + MissingEvents(t, batch), t.tuples + MissingTuples(t, batch));
    WrittenTakesMaximum(t, batch, full, x);
  }
}
