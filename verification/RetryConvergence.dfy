/** What repeated attempts over the same slice leave in the two output tables. */
module RetryConvergence {
  import opened OutputTables

  ghost predicate DistinctIds(src: seq<Event>) {
    forall i, j :: 0 <= i < j < |src| ==> src[i].id != src[j].id
  }

  /** The event has a final row, and every attribution of it is there at least as often as wanted. */
  ghost predicate Covered(t: Tables, e: Event) {
    && (exists row :: row in t.events && row.id == e.id)
    && multiset(TuplesOf(e)) <= t.tuples
  }

  ghost predicate Complete(t: Tables, src: seq<Event>) { forall e :: e in src ==> Covered(t, e) }

  ghost function Exact(src: seq<Event>): Tables { Tables(multiset(src), multiset(AllTuples(src))) }

  /** Nothing in the tables beyond what the slice asks for. */
  ghost predicate Within(t: Tables, src: seq<Event>) {
    t.events <= multiset(src) && t.tuples <= multiset(AllTuples(src))
  }

  ghost predicate Grew(t: Tables, t': Tables) { t.events <= t'.events && t.tuples <= t'.tuples }

  /**
   * One attempt: batches written in turn, each from a fresh lookup. A failed attempt stops at any
   * batch, which may be stored in part. Success also needs the source's row count.
   */
  ghost predicate AttemptTrace(states: seq<Tables>, t: Tables, batches: seq<seq<Event>>, total: nat, ok: bool, t': Tables) {
    && 1 <= |states| <= |batches| + 1
    && states[0] == t && states[|states| - 1] == t'
    && (forall i :: 0 <= i < |states| - 1 ==>
          if ok || i < |states| - 2 then Written(states[i], batches[i], states[i + 1])
          else PartlyWritten(states[i], batches[i], states[i + 1]))
    && (ok ==> |states| == |batches| + 1 && |Flatten(batches)| == total)
  }

  ghost predicate Attempt(t: Tables, batches: seq<seq<Event>>, total: nat, ok: bool, t': Tables) {
    exists states :: AttemptTrace(states, t, batches, total, ok, t')
  }

  /** What was read is part of the source, in whatever order and batching. */
  ghost predicate ReadFrom(batches: seq<seq<Event>>, src: seq<Event>) {
    multiset(Flatten(batches)) <= multiset(src)
  }

  datatype Try = Try(batches: seq<seq<Event>>, ok: bool)

  ghost predicate TryStep(src: seq<Event>, try: Try, t: Tables, t': Tables) {
    ReadFrom(try.batches, src) && Attempt(t, try.batches, |src|, try.ok, t')
  }

  const EMPTY := Tables(multiset{}, multiset{})

  ghost predicate History(src: seq<Event>, tries: seq<Try>, states: seq<Tables>) {
    && |states| == |tries| + 1
    && states[0] == EMPTY
    && forall k :: 0 <= k < |tries| ==> TryStep(src, tries[k], states[k], states[k + 1])
  }

  // ----- tuples of events -----

  lemma {:induction false} TuplesOfMember(events: seq<Event>, e: Event)
    requires e in events
    ensures multiset(TuplesOf(e)) <= multiset(AllTuples(events))
  {
    if e != events[0] { TuplesOfMember(events[1..], e); }
  }

  lemma {:induction false} ExpandIds(id: string, attributes: seq<Attribute>)
    ensures forall x :: x in Expand(id, attributes) ==> x.eventId == id
  {
    if attributes != [] { ExpandIds(id, attributes[1..]); }
  }

  lemma {:induction false} AllTuplesIds(events: seq<Event>, x: Tuple)
    requires x in AllTuples(events)
    ensures exists e :: e in events && e.id == x.eventId
  {
    ExpandIds(events[0].id, events[0].attributes);
    if x !in TuplesOf(events[0]) { AllTuplesIds(events[1..], x); }
  }

  lemma {:induction false} AllTuplesSplit(a: seq<Event>, b: seq<Event>)
    ensures AllTuples(a + b) == AllTuples(a) + AllTuples(b)
  {
    if a == [] {
      assert a + b == b;
    } else {
      assert (a + b)[1..] == a[1..] + b;
      AllTuplesSplit(a[1..], b);
    }
  }

  lemma {:induction false} AllTuplesMonotone(a: seq<Event>, b: seq<Event>)
    requires multiset(a) <= multiset(b)
    ensures multiset(AllTuples(a)) <= multiset(AllTuples(b))
  {
    if a != [] {
      assert multiset(a)[a[0]] > 0;
      var k :| 0 <= k < |b| && b[k] == a[0];
      var rest := b[..k] + b[k + 1..];
      assert b == b[..k] + ([b[k]] + b[k + 1..]);
      assert a == [a[0]] + a[1..];
      assert multiset(rest) == multiset(b) - multiset{a[0]};
      AllTuplesMonotone(a[1..], rest);
      AllTuplesSplit(b[..k], b[k + 1..]);
      AllTuplesSplit(b[..k], [b[k]] + b[k + 1..]);
      assert ([b[k]] + b[k + 1..])[1..] == b[k + 1..];
    }
  }

  lemma DistinctCount(src: seq<Event>, e: Event)
    requires DistinctIds(src) && e in src
    ensures multiset(src)[e] == 1
  {
    var k :| 0 <= k < |src| && src[k] == e;
    var rest := src[..k] + src[k + 1..];
    assert src == src[..k] + [e] + src[k + 1..];
    assert e !in rest;
    assert multiset(src) == multiset(rest) + multiset{e};
    assert multiset(rest)[e] == 0;
  }

  /** With distinct ids only one event asks for a given tuple. */
  lemma {:induction false} OwnerOfTuple(src: seq<Event>, e: Event, x: Tuple)
    requires DistinctIds(src) && e in src && x.eventId == e.id
    ensures multiset(AllTuples(src))[x] == multiset(TuplesOf(e))[x]
  {
    var head, rest := src[0], src[1..];
    assert src == [head] + rest;
    ExpandIds(head.id, head.attributes);
    if e == head {
      if x in AllTuples(rest) {
        AllTuplesIds(rest, x);
        assert false;
      }
      assert multiset(AllTuples(rest))[x] == 0;
    } else {
      OwnerOfTuple(rest, e, x);
      assert x !in TuplesOf(head);
      assert multiset(TuplesOf(head))[x] == 0;
    }
  }

  // ----- one write step -----

  /** However the ids collide, a completed write covers every event of its batch. */
  lemma WrittenCovers(t: Tables, batch: seq<Event>, t': Tables, e: Event)
    requires Written(t, batch, t') && e in batch
    ensures Covered(t', e)
  {
    PendingEventsBag(batch, ExistingIds(t.events, batch), e);
    if e.id in ExistingIds(t.events, batch) {
      var row :| row in t.events && row.id == e.id;
      assert row in t'.events;
    } else {
      assert multiset(batch)[e] > 0;
      assert e in t'.events;
    }
    TuplesOfMember(batch, e);
    forall x ensures multiset(TuplesOf(e))[x] <= t'.tuples[x] {
      WrittenTakesMaximum(t, batch, t', x);
    }
  }

  lemma CoveredStays(t: Tables, t': Tables, e: Event)
    requires Covered(t, e) && Grew(t, t')
    ensures Covered(t', e)
  {
  }

  /** With distinct ids no write, complete or not, stores a row twice. */
  lemma PartlyWrittenWithin(src: seq<Event>, t: Tables, batch: seq<Event>, t': Tables)
    requires DistinctIds(src) && multiset(batch) <= multiset(src)
    requires Within(t, src) && PartlyWritten(t, batch, t')
    ensures Within(t', src) && Grew(t, t')
  {
    forall e ensures t'.events[e] <= multiset(src)[e] {
      PendingEventsBag(batch, ExistingIds(t.events, batch), e);
      if multiset(batch)[e] > 0 && t.events[e] > 0 {
        assert e in batch && InSpan(batch, e.time);
        assert Ids(batch)[IndexOf(batch, e)] == e.id;
        assert e.id in ExistingIds(t.events, batch);
      }
    }
    AllTuplesMonotone(batch, src);
    forall x ensures t'.tuples[x] <= multiset(AllTuples(src))[x] {
      PartlyWrittenBetween(t, batch, t', x);
    }
  }

  ghost function IndexOf(batch: seq<Event>, e: Event): (k: nat)
    requires e in batch
    ensures k < |batch| && batch[k] == e
  {
    var k :| 0 <= k < |batch| && batch[k] == e;
    k
  }

  // ----- one attempt -----

  lemma {:induction false} FlattenMember<T>(parts: seq<seq<T>>, i: nat)
    requires i < |parts|
    ensures multiset(parts[i]) <= multiset(Flatten(parts))
  {
    if i > 0 { FlattenMember(parts[1..], i - 1); }
  }

  lemma {:induction false} FlattenSource<T>(parts: seq<seq<T>>, x: T) returns (i: nat)
    requires x in Flatten(parts)
    ensures i < |parts| && x in parts[i]
  {
    if x in parts[0] {
      i := 0;
    } else {
      var k := FlattenSource(parts[1..], x);
      i := k + 1;
    }
  }

  lemma {:induction false} TraceGrows(states: seq<Tables>, t: Tables, batches: seq<seq<Event>>, total: nat, ok: bool, t': Tables, i: nat)
    requires AttemptTrace(states, t, batches, total, ok, t') && i < |states|
    ensures Grew(states[i], t')
    decreases |states| - i
  {
    if i + 1 < |states| { TraceGrows(states, t, batches, total, ok, t', i + 1); }
  }

  lemma {:induction false} TraceWithin(src: seq<Event>, states: seq<Tables>, t: Tables, batches: seq<seq<Event>>, total: nat, ok: bool, t': Tables, i: nat)
    requires DistinctIds(src) && ReadFrom(batches, src) && Within(t, src)
    requires AttemptTrace(states, t, batches, total, ok, t') && i < |states|
    ensures Within(states[i], src)
  {
    if i > 0 {
      TraceWithin(src, states, t, batches, total, ok, t', i - 1);
      FlattenMember(batches, i - 1);
      PartlyWrittenWithin(src, states[i - 1], batches[i - 1], states[i]);
    }
  }

  /** A successful attempt covers every event of the source, whatever the tables held before. */
  lemma AttemptCompletes(src: seq<Event>, t: Tables, batches: seq<seq<Event>>, t': Tables)
    requires ReadFrom(batches, src) && Attempt(t, batches, |src|, true, t')
    ensures Complete(t', src)
  {
    var states :| AttemptTrace(states, t, batches, |src|, true, t');
    SameBag(Flatten(batches), src);
    forall e | e in src ensures Covered(t', e) {
      assert multiset(src)[e] > 0;
      assert e in Flatten(batches);
      var i := FlattenSource(batches, e);
      WrittenCovers(states[i], batches[i], states[i + 1], e);
      TraceGrows(states, t, batches, |src|, true, t', i + 1);
      CoveredStays(states[i + 1], t', e);
    }
  }

  lemma SameBag<T>(a: seq<T>, b: seq<T>)
    requires multiset(a) <= multiset(b) && |a| == |b|
    ensures multiset(a) == multiset(b)
  {
    var rest := multiset(b) - multiset(a);
    assert multiset(b) == multiset(a) + rest;
    assert |rest| == 0;
  }

  /** Complete, and nothing beyond the source: exactly the source. */
  lemma CompleteWithinIsExact(src: seq<Event>, t: Tables)
    requires DistinctIds(src) && Complete(t, src) && Within(t, src)
    ensures t == Exact(src)
  {
    forall e ensures t.events[e] == multiset(src)[e] {
      if e in src {
        DistinctCount(src, e);
        var row :| row in t.events && row.id == e.id;
        assert multiset(src)[row] > 0;
        assert row in src && row == e;
      } else {
        assert multiset(src)[e] == 0;
      }
    }
    forall x ensures t.tuples[x] == multiset(AllTuples(src))[x] {
      if x in AllTuples(src) {
        AllTuplesIds(src, x);
        var e :| e in src && e.id == x.eventId;
        OwnerOfTuple(src, e, x);
      } else {
        assert multiset(AllTuples(src))[x] == 0;
      }
    }
  }

  // ----- any number of attempts -----

  lemma {:induction false} HistoryWithin(src: seq<Event>, tries: seq<Try>, states: seq<Tables>, k: nat)
    requires DistinctIds(src) && History(src, tries, states) && k < |states|
    ensures Within(states[k], src)
  {
    if k > 0 {
      HistoryWithin(src, tries, states, k - 1);
      var trace :| AttemptTrace(trace, states[k - 1], tries[k - 1].batches, |src|, tries[k - 1].ok, states[k]);
      TraceWithin(src, trace, states[k - 1], tries[k - 1].batches, |src|, tries[k - 1].ok, states[k], |trace| - 1);
    }
  }

  lemma {:induction false} HistoryComplete(src: seq<Event>, tries: seq<Try>, states: seq<Tables>, k: nat, m: nat)
    requires History(src, tries, states) && k < m < |states| && tries[k].ok
    ensures Complete(states[m], src)
  {
    if m == k + 1 {
      AttemptCompletes(src, states[k], tries[k].batches, states[m]);
    } else {
      HistoryComplete(src, tries, states, k, m - 1);
      var trace :| AttemptTrace(trace, states[m - 1], tries[m - 1].batches, |src|, tries[m - 1].ok, states[m]);
      TraceGrows(trace, states[m - 1], tries[m - 1].batches, |src|, tries[m - 1].ok, states[m], 0);
      forall e | e in src ensures Covered(states[m], e) { CoveredStays(states[m - 1], states[m], e); }
    }
  }

  /** From the first success on, both tables hold exactly the source and its attributions. */
  ghost predicate Converges(src: seq<Event>) {
    forall tries: seq<Try>, states: seq<Tables>, k, m ::
      (History(src, tries, states) && 0 <= k < m < |states| && tries[k].ok) ==> states[m] == Exact(src)
  }

  ghost function AfterWrite(t: Tables, batch: seq<Event>): Tables {
    Tables(t.events + MissingEvents(t, batch), t.tuples + MissingTuples(t, batch))
  }

  /** Once one of two events with the same id is stored, the other is never written. */
  lemma SecondRowSkipped(src: seq<Event>, i: nat, j: nat)
    requires i < j < |src| && src[i].id == src[j].id
    ensures AfterWrite(AfterWrite(EMPTY, [src[i]]), src).events != multiset(src)
  {
    var one, mid := [src[i]], AfterWrite(EMPTY, [src[i]]);
    PendingEventsBag(one, ExistingIds(EMPTY.events, one), src[i]);
    PendingEventsBag(one, ExistingIds(EMPTY.events, one), src[j]);
    assert src[i] in src && InSpan(src, src[i].time);
    assert Ids(src)[i] == src[i].id;
    assert src[i].id in ExistingIds(mid.events, src);
    PendingEventsBag(src, ExistingIds(mid.events, src), src[j]);
    if src[j] == src[i] {
      TwoOccurrences(src, i, j);
    } else {
      assert multiset(src)[src[j]] > 0 && multiset(one)[src[j]] == 0;
    }
  }

  lemma OneBatchAttempt(t: Tables, batch: seq<Event>, total: nat, ok: bool)
    requires ok ==> |batch| == total
    ensures Attempt(t, [batch], total, ok, AfterWrite(t, batch))
  {
    var t' := AfterWrite(t, batch);
    assert Written(t, batch, t');
    assert Flatten([batch]) == batch;
    assert AttemptTrace([t, t'], t, [batch], total, ok, t');
  }

  lemma ReadWhole(batch: seq<Event>, src: seq<Event>)
    requires multiset(batch) <= multiset(src)
    ensures ReadFrom([batch], src)
  {
    assert Flatten([batch]) == batch;
  }

  lemma TwoAttempts(src: seq<Event>, first: Try, second: Try, mid: Tables, end: Tables)
    requires TryStep(src, first, EMPTY, mid) && TryStep(src, second, mid, end)
    ensures History(src, [first, second], [EMPTY, mid, end])
  {
  }

  lemma DivergesWhen(src: seq<Event>, first: Try, second: Try, mid: Tables, end: Tables)
    requires TryStep(src, first, EMPTY, mid) && TryStep(src, second, mid, end)
    requires second.ok && end.events != multiset(src)
    ensures !Converges(src)
  {
    TwoAttempts(src, first, second, mid, end);
    var tries, states := [first, second], [EMPTY, mid, end];
    assert History(src, tries, states) && tries[1].ok && states[2] != Exact(src);
  }

  /** A source whose ids repeat loses a row: a failed attempt over one event, then a full one. */
  lemma RepeatedIdDiverges(src: seq<Event>, i: nat, j: nat)
    requires i < j < |src| && src[i].id == src[j].id
    ensures !Converges(src)
  {
    var first := [src[i]];
    var mid := AfterWrite(EMPTY, first);
    assert multiset(first) <= multiset(src) by { assert multiset(src)[src[i]] > 0; }
    ReadWhole(first, src);
    ReadWhole(src, src);
    OneBatchAttempt(EMPTY, first, |src|, false);
    OneBatchAttempt(mid, src, |src|, true);
    SecondRowSkipped(src, i, j);
    DivergesWhen(src, Try([first], false), Try([src], true), mid, AfterWrite(mid, src));
  }

  lemma TwoOccurrences(src: seq<Event>, i: nat, j: nat)
    requires i < j < |src| && src[i] == src[j]
    ensures multiset(src)[src[i]] >= 2
  {
    assert src == src[..j] + [src[j]] + src[j + 1..];
    assert src[..j][i] == src[i];
    assert src[i] in src[..j];
    assert multiset(src[..j])[src[i]] > 0;
  }

  /** Retrying converges to the exact rows, for every history, exactly when event ids are distinct. */
  lemma RetryConverges(src: seq<Event>)
    ensures Converges(src) <==> DistinctIds(src)
  {
    if DistinctIds(src) {
      forall tries: seq<Try>, states: seq<Tables>, k, m | History(src, tries, states) && 0 <= k < m < |states| && tries[k].ok
        ensures states[m] == Exact(src)
      {
        HistoryComplete(src, tries, states, k, m);
        HistoryWithin(src, tries, states, m);
        CompleteWithinIsExact(src, states[m]);
      }
    } else {
      var i, j :| 0 <= i < j < |src| && src[i].id == src[j].id;
      RepeatedIdDiverges(src, i, j);
    }
  }

  // ----- the attribution rows, counted -----

  /** How often events of that id ask for the key and the value, over the whole source. */
  function Wanted(src: seq<Event>, id: string, key: string, value: string): nat {
    if src == [] then 0
    else (if src[0].id == id then multiset(src[0].attributes)[Attribute(key, value)] else 0) + Wanted(src[1..], id, key, value)
  }

  function AttributesOf(src: seq<Event>): nat { if src == [] then 0 else |src[0].attributes| + AttributesOf(src[1..]) }

  lemma {:induction false} AllTuplesCount(src: seq<Event>, id: string, key: string, value: string)
    ensures multiset(AllTuples(src))[Tuple(id, key, value)] == Wanted(src, id, key, value)
    ensures |AllTuples(src)| == AttributesOf(src)
  {
    if src != [] {
      var e := src[0];
      AllTuplesCount(src[1..], id, key, value);
      TuplesAreAttributes(e, key, value);
      ExpandIds(e.id, e.attributes);
      if e.id != id { assert Tuple(id, key, value) !in TuplesOf(e); }
    }
  }

  /** From the first success on, every attribution row is stored as often as the source's events ask for it, and no other. */
  lemma SuccessStoresAttributes(src: seq<Event>, tries: seq<Try>, states: seq<Tables>, k: nat, m: nat, id: string, key: string, value: string)
    requires DistinctIds(src) && History(src, tries, states) && k < m < |states| && tries[k].ok
    ensures states[m].tuples[Tuple(id, key, value)] == Wanted(src, id, key, value)
    ensures |states[m].tuples| == AttributesOf(src) && states[m].events == multiset(src)
  {
    RetryConverges(src);
    assert states[m] == Exact(src);
    AllTuplesCount(src, id, key, value);
  }
}
