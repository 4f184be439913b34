/** The attribution worker pool: one session per thread, as many threads as cores. */
module WorkerPool {
  import opened Options

  datatype Outcome = Pending | Resolved | Rejected

  /** `failed`: an error was noted, by a worker or by the caller's own progress callback. */
  datatype Computation = Computation(total: nat, processed: nat, failed: bool, outcome: Outcome)

  datatype Slot = Slot(id: nat, current: Option<nat>)

  /** `settlements`: the computations whose promise was settled, in order. */
  datatype Pool = Pool(queue: seq<nat>, workers: seq<Slot>, computations: map<nat, Computation>, settlements: seq<nat>)

  ghost predicate IsPending(p: Pool, id: nat) { id in p.computations && p.computations[id].outcome.Pending? }

  ghost predicate Runs(workers: seq<Slot>, id: nat) { exists k :: 0 <= k < |workers| && workers[k].current == Some(id) }

  ghost predicate Distinct(ids: seq<nat>) { forall i, j :: 0 <= i < j < |ids| ==> ids[i] != ids[j] }

  ghost predicate QueueOk(p: Pool) {
    Distinct(p.queue) && forall id :: id in p.queue ==> IsPending(p, id) && !Runs(p.workers, id)
  }

  ghost predicate SlotsOk(p: Pool, nextSlot: nat) {
    && (forall k :: 0 <= k < |p.workers| ==> p.workers[k].id < nextSlot)
    && (forall k :: 0 <= k < |p.workers| && p.workers[k].current.Some? ==> IsPending(p, p.workers[k].current.value))
    && (forall k, l :: 0 <= k < l < |p.workers| ==>
          p.workers[k].id != p.workers[l].id && (p.workers[k].current.Some? ==> p.workers[k].current != p.workers[l].current))
  }

  /** Each computation is in exactly one place: queued once, current of one slot, or settled once. */
  ghost predicate Consistent(p: Pool, next: nat, nextSlot: nat) {
    && QueueOk(p) && SlotsOk(p, nextSlot)
    && (forall id: nat :: IsPending(p, id) ==> id in p.queue || Runs(p.workers, id))
    && Distinct(p.settlements)
    && (forall id :: id in p.settlements <==> id in p.computations && !p.computations[id].outcome.Pending?)
    && (forall id :: id in p.computations ==> id < next)
  }

  /** No slot is wasted: what is queued waits only because every thread there may be is busy. */
  ghost predicate AtRest(p: Pool, concurrency: nat) {
    p.queue != [] ==> |p.workers| == concurrency && forall k :: 0 <= k < |p.workers| ==> p.workers[k].current.Some?
  }

  // ----- the steps -----

  function Settle(p: Pool, id: nat, c: Computation): Pool {
    p.(computations := p.computations[id := c], settlements := p.settlements + [id])
  }

  function WithoutSlot(workers: seq<Slot>, k: nat): seq<Slot>
    requires k < |workers|
  {
    workers[..k] + workers[k + 1..]
  }

  lemma RunsWithout(workers: seq<Slot>, k: nat, id: nat)
    requires k < |workers|
    ensures Runs(WithoutSlot(workers, k), id) ==> Runs(workers, id)
    ensures Runs(workers, id) && workers[k].current != Some(id) ==> Runs(WithoutSlot(workers, k), id)
  {
    var rest := WithoutSlot(workers, k);
    if Runs(rest, id) {
      var i :| 0 <= i < |rest| && rest[i].current == Some(id);
      assert workers[if i < k then i else i + 1] == rest[i];
    }
    if Runs(workers, id) && workers[k].current != Some(id) {
      var i :| 0 <= i < |workers| && workers[i].current == Some(id);
      assert rest[if i < k then i else i - 1] == workers[i];
    }
  }

  lemma RunsUpdate(workers: seq<Slot>, k: nat, slot: Slot, id: nat)
    requires k < |workers|
    ensures Runs(workers[k := slot], id) <==> slot.current == Some(id) || Runs(WithoutSlot(workers, k), id)
  {
    var w, rest := workers[k := slot], WithoutSlot(workers, k);
    if Runs(rest, id) {
      var i :| 0 <= i < |rest| && rest[i].current == Some(id);
      assert w[if i < k then i else i + 1] == rest[i];
    }
    if Runs(w, id) && slot.current != Some(id) {
      var i :| 0 <= i < |w| && w[i].current == Some(id);
      assert rest[if i < k then i else i - 1] == w[i];
    }
    assert w[k] == slot;
  }

  lemma RunsAlone(p: Pool, nextSlot: nat, k: nat, id: nat)
    requires SlotsOk(p, nextSlot) && k < |p.workers| && p.workers[k].current == Some(id)
    ensures !Runs(WithoutSlot(p.workers, k), id)
  {
    var rest := WithoutSlot(p.workers, k);
    assert forall i :: 0 <= i < |rest| ==> rest[i] == p.workers[if i < k then i else i + 1];
  }

  lemma HeadGone(ids: seq<nat>)
    requires Distinct(ids) && ids != []
    ensures Distinct(ids[1..]) && ids[0] !in ids[1..] && forall id :: id in ids[1..] ==> id in ids
  {
    assert forall k :: 1 <= k < |ids| ==> ids[k] != ids[0];
  }

  lemma ArriveKeeps(p: Pool, next: nat, nextSlot: nat, total: nat, p': Pool)
    requires Consistent(p, next, nextSlot)
    requires p' == p.(queue := p.queue + [next], computations := p.computations[next := Computation(total, 0, false, Pending)])
    ensures Consistent(p', next + 1, nextSlot)
  {
    forall k | 0 <= k < |p.workers| ensures p.workers[k].current != Some(next) {
      assert p.workers[k].current.Some? ==> IsPending(p, p.workers[k].current.value);
    }
    forall id: nat | id in p.queue ensures IsPending(p', id) && id != next { assert IsPending(p, id); }
    forall i | 0 <= i < |p.queue| ensures p.queue[i] != next { assert p.queue[i] in p.queue; }
    forall id: nat | IsPending(p', id) ensures id in p'.queue || Runs(p'.workers, id) {
      if id != next { assert IsPending(p, id); }
    }
    assert next !in p.settlements;
  }

  /** The head of the queue becomes the work of a slot that has none. */
  lemma AssignKeeps(p: Pool, next: nat, nextSlot: nat, k: nat, p': Pool)
    requires Consistent(p, next, nextSlot) && p.queue != [] && k < |p.workers| && p.workers[k].current.None?
    requires p' == p.(queue := p.queue[1..], workers := p.workers[k := Slot(p.workers[k].id, Some(p.queue[0]))])
    ensures Consistent(p', next, nextSlot)
  {
    var head := p.queue[0];
    forall id: nat ensures Runs(p'.workers, id) <==> id == head || Runs(p.workers, id) {
      RunsUpdate(p.workers, k, p'.workers[k], id);
      RunsWithout(p.workers, k, id);
    }
    forall l | 0 <= l < |p.workers| ensures p.workers[l].current != Some(head) {
      if p.workers[l].current == Some(head) { assert Runs(p.workers, head); }
    }
    HeadGone(p.queue);
    assert IsPending(p, head);
  }

  lemma AddSlotKeeps(p: Pool, next: nat, nextSlot: nat)
    requires Consistent(p, next, nextSlot)
    ensures Consistent(p.(workers := p.workers + [Slot(nextSlot, None)]), next, nextSlot + 1)
  {
    var p' := p.(workers := p.workers + [Slot(nextSlot, None)]);
    forall id: nat ensures Runs(p'.workers, id) <==> Runs(p.workers, id) {
      if Runs(p.workers, id) {
        var i :| 0 <= i < |p.workers| && p.workers[i].current == Some(id);
        assert p'.workers[i] == p.workers[i];
      }
    }
  }

  /** An idle slot is removed. */
  lemma RemoveKeeps(p: Pool, next: nat, nextSlot: nat, k: nat, p': Pool)
    requires Consistent(p, next, nextSlot) && k < |p.workers| && p.workers[k].current.None?
    requires p' == p.(workers := WithoutSlot(p.workers, k))
    ensures Consistent(p', next, nextSlot)
  {
    forall id: nat ensures Runs(p'.workers, id) <==> Runs(p.workers, id) { RunsWithout(p.workers, k, id); }
  }

  /** The work of a slot, or the head of the queue, is settled. */
  lemma FinishKeeps(p: Pool, next: nat, nextSlot: nat, k: nat, id: nat, c: Computation, p': Pool)
    requires Consistent(p, next, nextSlot) && k < |p.workers| && p.workers[k].current == Some(id) && !c.outcome.Pending?
    requires p' == Settle(p.(workers := p.workers[k := Slot(p.workers[k].id, None)]), id, c)
    ensures Consistent(p', next, nextSlot)
  {
    assert Runs(p.workers, id) && IsPending(p, id);
    RunsAlone(p, nextSlot, k, id);
    forall x: nat ensures Runs(p'.workers, x) <==> x != id && Runs(p.workers, x) {
      RunsUpdate(p.workers, k, p'.workers[k], x);
      RunsWithout(p.workers, k, x);
    }
    forall x: nat | IsPending(p', x) ensures x in p'.queue || Runs(p'.workers, x) { assert IsPending(p, x); }
  }

  lemma FailHeadKeeps(p: Pool, next: nat, nextSlot: nat, c: Computation, p': Pool)
    requires Consistent(p, next, nextSlot) && p.queue != [] && !c.outcome.Pending?
    requires p' == Settle(p.(queue := p.queue[1..]), p.queue[0], c)
    ensures Consistent(p', next, nextSlot)
  {
    var head := p.queue[0];
    HeadGone(p.queue);
    assert IsPending(p, head);
    forall k | 0 <= k < |p.workers| ensures p.workers[k].current != Some(head) {
      if p.workers[k].current == Some(head) { assert Runs(p.workers, head); }
    }
    forall x: nat | IsPending(p', x) ensures x in p'.queue || Runs(p'.workers, x) { assert IsPending(p, x); }
  }

  /** Progress changes a pending computation in place. */
  lemma ProgressKeeps(p: Pool, next: nat, nextSlot: nat, id: nat, c: Computation)
    requires Consistent(p, next, nextSlot) && IsPending(p, id) && c.outcome.Pending?
    ensures Consistent(p.(computations := p.computations[id := c]), next, nextSlot)
  {
    var p' := p.(computations := p.computations[id := c]);
    forall x: nat ensures IsPending(p', x) <==> IsPending(p, x) {}
  }

  // ----- handing work out -----

  /** Workers created so far, work posted to one so far, and the next slot's number. */
  datatype Tries = Tries(created: nat, posts: nat, nextSlot: nat)

  /** How many of the tries `from`, ..., `to - 1` failed. */
  function Missed(works: nat -> bool, from: nat, to: nat): nat {
    if to <= from then 0 else Missed(works, from, to - 1) + if works(to - 1) then 0 else 1
  }

  function SlotIds(workers: seq<Slot>): set<nat> { set k | 0 <= k < |workers| :: workers[k].id }

  ghost predicate FailedSince(p: Pool, p': Pool, id: nat) { id in p'.settlements && id !in p.settlements }

  function Lost(c: Computation): Computation { c.(failed := true, outcome := Rejected) }

  /**
   * Work was handed out in the order it came. A computation failed for each worker that could not be
   * created and each one that could not be reached, and for no other reason; an unreachable worker went.
   */
  ghost predicate HandedOut(starts: nat -> bool, accepts: nat -> bool, p: Pool, from: Tries, p': Pool, to: Tries) {
    && from.created <= to.created && from.posts <= to.posts && from.nextSlot <= to.nextSlot
    && (var unmade, lost := Missed(starts, from.created, to.created), Missed(accepts, from.posts, to.posts);
        && |p'.settlements| == |p.settlements| + unmade + lost
        && |p'.workers| + unmade + lost == |p.workers| + to.created - from.created
        && |p'.queue| + (to.posts - from.posts) + unmade == |p.queue|)
    && p'.queue == p.queue[|p.queue| - |p'.queue|..] && p.settlements <= p'.settlements
    && (forall x :: x in SlotIds(p'.workers) ==> x in SlotIds(p.workers) || x >= from.nextSlot)
    && p'.computations.Keys == p.computations.Keys
    && (forall id :: id in p.computations ==>
          p'.computations[id] == if FailedSince(p, p', id) then Lost(p.computations[id]) else p.computations[id])
  }

  lemma NothingHanded(starts: nat -> bool, accepts: nat -> bool, p: Pool, from: Tries)
    ensures HandedOut(starts, accepts, p, from, p, from)
  {
  }

  /** The head of the queue went to slot `k`, which may be new - or it failed, and an unreachable worker went. */
  ghost predicate HandsOver(starts: nat -> bool, accepts: nat -> bool, p: Pool, from: Tries, k: nat, p': Pool, to: Tries) {
    && p.queue != [] && k <= |p.workers|
    && var head, isNew := p.queue[0], k == |p.workers|;
       var made := !isNew || starts(from.created);
       var workers := if isNew && made then p.workers + [Slot(from.nextSlot, None)] else p.workers;
       && head in p.computations
       && to == Tries(from.created + (if isNew then 1 else 0), from.posts + (if made then 1 else 0),
                      from.nextSlot + (if isNew && made then 1 else 0))
       && p'.queue == p.queue[1..]
       && if made && accepts(from.posts)
          then p'.workers == workers[k := Slot(workers[k].id, Some(head))]
               && p'.computations == p.computations && p'.settlements == p.settlements
          else p'.workers == (if made then WithoutSlot(workers, k) else p.workers)
               && p'.computations == p.computations[head := Lost(p.computations[head])] && p'.settlements == p.settlements + [head]
  }

  lemma SlotIdsWithout(workers: seq<Slot>, k: nat)
    requires k < |workers|
    ensures SlotIds(WithoutSlot(workers, k)) <= SlotIds(workers)
  {
    var rest := WithoutSlot(workers, k);
    forall x | x in SlotIds(rest) ensures x in SlotIds(workers) {
      var i :| 0 <= i < |rest| && rest[i].id == x;
      assert workers[if i < k then i else i + 1].id == x;
    }
  }

  lemma HandsOverSlots(starts: nat -> bool, accepts: nat -> bool, p: Pool, from: Tries, k: nat, p': Pool, to: Tries)
    requires HandsOver(starts, accepts, p, from, k, p', to)
    ensures SlotIds(p'.workers) <= SlotIds(p.workers) + {from.nextSlot}
  {
    var made := k < |p.workers| || starts(from.created);
    if made {
      var workers := if k == |p.workers| then p.workers + [Slot(from.nextSlot, None)] else p.workers;
      SlotIdsWithout(workers, k);
      forall x | x in SlotIds(p'.workers) ensures x in SlotIds(workers) {
        if accepts(from.posts) {
          var i :| 0 <= i < |p'.workers| && p'.workers[i].id == x;
          assert workers[i].id == x;
        }
      }
      forall x | x in SlotIds(workers) ensures x in SlotIds(p.workers) + {from.nextSlot} {
        var i :| 0 <= i < |workers| && workers[i].id == x;
        assert i < |p.workers| ==> p.workers[i].id == x;
      }
    }
  }

  lemma HandedOneMore(starts: nat -> bool, accepts: nat -> bool, p: Pool, from: Tries, q: Pool, mid: Tries, k: nat, p': Pool, to: Tries)
    requires HandedOut(starts, accepts, p, from, q, mid) && HandsOver(starts, accepts, q, mid, k, p', to)
    requires q.queue[0] !in q.settlements
    ensures HandedOut(starts, accepts, p, from, p', to)
  {
    hide SlotIds;
    HandsOverSlots(starts, accepts, q, mid, k, p', to);
    assert p'.queue == p.queue[|p.queue| - |p'.queue|..];
    forall id | id in p.computations
      ensures p'.computations[id] == if FailedSince(p, p', id) then Lost(p.computations[id]) else p.computations[id]
    {
      assert FailedSince(p, p', id) <==> FailedSince(p, q, id) || FailedSince(q, p', id);
    }
  }

  datatype Message = Progress(id: nat, processed: int) | Failure(id: nat) | Result(id: nat)

  /** How far a progress report may move: never back, never past the end. */
  function Clamp(processed: int, total: nat): nat {
    if processed <= 0 then 0 else if processed <= total then processed else total
  }

  /** A computation after a progress report; `thrown`: the callback throws if it is called. */
  function Reported(c: Computation, closed: bool, processed: int, thrown: bool): Computation {
    var next := Clamp(processed, c.total);
    if c.failed || closed || next <= c.processed then c else c.(processed := next, failed := thrown)
  }

  /** Whatever is reported in whatever order: never back, never past the total, and nothing after a failure. */
  lemma {:induction false} ProgressRises(c: Computation, reports: seq<(int, bool)>)
    requires c.processed <= c.total
    ensures var c' := AllReported(c, reports);
            && c.processed <= c'.processed <= c.total && c'.total == c.total && (c.failed ==> c' == c)
            && (!c'.failed ==> forall k :: 0 <= k < |reports| ==> reports[k].0 <= c'.processed || c'.processed == c.total)
    decreases |reports|
  {
    if reports != [] {
      var next := Reported(c, false, reports[0].0, reports[0].1);
      ProgressRises(next, reports[1..]);
      assert forall k :: 1 <= k < |reports| ==> reports[k] == reports[1..][k - 1];
    }
  }

  function AllReported(c: Computation, reports: seq<(int, bool)>): Computation
    decreases |reports|
  {
    if reports == [] then c else AllReported(Reported(c, false, reports[0].0, reports[0].1), reports[1..])
  }

  function Arrival(p: Pool, id: nat, total: nat): Pool {
    p.(queue := p.queue + [id], computations := p.computations[id := Computation(total, 0, false, Pending)])
  }

  lemma QueuedIsOpen(p: Pool, next: nat, nextSlot: nat)
    requires Consistent(p, next, nextSlot)
    ensures p.queue != [] ==> p.queue[0] in p.computations && p.computations[p.queue[0]].outcome.Pending? && p.queue[0] !in p.settlements
  {
    if p.queue != [] { assert IsPending(p, p.queue[0]); }
  }

  lemma RunningIsOpen(p: Pool, next: nat, nextSlot: nat, k: nat)
    requires Consistent(p, next, nextSlot) && k < |p.workers| && p.workers[k].current.Some?
    ensures IsPending(p, p.workers[k].current.value)
  {
  }

  lemma SlotGone(p: Pool, next: nat, nextSlot: nat, k: nat)
    requires Consistent(p, next, nextSlot) && k < |p.workers|
    ensures p.workers[k].id !in SlotIds(WithoutSlot(p.workers, k)) && p.workers[k].id < nextSlot
  {
    var rest := WithoutSlot(p.workers, k);
    assert forall i :: 0 <= i < |rest| ==> rest[i] == p.workers[if i < k then i else i + 1];
  }

  lemma SlotStaysGone(starts: nat -> bool, accepts: nat -> bool, p: Pool, from: Tries, p': Pool, to: Tries, slot: nat)
    requires HandedOut(starts, accepts, p, from, p', to) && slot !in SlotIds(p.workers) && slot < from.nextSlot
    ensures slot !in SlotIds(p'.workers) && p.settlements <= p'.settlements
  {
  }

  lemma SettledStays(starts: nat -> bool, accepts: nat -> bool, p: Pool, from: Tries, p': Pool, to: Tries, id: nat)
    requires HandedOut(starts, accepts, p, from, p', to) && id in p.settlements && id in p.computations
    ensures id in p'.settlements && id in p'.computations && p'.computations[id] == p.computations[id]
    ensures p.settlements <= p'.settlements
  {
  }

  class AttributionWorkerPool {
    const concurrency: nat
    const starts: nat -> bool         // whether the n-th worker can be created,
    const accepts: nat -> bool        // whether the n-th piece of work posted reaches its worker,
    const throws: nat -> bool         // whether the caller's callback throws at the n-th call
    var queue: seq<nat>
    var workers: seq<Slot>
    var computations: map<nat, Computation>
    var nextTaskId: nat
    var nextSlot: nat
    var closed: bool
    var created: nat
    var posts: nat
    var callbacks: nat
    ghost var settlements: seq<nat>

    ghost function TriesNow(): Tries
      reads this
    {
      Tries(created, posts, nextSlot)
    }

    ghost function Now(): Pool
      reads this
    {
      Pool(queue, workers, computations, settlements)
    }

    /** Holds inside a turn as well. */
    ghost predicate Sound()
      reads this
    {
      && concurrency > 0 && Consistent(Now(), nextTaskId, nextSlot) && |workers| <= concurrency
      && (closed ==> queue == [] && workers == [])
    }

    ghost predicate Valid()
      reads this
    {
      Sound() && AtRest(Now(), concurrency)
    }

    constructor (concurrency: nat, starts: nat -> bool, accepts: nat -> bool, throws: nat -> bool)
      requires concurrency > 0
      ensures Valid() && this.concurrency == concurrency && computations == map[] && !closed
      ensures this.starts == starts && this.accepts == accepts && this.throws == throws
    {
      this.concurrency, this.starts, this.accepts, this.throws := concurrency, starts, accepts, throws;
      queue, workers, computations, settlements := [], [], map[], [];
      nextTaskId, nextSlot, closed, created, posts, callbacks := 1, 0, false, 0, 0, 0;
    }

    /** Nothing to compute is answered at once; a closed pool refuses. */
    method Compute(total: nat) returns (id: Option<nat>)
      requires Valid()
      modifies this
      ensures Valid() && closed == old(closed)
      ensures closed || total == 0 ==> id.None? && Now() == old(Now())
      ensures !closed && total > 0 ==> id == Some(old(nextTaskId)) && id.value !in old(computations)
      ensures !closed && total > 0 ==> HandedOut(starts, accepts, Arrival(old(Now()), id.value, total), old(TriesNow()), Now(), TriesNow())
    {
      if closed || total == 0 { return None; }
      ghost var p := Now();
      id := Some(nextTaskId);
      computations := computations[nextTaskId := Computation(total, 0, false, Pending)];
      queue := queue + [nextTaskId];
      ArriveKeeps(p, nextTaskId, nextSlot, total, Now());
      nextTaskId := nextTaskId + 1;
      assert Now() == Arrival(p, id.value, total);
      Dispatch();
    }

    /** The first slot that has no work. */
    method FindIdle() returns (k: nat)
      ensures k <= |workers| && (k < |workers| ==> workers[k].current.None?)
      ensures k == |workers| ==> forall l :: 0 <= l < |workers| ==> workers[l].current.Some?
    {
      k := 0;
      while k < |workers| && workers[k].current.Some?
        invariant k <= |workers| && forall l :: 0 <= l < k ==> workers[l].current.Some?
      {
        k := k + 1;
      }
    }

    /**
     * Hands queued work to idle or new slots until either runs out. A worker that cannot be started or
     * reached fails that one computation, and goes.
     */
    method Dispatch()
      requires Sound()
      modifies this`queue, this`workers, this`computations, this`nextSlot, this`settlements, this`created, this`posts
      ensures Valid() && HandedOut(starts, accepts, old(Now()), old(TriesNow()), Now(), TriesNow())
    {
      hide Consistent, HandedOut;
      NothingHanded(starts, accepts, Now(), TriesNow());
      if closed { return; }
      while queue != []
        invariant Sound() && HandedOut(starts, accepts, old(Now()), old(TriesNow()), Now(), TriesNow())
        decreases |queue|
      {
        var k := FindIdle();
        if k == |workers| && |workers| >= concurrency { return; }
        ghost var p, from := Now(), TriesNow();
        QueuedIsOpen(p, nextTaskId, nextSlot);
        HandOver(k);
        HandedOneMore(starts, accepts, old(Now()), old(TriesNow()), p, from, k, Now(), TriesNow());
      }
    }

    method HandOver(idle: nat)
      requires Sound() && !closed && queue != [] && idle <= |workers|
      requires if idle < |workers| then workers[idle].current.None? else |workers| < concurrency
      modifies this`queue, this`workers, this`computations, this`nextSlot, this`settlements, this`created, this`posts
      ensures Sound() && HandsOver(starts, accepts, old(Now()), old(TriesNow()), idle, Now(), TriesNow())
    {
      hide Consistent;
      QueuedIsOpen(Now(), nextTaskId, nextSlot);
      if idle == |workers| {
        var made := CreateWorker();
        if !made {
          FailHead();
          return;
        }
      }
      Post(idle);
    }

    /** Posting to a dead worker throws: the worker goes, and the computation fails. */
    method Post(k: nat)
      requires Sound() && !closed && queue != [] && k < |workers| && workers[k].current.None?
      modifies this`queue, this`workers, this`computations, this`settlements, this`posts
      ensures Sound() && queue == old(queue)[1..] && posts == old(posts) + 1 && old(queue)[0] in old(computations)
      ensures accepts(old(posts)) ==> workers == old(workers)[k := Slot(old(workers)[k].id, Some(old(queue)[0]))]
                                      && computations == old(computations) && settlements == old(settlements)
      ensures !accepts(old(posts)) ==> workers == WithoutSlot(old(workers), k) && settlements == old(settlements) + [old(queue)[0]]
                                       && computations == old(computations)[old(queue)[0] := Lost(old(computations)[old(queue)[0]])]
    {
      hide Consistent;
      ghost var p := Now();
      QueuedIsOpen(p, nextTaskId, nextSlot);
      var posted := accepts(posts);
      posts := posts + 1;
      if posted {
        workers := workers[k := Slot(workers[k].id, Some(queue[0]))];
        queue := queue[1..];
        AssignKeeps(p, nextTaskId, nextSlot, k, Now());
      } else {
        workers := WithoutSlot(workers, k);
        RemoveKeeps(p, nextTaskId, nextSlot, k, Now());
        FailHead();
      }
    }

    /** The factory may throw, and so may wiring the new worker up. */
    method CreateWorker() returns (made: bool)
      requires Sound() && !closed && |workers| < concurrency
      modifies this`workers, this`nextSlot, this`created
      ensures Sound() && created == old(created) + 1 && made == starts(old(created))
      ensures workers == if made then old(workers) + [Slot(old(nextSlot), None)] else old(workers)
      ensures nextSlot == old(nextSlot) + if made then 1 else 0
    {
      made := starts(created);
      created := created + 1;
      if made {
        ghost var p := Now();
        workers := workers + [Slot(nextSlot, None)];
        AddSlotKeeps(p, nextTaskId, nextSlot);
        nextSlot := nextSlot + 1;
      }
    }

    method FailHead()
      requires Sound() && queue != []
      modifies this`queue, this`computations, this`settlements
      ensures Sound() && queue == old(queue)[1..] && settlements == old(settlements) + [old(queue)[0]] && old(queue)[0] in old(computations)
      ensures computations == old(computations)[old(queue)[0] := Lost(old(computations)[old(queue)[0]])]
    {
      ghost var p := Now();
      var head := queue[0];
      assert IsPending(p, head);
      queue := queue[1..];
      var c := computations[head].(failed := true, outcome := Rejected);
      computations := computations[head := c];
      settlements := settlements + [head];
      FailHeadKeeps(p, nextTaskId, nextSlot, c, Now());
    }

    /**
     * Progress only rises, up to the total, and is passed on; that the caller's callback threw is remembered
     * and does not stop the computation.
     */
    method ReportProgress(c: Computation, processed: int) returns (c': Computation)
      requires c.outcome.Pending?
      modifies this`callbacks
      ensures c' == Reported(c, closed, processed, throws(old(callbacks)))
      ensures callbacks == old(callbacks) + if c' != c then 1 else 0
    {
      c' := c;
      if c.failed || closed { return; }
      var next := Clamp(processed, c.total);
      if next <= c.processed { return; }
      var thrown := throws(callbacks);
      callbacks := callbacks + 1;
      c' := c.(processed := next, failed := thrown);
    }

    /** Resolved exactly when the worker succeeded and no callback has thrown. */
    method FinishComputation(c: Computation, ok: bool) returns (c': Computation)
      requires c.outcome.Pending?
      modifies this`callbacks
      ensures c'.outcome == if ok && !Reported(c, closed, c.total, throws(old(callbacks))).failed then Resolved else Rejected
      ensures c'.total == c.total && (c'.outcome.Resolved? <==> !c'.failed)
      ensures c'.outcome.Resolved? && !closed && c.processed <= c.total ==> c'.processed == c.total
    {
      if ok { c' := ReportProgress(c, c.total); } else { c' := c.(failed := true); }
      c' := c'.(outcome := if c'.failed then Rejected else Resolved);
    }

    /**
     * A message counts only for the computation its live slot is working on: progress is recorded, a result
     * settles it - as resolved unless a callback threw - and a failure settles it as rejected.
     */
    method OnMessage(k: nat, message: Message)
      requires Valid() && k < |workers|
      modifies this
      ensures Valid() && closed == old(closed) && old(settlements) <= settlements
      ensures old(workers[k].current) != Some(message.id) ==> Now() == old(Now())
      ensures old(workers[k].current) == Some(message.id) ==> message.id in old(computations) && message.id in computations
      ensures old(workers[k].current) == Some(message.id) ==>
        match message
        case Progress(id, processed) =>
          Now() == old(Now()).(computations := old(computations)[id := Reported(old(computations)[id], closed, processed, throws(old(callbacks)))])
        case Failure(id) => id in settlements && computations[id].outcome == Rejected && old(workers[k]).id !in SlotIds(workers)
        case Result(id) =>
          var c := old(computations)[id];
          id in settlements && computations[id].outcome == if Reported(c, closed, c.total, throws(old(callbacks))).failed then Rejected else Resolved
    {
      hide Consistent, HandedOut, FailedSince;
      if workers[k].current != Some(message.id) { return; }
      RunningIsOpen(Now(), nextTaskId, nextSlot, k);
      match message {
        case Progress(id, processed) =>
          ghost var p := Now();
          var c := ReportProgress(computations[id], processed);
          computations := computations[id := c];
          ProgressKeeps(p, nextTaskId, nextSlot, id, c);
        case Failure(_) => OnWorkerFailure(k);
        case Result(id) =>
          FreeSlot(k, id, true);
          ghost var p, from := Now(), TriesNow();
          Dispatch();
          SettledStays(starts, accepts, p, from, Now(), TriesNow(), id);
      }
    }

    method FreeSlot(k: nat, id: nat, ok: bool)
      requires Sound() && k < |workers| && workers[k].current == Some(id)
      modifies this`workers, this`computations, this`settlements, this`callbacks
      ensures Sound() && workers == old(workers)[k := Slot(old(workers)[k].id, None)]
      ensures settlements == old(settlements) + [id] && id in old(computations)
      ensures computations == old(computations)[id := computations[id]]
      ensures var c := old(computations)[id];
              computations[id].outcome == if ok && !Reported(c, closed, c.total, throws(old(callbacks))).failed then Resolved else Rejected
    {
      hide Consistent;
      ghost var p := Now();
      RunningIsOpen(p, nextTaskId, nextSlot, k);
      workers := workers[k := Slot(workers[k].id, None)];
      var c := FinishComputation(computations[id], ok);
      computations := computations[id := c];
      settlements := settlements + [id];
      FinishKeeps(p, nextTaskId, nextSlot, k, id, c, Now());
    }

    /** A worker that erred or exited is removed, and its computation fails. */
    method OnWorkerFailure(k: nat)
      requires Valid() && k < |workers|
      modifies this`queue, this`workers, this`computations, this`nextSlot, this`settlements, this`created, this`posts, this`callbacks
      ensures Valid() && old(settlements) <= settlements && old(workers[k]).id !in SlotIds(workers)
      ensures old(workers[k].current).Some? ==> var id := old(workers[k].current).value;
                id in computations && computations[id].outcome == Rejected && id in settlements
    {
      hide Consistent, HandedOut, FailedSince;
      ghost var slot := workers[k];
      Drop(k);
      ghost var p, from := Now(), TriesNow();
      Dispatch();
      SlotStaysGone(starts, accepts, p, from, Now(), TriesNow(), slot.id);
      if slot.current.Some? { SettledStays(starts, accepts, p, from, Now(), TriesNow(), slot.current.value); }
    }

    method Drop(k: nat)
      requires Sound() && k < |workers|
      modifies this`workers, this`computations, this`settlements, this`callbacks
      ensures Sound() && workers == WithoutSlot(old(workers), k) && old(settlements) <= settlements
      ensures old(workers)[k].id !in SlotIds(workers) && old(workers)[k].id < nextSlot
      ensures old(workers[k].current).Some? ==> var id := old(workers[k].current).value;
                id in computations && computations[id].outcome == Rejected && id in settlements
    {
      hide Consistent;
      ghost var was := Now();
      var current := workers[k].current;
      if current.Some? { FreeSlot(k, current.value, false); }
      ghost var p := Now();
      workers := WithoutSlot(workers, k);
      RemoveKeeps(p, nextTaskId, nextSlot, k, Now());
      SlotGone(was, nextTaskId, nextSlot, k);
    }

    /** Shutting down settles everything still open, and leaves no worker. */
    method Destroy()
      requires Valid()
      modifies this
      ensures Valid() && closed && workers == [] && queue == [] && old(settlements) <= settlements
      ensures forall id :: id in computations ==> !computations[id].outcome.Pending?
    {
      if closed {
        NothingPending(Now(), nextTaskId, nextSlot);
        return;
      }
      while queue != []
        invariant Sound() && old(settlements) <= settlements && !closed
        decreases |queue|
      {
        FailHead();
      }
      while workers != []
        invariant Sound() && old(settlements) <= settlements && queue == [] && !closed
        decreases |workers|
      {
        Drop(0);
      }
      closed := true;
      NothingPending(Now(), nextTaskId, nextSlot);
    }

    /** Every computation is in exactly one place, and its promise settles exactly once. */
    lemma OnePlace(id: nat)
      requires Valid() && id in computations
      ensures (id in queue) || Runs(workers, id) || (id in settlements)
      ensures !(id in queue && Runs(workers, id)) && !(id in queue && id in settlements) && !(Runs(workers, id) && id in settlements)
      ensures multiset(settlements)[id] <= 1 && multiset(queue)[id] <= 1
    {
      var p := Now();
      if Runs(workers, id) {
        var k :| 0 <= k < |workers| && workers[k].current == Some(id);
        assert IsPending(p, workers[k].current.value);
      }
      if id in queue { assert IsPending(p, id); }
      if id !in settlements { assert IsPending(p, id); }
      OnceOnly(settlements, id);
      OnceOnly(queue, id);
    }
  }

  lemma NothingPending(p: Pool, next: nat, nextSlot: nat)
    requires Consistent(p, next, nextSlot) && p.queue == [] && p.workers == []
    ensures forall id :: id in p.computations ==> !p.computations[id].outcome.Pending?
  {
    forall id | id in p.computations ensures !p.computations[id].outcome.Pending? {
      assert !IsPending(p, id);
    }
  }

  lemma {:induction false} OnceOnly(ids: seq<nat>, id: nat)
    requires Distinct(ids)
    ensures multiset(ids)[id] <= 1
  {
    if ids != [] {
      HeadGone(ids);
      OnceOnly(ids[1..], id);
      assert ids == [ids[0]] + ids[1..];
    }
  }
}
