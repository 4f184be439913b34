/** What the scheduler's turns do to the nodes' slots, to slices a node holds, and to the demands of a page's rows. */
module TurnLaws {
  import opened Options
  import opened Tasks
  import opened Ledger
  import opened NodeRegistry
  import opened SchedulerState
  import BacklogReader

  // ----- slots -----

  /** Nodes only gain tasks, keep those they have, and none gets more than its capacity allows, or one if it allows none. */
  ghost predicate OnlyFilled(nodes: map<string, LiveNode>, nodes': map<string, LiveNode>) {
    && nodes'.Keys == nodes.Keys
    && forall n :: n in nodes ==> Filled(nodes[n], nodes'[n])
  }

  ghost predicate Filled(node: LiveNode, node': LiveNode) {
    && node'.info == node.info && node'.version == node.version && node'.session == node.session && node'.lastHeartbeat == node.lastHeartbeat
    && (forall id :: id in node.active ==> id in node'.active && node'.active[id] == node.active[id])
    && (forall id :: id in node'.active && id !in node.active ==> node'.active[id].notify)
    && (|node'.active| == |node.active| || |node'.active| == 1 || |node'.active| <= node.info.capacity)
  }

  lemma FilledFurther(a: LiveNode, b: LiveNode, c: LiveNode)
    requires Filled(a, b) && Filled(b, c)
    ensures Filled(a, c)
  {
  }

  lemma MoveFills(delivers: nat -> bool, sends: nat, timeout: int, s: State, move: Move, s': State)
    requires Moved(s, move, s') && Tried(delivers, sends, timeout, s, move)
    ensures OnlyFilled(s.nodes, s'.nodes)
  {
    hide Takes, HasActiveSlice, Eligible, SomeIdle, PickedFor;
    if move.Deliver? {
      TakesHasRoom(s.nodes[move.node], move.task, move.t.asked, timeout);
    }
  }

  /** What is true of every step of a path is true of its last one. */
  lemma LastMove(from: State, moves: seq<(Move, State)>, to: State) returns (mid: State)
    requires Path(from, moves, to) && moves != []
    ensures var n := |moves| - 1; Path(from, moves[..n], mid) && Moved(mid, moves[n].0, to) && mid == StateAt(from, moves, n)
  {
    var n := |moves| - 1;
    mid :| Path(from, moves[..n], mid) && Moved(mid, moves[n].0, to);
    assert n > 0 ==> moves[..n][n - 1] == moves[n - 1];
  }

  lemma TriedBefore(delivers: nat -> bool, timeout: int, from: State, moves: seq<(Move, State)>, clock: int, clock': int, sends: nat, sends': nat)
    requires moves != [] && AllTried(delivers, timeout, from, moves, clock, clock', sends, sends')
    ensures AllTried(delivers, timeout, from, moves[..|moves| - 1], clock, clock', sends, sends')
  {
    hide Tried;
    var n := |moves| - 1;
    forall k | 0 <= k < n && !moves[..n][k].0.Stay? ensures Tried(delivers, sends', timeout, StateAt(from, moves[..n], k), moves[..n][k].0) {
      assert moves[..n][k] == moves[k] && StateAt(from, moves[..n], k) == StateAt(from, moves, k);
    }
  }

  /** Filling the nodes never lifts a node above its capacity. */
  lemma {:induction false} PathFills(delivers: nat -> bool, timeout: int, from: State, moves: seq<(Move, State)>, to: State,
                                     clock: int, clock': int, sends: nat, sends': nat)
    requires Path(from, moves, to) && AllTried(delivers, timeout, from, moves, clock, clock', sends, sends')
    ensures OnlyFilled(from.nodes, to.nodes)
  {
    hide Tried, Moved, Filled;
    if moves != [] {
      var n := |moves| - 1;
      var mid := LastMove(from, moves, to);
      TriedBefore(delivers, timeout, from, moves, clock, clock', sends, sends');
      PathFills(delivers, timeout, from, moves[..n], mid, clock, clock', sends, sends');
      if moves[n].0.Stay? { StayFills(mid, moves[n].0, to); } else { MoveFills(delivers, sends', timeout, mid, moves[n].0, to); }
      forall m | m in from.nodes ensures Filled(from.nodes[m], to.nodes[m]) { FilledFurther(from.nodes[m], mid.nodes[m], to.nodes[m]); }
    } else {
      NothingFilled(from.nodes);
    }
  }

  lemma NothingFilled(nodes: map<string, LiveNode>)
    ensures OnlyFilled(nodes, nodes)
  {
  }

  lemma StayFills(s: State, move: Move, s': State)
    requires move.Stay? && Moved(s, move, s')
    ensures OnlyFilled(s.nodes, s'.nodes)
  {
  }

  // ----- slices that are held -----

  ghost predicate HeldAs(nodes: map<string, LiveNode>, n: string, id: string, q: Slice) {
    n in nodes && id in nodes[n].active && nodes[n].active[id].slice == Some(q)
  }

  ghost predicate Queued(b: Books, q: Slice) { exists i :: 0 <= i < |b.queue| && b.queue[i].slice == q }

  /** Neither queued nor sent: no step offers or sends the slice, and it is queued only if it was before. */
  ghost predicate LeftAlone(q: Slice, b: Books, b': Books) {
    && b.trace <= b'.trace
    && (forall i :: |b.trace| <= i < |b'.trace| ==>
          !(b'.trace[i].Sent? && b'.trace[i].task.slice == q) && !(b'.trace[i].Offered? && b'.trace[i].slice == q))
    && (Queued(b', q) ==> Queued(b, q))
  }

  /** Whatever a node holds it goes on holding, and meanwhile its slice is neither queued nor sent. */
  ghost predicate KeepsHeld(s: State, s': State) {
    forall n, id, q :: HeldAs(s.nodes, n, id, q) ==> HeldAs(s'.nodes, n, id, q) && LeftAlone(q, s.b, s'.b)
  }

  lemma AloneFurther(q: Slice, a: Books, b: Books, c: Books)
    requires LeftAlone(q, a, b) && LeftAlone(q, b, c)
    ensures LeftAlone(q, a, c)
  {
    forall i | |a.trace| <= i < |c.trace|
      ensures !(c.trace[i].Sent? && c.trace[i].task.slice == q) && !(c.trace[i].Offered? && c.trace[i].slice == q)
    {
      if i < |b.trace| { assert b.trace[i] == c.trace[i]; }
    }
  }

  lemma KeepsFurther(a: State, b: State, c: State)
    requires KeepsHeld(a, b) && KeepsHeld(b, c)
    ensures KeepsHeld(a, c)
  {
    hide HeldAs, LeftAlone;
    forall n, id, q | HeldAs(a.nodes, n, id, q) ensures HeldAs(c.nodes, n, id, q) && LeftAlone(q, a.b, c.b) {
      AloneFurther(q, a.b, b.b, c.b);
    }
  }

  lemma NothingDone(s: State, s': State)
    requires s'.nodes == s.nodes && s'.b == s.b
    ensures KeepsHeld(s, s')
  {
  }

  lemma MoveKeepsHeld(s: State, move: Move, s': State)
    requires Moved(s, move, s') && OnlyFilled(s.nodes, s'.nodes)
    ensures KeepsHeld(s, s')
  {
    hide LeftAlone, Moved;
    forall n, id, q | HeldAs(s.nodes, n, id, q) ensures HeldAs(s'.nodes, n, id, q) && LeftAlone(q, s.b, s'.b) {
      assert Holds(s.nodes[n], q) && HasActiveSlice(s.nodes, q);
      MoveLeavesAlone(s, move, s', q);
      assert Filled(s.nodes[n], s'.nodes[n]);
    }
  }

  lemma MoveLeavesAlone(s: State, move: Move, s': State, q: Slice)
    requires Moved(s, move, s') && HasActiveSlice(s.nodes, q)
    ensures LeftAlone(q, s.b, s'.b)
  {
    hide HasActiveSlice;
    if !move.Stay? { IsRemovedAt(s.b.queue, move.i); }
  }

  lemma {:induction false} PathKeepsHeld(delivers: nat -> bool, timeout: int, from: State, moves: seq<(Move, State)>, to: State,
                                         clock: int, clock': int, sends: nat, sends': nat)
    requires Path(from, moves, to) && AllTried(delivers, timeout, from, moves, clock, clock', sends, sends')
    ensures KeepsHeld(from, to)
  {
    hide Tried, Moved, OnlyFilled, KeepsHeld;
    if moves != [] {
      var n := |moves| - 1;
      var mid := LastMove(from, moves, to);
      TriedBefore(delivers, timeout, from, moves, clock, clock', sends, sends');
      PathKeepsHeld(delivers, timeout, from, moves[..n], mid, clock, clock', sends, sends');
      if moves[n].0.Stay? { StayFills(mid, moves[n].0, to); } else { MoveFills(delivers, sends', timeout, mid, moves[n].0, to); }
      MoveKeepsHeld(mid, moves[n].0, to);
      KeepsFurther(from, mid, to);
    } else {
      NothingDone(from, to);
    }
  }

  lemma OfferLeavesAlone(b: Books, t: Task, run: int, held: bool, first: bool, q: Slice)
    requires q == t.slice ==> held
    ensures LeftAlone(q, b, Offer(b, t, run, held, first))
  {
  }

  lemma OfferRowKeepsHeld(ids: IdScheme, s: State)
    requires HasRow(s.p)
    ensures KeepsHeld(s, OfferRow(ids, s))
  {
    hide LeftAlone, Offer;
    var s' := OfferRow(ids, s);
    var row := s.p.buffered.value.page.rows[s.p.buffered.value.index];
    var t := RowTask(ids, LeaderRun(s.p), row);
    forall n, id, q | HeldAs(s.nodes, n, id, q) ensures HeldAs(s'.nodes, n, id, q) && LeftAlone(q, s.b, s'.b) {
      assert Holds(s.nodes[n], q) && HasActiveSlice(s.nodes, q);
      OfferLeavesAlone(s.b, t, ids.runOf(t.id), HasActiveSlice(s.nodes, t.slice), true, q);
    }
  }

  lemma {:induction false} OfferRowsKeepHeld(ids: IdScheme, max: nat, s: State)
    ensures KeepsHeld(s, OfferRows(ids, max, s))
    decreases if HasRow(s.p) then |s.p.buffered.value.page.rows| - s.p.buffered.value.index else 0
  {
    hide KeepsHeld;
    if HasRow(s.p) && |s.b.queue| + |s.b.inflight| < max {
      OfferRowKeepsHeld(ids, s);
      OfferRowsKeepHeld(ids, max, OfferRow(ids, s));
      KeepsFurther(s, OfferRow(ids, s), OfferRows(ids, max, s));
    } else {
      NothingDone(s, s);
    }
  }

  lemma PageKeepsHeld(ids: IdScheme, log: seq<BacklogReader.Row>, max: nat, s: State)
    requires HasLeader(s.p)
    ensures KeepsHeld(s, PageUsed(ids, log, max, s))
  {
    hide KeepsHeld, OfferRows, HeldAs;
    var adopted := s.(run := LeaderRun(s.p));
    var offered := OfferRows(ids, max, adopted);
    NothingDone(s, adopted);
    OfferRowsKeepHeld(ids, max, adopted);
    KeepsFurther(s, adopted, offered);
    var used := PageUsed(ids, log, max, s);
    if HasLeader(offered.p) && !HasRow(offered.p) { SkippingKeepsHeld(offered, used); }
    KeepsFurther(s, offered, used) by { if !(HasLeader(offered.p) && !HasRow(offered.p)) { NothingDone(offered, used); } }
  }

  lemma SkippingKeepsHeld(s: State, s': State)
    requires s'.nodes == s.nodes && exists run, slices, look :: s'.b == Record(s.b, Skipped(run, slices, look))
    ensures KeepsHeld(s, s')
  {
  }

  /** A settled task is retried only while no node holds its slice. */
  lemma SettlingKeepsHeld(ids: IdScheme, s: State, id: string, failed: bool)
    requires id in s.b.dispatched
    ensures KeepsHeld(s, AfterSettling(ids, s, id, failed))
  {
    hide LeftAlone, Settle;
    var s' := AfterSettling(ids, s, id, failed);
    forall n, k, q | HeldAs(s.nodes, n, k, q) ensures HeldAs(s'.nodes, n, k, q) && LeftAlone(q, s.b, s'.b) {
      assert Holds(s.nodes[n], q) && HasActiveSlice(s.nodes, q);
      SettleLeavesAlone(ids, s.b, id, failed, HasActiveSlice(s.nodes, s.b.dispatched[id].slice), q);
    }
  }

  lemma SettleLeavesAlone(ids: IdScheme, b: Books, id: string, failed: bool, held: bool, q: Slice)
    requires id in b.dispatched && (q == b.dispatched[id].slice ==> held)
    ensures LeftAlone(q, b, Settle(ids, b, id, failed, held))
  {
    hide LeftAlone, Offer, Remember, AfterHeard;
    var t, run := b.dispatched[id], ids.runOf(id);
    var heard := Released(b, id, run, failed);
    NotingLeavesAlone(q, b, heard);
    HeardLeavesAlone(ids, heard, t, BaseOf(b, id), run, failed, held, q);
    AloneFurther(q, b, heard, Settle(ids, b, id, failed, held));
  }

  lemma HeardLeavesAlone(ids: IdScheme, b: Books, t: Task, base: string, run: int, failed: bool, held: bool, q: Slice)
    requires q == t.slice ==> held
    ensures LeftAlone(q, b, AfterHeard(ids, b, t, base, run, failed, held))
  {
    hide LeftAlone, Offer, Remember;
    var attempt, cleared := Count(b.attempts, base) + 1, b.(attempts := Without(b.attempts, base));
    NotingLeavesAlone(q, b, cleared);
    if !failed {
      RememberLeavesAlone(cleared, t.slice, run, q);
      AloneFurther(q, b, cleared, Remember(cleared, t.slice, run));
    } else if attempt <= MAX_ATTEMPTS {
      var again := Retry(ids, base, attempt, t);
      var counted := b.(attempts := b.attempts[base := attempt], retryBases := b.retryBases[again.id := base]);
      NotingLeavesAlone(q, b, counted);
      OfferLeavesAlone(counted, again, ids.runOf(again.id), held, false, q);
      AloneFurther(q, b, counted, Offer(counted, again, ids.runOf(again.id), held, false));
    } else {
      var gone := Record(cleared, GaveUp(run, t.slice));
      NotingLeavesAlone(q, cleared, gone);
      RememberLeavesAlone(gone, t.slice, run, q);
      AloneFurther(q, b, cleared, gone);
      AloneFurther(q, b, gone, Remember(gone, t.slice, run));
    }
  }

  /** Steps that neither offer nor send leave every slice alone. */
  lemma NotingLeavesAlone(q: Slice, b: Books, b': Books)
    requires b'.queue == b.queue && b.trace <= b'.trace
    requires forall i :: |b.trace| <= i < |b'.trace| ==> !b'.trace[i].Sent? && !b'.trace[i].Offered?
    ensures LeftAlone(q, b, b')
  {
  }

  lemma RememberLeavesAlone(b: Books, s: Slice, run: int, q: Slice)
    ensures LeftAlone(q, b, Remember(b, s, run))
  {
    hide Gone, Dropped, RunRemembered, After;
    var renewed := Renew(b, s, run);
    NotingLeavesAlone(q, b, renewed);
    if |renewed.recent| > RECENT_SLICE_LIMIT {
      NotingLeavesAlone(q, renewed, EvictOldest(renewed));
      AloneFurther(q, b, renewed, EvictOldest(renewed));
    }
  }

  // ----- what a page's rows ask for -----

  ghost predicate Demands(rows: seq<BacklogReader.BacklogRow>, q: Slice, rust: bool) {
    exists k :: 0 <= k < |rows| && rows[k].slice == q && rows[k].rust == rust
  }

  ghost predicate OfferedIn(b: Books, from: nat, q: Slice, rust: bool) {
    exists i :: from <= i < |b.trace| && b.trace[i].Offered? && b.trace[i].slice == q && b.trace[i].rust == rust
  }

  /** The queued task came with a row of the page, whose demand for a Rust node it carries and the history notes. */
  ghost predicate Demanded(rows: seq<BacklogReader.BacklogRow>, from: nat, b: Books, t: Task) {
    exists rust :: Demands(rows, t.slice, rust) && (rust ==> t.rust) && OfferedIn(b, from, t.slice, rust)
  }

  ghost predicate Follows(t: Task, t': Task) { t'.id == t.id && t'.slice == t.slice && (t.rust ==> t'.rust) }

  /** The task was queued before, at most newly bound to Rust nodes since. */
  ghost predicate KeptFrom(b: Books, t: Task) { exists k :: 0 <= k < |b.queue| && Follows(b.queue[k], t) }

  /** What was offered since are rows of the page as they are, and what is queued was queued before or came with one of them. */
  ghost predicate Carries(rows: seq<BacklogReader.BacklogRow>, b: Books, b': Books) {
    && b.trace <= b'.trace
    && (forall i :: |b.trace| <= i < |b'.trace| && b'.trace[i].Offered? ==> Demands(rows, b'.trace[i].slice, b'.trace[i].rust))
    && (forall k :: 0 <= k < |b'.queue| ==> KeptFrom(b, b'.queue[k]) || Demanded(rows, |b.trace|, b', b'.queue[k]))
  }

  /** Tasks leave the queue or go to its end; nothing is offered. */
  ghost predicate OnlyDrained(b: Books, b': Books) {
    && b.trace <= b'.trace && (forall i :: |b.trace| <= i < |b'.trace| ==> !b'.trace[i].Offered?)
    && forall k :: 0 <= k < |b'.queue| ==> KeptFrom(b, b'.queue[k])
  }

  lemma MoveOnlyDrains(s: State, move: Move, s': State)
    requires Moved(s, move, s')
    ensures OnlyDrained(s.b, s'.b)
  {
    hide HasActiveSlice;
    if !move.Stay? { IsRemovedAt(s.b.queue, move.i); }
    forall k | 0 <= k < |s'.b.queue| ensures KeptFrom(s.b, s'.b.queue[k]) {
      if move.Stay? {
        assert Follows(s.b.queue[k], s'.b.queue[k]);
      } else if k == |s.b.queue| - 1 {
        assert Follows(s.b.queue[move.i], s'.b.queue[k]);
      } else {
        assert Follows(s.b.queue[if k < move.i then k else k + 1], s'.b.queue[k]);
      }
    }
  }

  lemma KeptFurther(a: Books, b: Books, t: Task)
    requires KeptFrom(b, t) && forall k :: 0 <= k < |b.queue| ==> KeptFrom(a, b.queue[k])
    ensures KeptFrom(a, t)
  {
    var m :| 0 <= m < |b.queue| && Follows(b.queue[m], t);
    var j :| 0 <= j < |a.queue| && Follows(a.queue[j], b.queue[m]);
    assert Follows(a.queue[j], t);
  }

  lemma DrainedFurther(a: Books, b: Books, c: Books)
    requires OnlyDrained(a, b) && OnlyDrained(b, c)
    ensures OnlyDrained(a, c)
  {
    hide KeptFrom;
    forall i | |a.trace| <= i < |c.trace| ensures !c.trace[i].Offered? { if i < |b.trace| { assert b.trace[i] == c.trace[i]; } }
    forall k | 0 <= k < |c.queue| ensures KeptFrom(a, c.queue[k]) { KeptFurther(a, b, c.queue[k]); }
  }

  lemma {:induction false} PathOnlyDrains(from: State, moves: seq<(Move, State)>, to: State)
    requires Path(from, moves, to)
    ensures OnlyDrained(from.b, to.b)
  {
    hide Moved, OnlyDrained;
    if moves != [] {
      var n := |moves| - 1;
      var mid := LastMove(from, moves, to);
      PathOnlyDrains(from, moves[..n], mid);
      MoveOnlyDrains(mid, moves[n].0, to);
      DrainedFurther(from.b, mid.b, to.b);
    } else {
      StaysHere(from);
      MoveOnlyDrains(from, Stay, to);
    }
  }

  lemma StaysHere(s: State)
    ensures Moved(s, Stay, s)
  {
  }

  lemma DemandedStill(rows: seq<BacklogReader.BacklogRow>, from: nat, b: Books, t: Task, b': Books, t': Task)
    requires Demanded(rows, from, b, t) && Follows(t, t') && b.trace <= b'.trace
    ensures Demanded(rows, from, b', t')
  {
    var rust :| Demands(rows, t.slice, rust) && (rust ==> t.rust) && OfferedIn(b, from, t.slice, rust);
    var i :| from <= i < |b.trace| && b.trace[i].Offered? && b.trace[i].slice == t.slice && b.trace[i].rust == rust;
    assert b'.trace[i] == b.trace[i] && OfferedIn(b', from, t'.slice, rust);
  }

  lemma CarriedStill(rows: seq<BacklogReader.BacklogRow>, a: Books, b: Books, c: Books, t: Task)
    requires Carries(rows, a, b) && b.trace <= c.trace && KeptFrom(b, t)
    ensures KeptFrom(a, t) || Demanded(rows, |a.trace|, c, t)
  {
    hide Demanded;
    var m :| 0 <= m < |b.queue| && Follows(b.queue[m], t);
    if KeptFrom(a, b.queue[m]) {
      var j :| 0 <= j < |a.queue| && Follows(a.queue[j], b.queue[m]);
      assert Follows(a.queue[j], t);
    } else {
      DemandedStill(rows, |a.trace|, b, b.queue[m], c, t);
    }
  }

  /** Draining after offering changes none of it. */
  lemma CarriesThrough(rows: seq<BacklogReader.BacklogRow>, a: Books, b: Books, c: Books)
    requires Carries(rows, a, b) && OnlyDrained(b, c)
    ensures Carries(rows, a, c)
  {
    hide Demanded, Demands, KeptFrom;
    forall i | |a.trace| <= i < |c.trace| && c.trace[i].Offered? ensures Demands(rows, c.trace[i].slice, c.trace[i].rust) {
      assert i < |b.trace| && b.trace[i] == c.trace[i];
    }
    forall k | 0 <= k < |c.queue| ensures KeptFrom(a, c.queue[k]) || Demanded(rows, |a.trace|, c, c.queue[k]) {
      CarriedStill(rows, a, b, c, c.queue[k]);
    }
  }

  lemma CarriesFurther(rows: seq<BacklogReader.BacklogRow>, a: Books, b: Books, c: Books)
    requires Carries(rows, a, b) && Carries(rows, b, c)
    ensures Carries(rows, a, c)
  {
    hide Demands, KeptFrom;
    forall i | |a.trace| <= i < |c.trace| && c.trace[i].Offered? ensures Demands(rows, c.trace[i].slice, c.trace[i].rust) {
      if i < |b.trace| { assert b.trace[i] == c.trace[i]; }
    }
    forall k | 0 <= k < |c.queue| ensures KeptFrom(a, c.queue[k]) || Demanded(rows, |a.trace|, c, c.queue[k]) {
      if KeptFrom(b, c.queue[k]) { CarriedStill(rows, a, b, c, c.queue[k]); }
    }
  }

  lemma OfferCarries(rows: seq<BacklogReader.BacklogRow>, b: Books, t: Task, run: int, held: bool)
    requires Demands(rows, t.slice, t.rust)
    ensures Carries(rows, b, Offer(b, t, run, held, true))
  {
    hide InBooks;
    var b' := Offer(b, t, run, held, true);
    forall k | 0 <= k < |b'.queue| ensures KeptFrom(b, b'.queue[k]) || Demanded(rows, |b.trace|, b', b'.queue[k]) {
      if k < |b.queue| {
        assert Follows(b.queue[k], b'.queue[k]);
      } else {
        assert b'.trace[|b.trace|] == Offered(run, t.slice, t.rust);
        assert OfferedIn(b', |b.trace|, t.slice, t.rust);
      }
    }
  }

  lemma {:induction false} OfferRowsCarry(ids: IdScheme, max: nat, s: State)
    requires s.p.buffered.Some?
    ensures Carries(s.p.buffered.value.page.rows, s.b, OfferRows(ids, max, s).b)
    decreases if HasRow(s.p) then |s.p.buffered.value.page.rows| - s.p.buffered.value.index else 0
  {
    hide Carries, Offer;
    var rows := s.p.buffered.value.page.rows;
    if HasRow(s.p) && |s.b.queue| + |s.b.inflight| < max {
      var k := s.p.buffered.value.index;
      var t := RowTask(ids, LeaderRun(s.p), rows[k]);
      assert Demands(rows, t.slice, t.rust);
      OfferCarries(rows, s.b, t, ids.runOf(t.id), HasActiveSlice(s.nodes, t.slice));
      OfferRowsCarry(ids, max, OfferRow(ids, s));
      CarriesFurther(rows, s.b, OfferRow(ids, s).b, OfferRows(ids, max, s).b);
    } else {
      StaysHere(s);
      MoveOnlyDrains(s, Stay, s);
      NothingCarried(rows, s.b);
    }
  }

  lemma NothingCarried(rows: seq<BacklogReader.BacklogRow>, b: Books)
    requires OnlyDrained(b, b)
    ensures Carries(rows, b, b)
  {
  }

  /** A page used carries the demands of its rows. */
  lemma PageCarries(ids: IdScheme, log: seq<BacklogReader.Row>, max: nat, s: State)
    requires HasLeader(s.p)
    ensures Carries(s.p.buffered.value.page.rows, s.b, PageUsed(ids, log, max, s).b)
  {
    hide Carries, OfferRows;
    var adopted := s.(run := LeaderRun(s.p));
    OfferRowsCarry(ids, max, adopted);
    var offered, used := OfferRows(ids, max, adopted), PageUsed(ids, log, max, s);
    if HasLeader(offered.p) && !HasRow(offered.p) {
      SkippingDrains(offered.b, used.b);
      CarriesThrough(s.p.buffered.value.page.rows, s.b, offered.b, used.b);
    }
  }

  lemma SkippingDrains(b: Books, b': Books)
    requires exists run, slices, look :: b' == Record(b, Skipped(run, slices, look))
    ensures OnlyDrained(b, b')
  {
    forall k | 0 <= k < |b'.queue| ensures KeptFrom(b, b'.queue[k]) { assert Follows(b.queue[k], b'.queue[k]); }
  }

  /** In a page that shows each slice once, a task that came with it needs a Rust node if its slice's row does. */
  lemma EachRowCarried(rows: seq<BacklogReader.BacklogRow>, b: Books, b': Books)
    requires Carries(rows, b, b') && forall i, j :: 0 <= i < j < |rows| ==> rows[i].slice != rows[j].slice
    ensures forall k, i :: 0 <= k < |b'.queue| && 0 <= i < |rows| && rows[i].slice == b'.queue[k].slice && rows[i].rust && !KeptFrom(b, b'.queue[k]) ==>
      b'.queue[k].rust && OfferedIn(b', |b.trace|, rows[i].slice, true)
  {
    forall k, i | 0 <= k < |b'.queue| && 0 <= i < |rows| && rows[i].slice == b'.queue[k].slice && rows[i].rust && !KeptFrom(b, b'.queue[k])
      ensures b'.queue[k].rust && OfferedIn(b', |b.trace|, rows[i].slice, true)
    {
      var t := b'.queue[k];
      var rust :| Demands(rows, t.slice, rust) && (rust ==> t.rust) && OfferedIn(b', |b.trace|, t.slice, rust);
      var j :| 0 <= j < |rows| && rows[j].slice == t.slice && rows[j].rust == rust;
      assert i == j;
    }
  }

  // ----- filling as a whole -----

  /** What every filling of the nodes does to what they hold and to the queue. */
  ghost predicate FillsOnly(s: State, s': State) { OnlyFilled(s.nodes, s'.nodes) && KeepsHeld(s, s') && OnlyDrained(s.b, s'.b) }

  lemma PathFillsOnly(delivers: nat -> bool, timeout: int, from: State, moves: seq<(Move, State)>, mid: State,
                      clock: int, clock': int, sends: nat, sends': nat, to: State)
    requires Path(from, moves, mid) && AllTried(delivers, timeout, from, moves, clock, clock', sends, sends')
    requires to.nodes == mid.nodes && to.b == mid.b
    ensures FillsOnly(from, to)
  {
    hide Path, AllTried, KeepsHeld, OnlyFilled, OnlyDrained;
    PathFills(delivers, timeout, from, moves, mid, clock, clock', sends, sends');
    PathKeepsHeld(delivers, timeout, from, moves, mid, clock, clock', sends, sends');
    PathOnlyDrains(from, moves, mid);
    NothingDone(mid, to);
    KeepsFurther(from, mid, to);
  }

  lemma NothingFills(s: State)
    ensures FillsOnly(s, s)
  {
    hide KeepsHeld, OnlyFilled, OnlyDrained;
    NothingFilled(s.nodes);
    NothingDone(s, s);
    StaysHere(s);
    MoveOnlyDrains(s, Stay, s);
  }

  /** A settlement and the filling behind it. */
  lemma SettledAndFilled(ids: IdScheme, s: State, id: string, failed: bool, s': State)
    requires id in s.b.dispatched && FillsOnly(AfterSettling(ids, s, id, failed), s')
    ensures KeepsHeld(s, s')
  {
    hide KeepsHeld, OnlyFilled, OnlyDrained, AfterSettling;
    SettlingKeepsHeld(ids, s, id, failed);
    KeepsFurther(s, AfterSettling(ids, s, id, failed), s');
  }

  /** A page used and the filling behind it. */
  lemma UsedAndFilled(ids: IdScheme, log: seq<BacklogReader.Row>, max: nat, s: State, s': State)
    requires HasLeader(s.p) && FillsOnly(PageUsed(ids, log, max, s), s')
    ensures KeepsHeld(s, s') && Carries(s.p.buffered.value.page.rows, s.b, s'.b)
  {
    hide KeepsHeld, OnlyFilled, OnlyDrained, PageUsed, Carries;
    PageKeepsHeld(ids, log, max, s);
    PageCarries(ids, log, max, s);
    KeepsFurther(s, PageUsed(ids, log, max, s), s');
    CarriesThrough(s.p.buffered.value.page.rows, s.b, PageUsed(ids, log, max, s).b, s'.b);
  }
}
