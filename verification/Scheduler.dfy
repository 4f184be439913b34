/** The cleaning scheduler: loads the backlog page by page and keeps every node's task slots filled. */
module Scheduler {
  import opened Options
  import opened Tasks
  import opened Ledger
  import opened NodeRegistry
  import opened ScanPlan
  import opened SchedulerState
  import opened TurnLaws
  import BacklogReader

  datatype ScanError = SchedulerStopped | TooManyRanges | DayNotOver

  class CleaningScheduler {
    const registry: NodeRegistry
    const ids: IdScheme
    const maxBufferedTasks: nat
    const scanPageSize: nat
    ghost const env: Env
    ghost const log: seq<BacklogReader.Row>

    var queue: seq<Task>
    var cursor: nat
    var inflight: set<Slice>
    var dispatched: map<string, Task>
    var retryBases: map<string, string>
    var attempts: map<string, nat>
    var recent: seq<Memory>
    var loadedRuns: map<int, nat>
    var dispatchedTaskCount: nat
    var drainContinuation: bool
    var scanContinuation: bool
    var stopped: bool
    var scans: seq<Entry>
    var reading: Option<Request>
    var buffered: Option<Buffered>
    var automaticRunDate: Option<int>
    var savingDailyRun: Option<int>
    var today: int

    ghost var trace: seq<Step>
    ghost var past: Past
    ghost var run: int
    ghost var holder: map<string, string>
    ghost var limit: nat
    ghost var look: Option<Look>
    ghost var seen: map<ScanKey, set<Slice>>
    ghost var swept: Option<int>

    ghost function BooksNow(): Books
      reads this
    {
      Books(queue, inflight, dispatched, retryBases, attempts, recent, loadedRuns, trace, past)
    }

    ghost function PlanNow(): Plan
      reads this
    {
      Plan(scans, reading, buffered, limit, look, seen, automaticRunDate, swept)
    }

    ghost predicate SetUp() { Sound(env) && env.ids == ids && maxBufferedTasks > 0 && scanPageSize > 0 }

    ghost predicate LogFits() { BacklogReader.IsLog(log) && env.log == BacklogReader.SlicesOf(log) }

    ghost function Now(): State
      reads this, registry
    {
      State(run, today, !stopped, savingDailyRun, BooksNow(), PlanNow(), registry.nodes, holder)
    }

    ghost predicate Valid(pending: set<string>)
      reads this, registry
    {
      SetUp() && registry.Valid() && cursor <= |queue| && InOrder(env, log, maxBufferedTasks, Now(), pending)
    }

    constructor (registry: NodeRegistry, ids: IdScheme, maxBufferedTasks: nat, scanPageSize: nat, today: int,
                 ghost decode: Decoder, ghost log: seq<BacklogReader.Row>, ghost genuine: Look -> bool)
      requires registry.Valid() && registry.nodes == map[] && maxBufferedTasks > 0 && scanPageSize > 0
      requires BacklogReader.IsLog(log) && Tells(ids, decode, BacklogReader.SlicesOf(log))
      ensures Valid({}) && LogFits() && trace == [] && this.registry == registry && this.log == log && env.genuine == genuine
    {
      this.registry, this.ids, this.maxBufferedTasks, this.scanPageSize := registry, ids, maxBufferedTasks, scanPageSize;
      this.env, this.log, this.today := Env(ids, decode, BacklogReader.SlicesOf(log), genuine), log, today;
      queue, cursor, inflight, dispatched := [], 0, {}, map[];
      retryBases, attempts, recent, loadedRuns, dispatchedTaskCount := map[], map[], [], map[], 0;
      drainContinuation, scanContinuation, stopped := false, false, false;
      scans, reading, buffered, automaticRunDate, savingDailyRun := [], None, None, None, None;
      trace, past, run, holder, limit, look, seen, swept := [], NOTHING, today, map[], 0, None, map[], None;
      new;
      StartsInOrder(env, log, maxBufferedTasks, today);
    }

    // ----- the queue -----

    /** Where the persistent iterator stands; past the end it starts over. */
    ghost function Start(): nat
      reads this
      requires cursor <= |queue|
    {
      if cursor == |queue| then 0 else cursor
    }

    /**
     * Searches the queue once around from where the last search stopped. Nothing is found exactly when
     * nothing queued is eligible; what is found comes first from there, and the next search goes on behind it.
     */
    method NextPendingTask() returns (found: Option<Task>, ghost at: nat, ghost passed: nat)
      requires registry.Valid() && cursor <= |queue|
      modifies this`queue, this`cursor, registry`clock
      ensures registry.Valid() && registry.clock >= old(registry.clock) && cursor <= |queue|
      ensures found.None? ==> queue == old(queue)
      ensures found.None? ==> forall i :: 0 <= i < |queue| ==> !Eligible(registry.nodes, queue[i], registry.clock, registry.timeout)
      ensures found.Some? ==> at < |old(queue)| && found.value == old(queue)[at] && queue == RemoveAt(old(queue), at)
      ensures found.Some? ==> Eligible(registry.nodes, found.value, registry.clock, registry.timeout)
      ensures found.Some? ==> passed < |old(queue)| && at == Wrap(old(Start()), passed, |old(queue)|)
      ensures found.Some? ==> cursor == if queue == [] then 0 else at
      ensures found.Some? ==> forall k :: 0 <= k < passed ==>
        !Eligible(registry.nodes, old(queue)[Wrap(old(Start()), k, |old(queue)|)], registry.clock, registry.timeout)
    {
      hide registry.Valid;
      var scanLimit := |queue|;
      at, passed := 0, 0;
      if scanLimit == 0 { return None, 0, 0; }
      ghost var start := Start();
      for checked := 0 to scanLimit
        invariant registry.Valid() && queue == old(queue) && |queue| == scanLimit && cursor <= |queue| && registry.clock >= old(registry.clock)
        invariant (if cursor == |queue| then 0 else cursor) == Wrap(start, checked, scanLimit)
        invariant forall k :: 0 <= k < checked ==>
          !Eligible(registry.nodes, queue[Wrap(start, k, scanLimit)], registry.clock, registry.timeout)
      {
        if cursor == |queue| { cursor := 0; }
        var i := cursor;
        var task := queue[i];
        cursor := cursor + 1;
        var skip := HasActiveSlice(registry.nodes, task.slice);
        ghost var before := registry.clock;
        if !skip && task.rust {
          var node := registry.PickIdleNode(true);
          skip := node.None?;
        }
        StillIneligible(registry.nodes, queue, start, checked, scanLimit, before, registry.clock, registry.timeout);
        if !skip {
          queue := RemoveAt(queue, i);
          cursor := if queue == [] then 0 else i;
          return Some(task), i, checked;
        }
      }
      forall i | 0 <= i < |queue| ensures !Eligible(registry.nodes, queue[i], registry.clock, registry.timeout) {
        var k := if i >= start then i - start else i - start + scanLimit;
        assert Wrap(start, k, scanLimit) == i;
      }
      found := None;
    }

    // ----- the books -----

    ghost method Note(step: Step)
      modifies this`trace, this`past
      ensures BooksNow() == Record(old(BooksNow()), step) && Now() == old(Now()).(b := BooksNow())
    {
      trace, past := trace + [step], After(past, step);
    }

    /** Refuses a slice that is queued, in flight, settled lately in the same run, or held by a node. */
    method EnqueueTask(task: Task, first: bool) returns (queued: bool)
      requires cursor <= |queue|
      modifies this`queue, this`loadedRuns, this`trace, this`past
      ensures BooksNow() == Offer(old(BooksNow()), task, ids.runOf(task.id), HasActiveSlice(registry.nodes, task.slice), first)
      ensures Now() == old(Now()).(b := BooksNow()) && cursor <= |queue|
    {
      var taskRun := ids.runOf(task.id);
      if task.slice in inflight || Memory(task.slice, taskRun) in recent
         || exists i | 0 <= i < |queue| :: queue[i].slice == task.slice
      {
        return false;
      }
      if HasActiveSlice(registry.nodes, task.slice) {
        Note(Refused(taskRun, task.slice, true));
        return false;
      }
      queue := queue + [task];
      loadedRuns := Track(loadedRuns, taskRun, 1);
      if first { Note(Offered(taskRun, task.slice, task.rust)); }
      queued := true;
    }

    method RememberSlice(slice: Slice, taskRun: int)
      modifies this`recent, this`trace, this`past
      ensures BooksNow() == Remember(old(BooksNow()), slice, taskRun)
    {
      ghost var before := RunRemembered(recent, slice);
      recent := Dropped(recent, slice) + [Memory(slice, taskRun)];
      if before.Some? { Note(Forgot(before.value, slice)); }
      if |recent| > RECENT_SLICE_LIMIT {
        ghost var oldest := recent[0];
        recent := recent[1..];
        Note(Forgot(oldest.run, oldest.slice));
      }
    }

    /** The task is no longer out; what it was a retry of is told by `base`. */
    method ReleaseTask(id: string, failed: bool) returns (base: string)
      requires id in dispatched
      modifies this`inflight, this`dispatched, this`retryBases, this`loadedRuns, this`trace, this`past
      ensures BooksNow() == Released(old(BooksNow()), id, ids.runOf(id), failed) && base == BaseOf(old(BooksNow()), id)
    {
      hide Track, Without;
      var task, taskRun := dispatched[id], ids.runOf(id);
      ghost var b := BooksNow();
      dispatched := Without(dispatched, id);
      loadedRuns := Track(loadedRuns, taskRun, -1);
      base := Unlink(id, task.slice);
      assert BooksNow() == b.(dispatched := dispatched, loadedRuns := loadedRuns, retryBases := retryBases, inflight := inflight);
      Note(Heard(taskRun, task, failed));
    }

    method Unlink(id: string, slice: Slice) returns (base: string)
      modifies this`inflight, this`retryBases
      ensures BooksNow() == old(BooksNow()).(retryBases := Without(old(retryBases), id), inflight := old(inflight) - {slice})
      ensures base == BaseOf(old(BooksNow()), id)
    {
      base := if id in retryBases then retryBases[id] else id;
      retryBases := Without(retryBases, id);
      inflight := inflight - {slice};
    }

    /** A failed task is queued again under the next id, or given up after three failures. */
    method RetryTask(task: Task, base: string, taskRun: int)
      requires cursor <= |queue|
      modifies this`queue, this`retryBases, this`attempts, this`recent, this`loadedRuns, this`trace, this`past
      ensures BooksNow() == AfterHeard(ids, old(BooksNow()), task, base, taskRun, true, HasActiveSlice(registry.nodes, task.slice))
      ensures cursor <= |queue|
    {
      hide Track, Offer, Renew, EvictOldest, Remember;
      var attempt := Count(attempts, base) + 1;
      if attempt <= MAX_ATTEMPTS {
        attempts := attempts[base := attempt];
        var again := Retry(ids, base, attempt, task);
        retryBases := retryBases[again.id := base];
        var _ := EnqueueTask(again, false);
      } else {
        attempts := Without(attempts, base);
        Note(GaveUp(taskRun, task.slice));
        RememberSlice(task.slice, taskRun);
      }
    }

    /** Success ends a task; a failure is retried under the next id until three attempts have failed. */
    method SettleTask(id: string, failed: bool)
      requires id in dispatched && cursor <= |queue|
      modifies this`queue, this`inflight, this`dispatched, this`retryBases, this`attempts, this`recent, this`loadedRuns,
               this`trace, this`past
      ensures BooksNow() == Settle(ids, old(BooksNow()), id, failed, HasActiveSlice(registry.nodes, old(dispatched)[id].slice))
      ensures cursor <= |queue|
    {
      hide Track, Offer, Remember, Released, HasActiveSlice;
      var task := dispatched[id];
      var base := ReleaseTask(id, failed);
      if failed {
        RetryTask(task, base, ids.runOf(id));
      } else {
        attempts := Without(attempts, base);
        RememberSlice(task.slice, ids.runOf(id));
      }
    }

    // ----- filling the nodes -----

    /** One task sent, or the reason why not. */
    method TryDispatch() returns (sent: bool, ghost end: DrainEnd, ghost move: Move)
      requires registry.Valid() && cursor <= |queue| && queue != [] && QueuedApart(BooksNow())
      modifies this`queue, this`cursor, this`inflight, this`dispatched, this`trace, this`past, this`holder,
               this`dispatchedTaskCount, registry`nodes, registry`clock, registry`sends
      ensures registry.Valid() && cursor <= |queue| && registry.clock >= old(registry.clock) && registry.sends >= old(registry.sends)
      ensures Moved(old(Now()), move, Now()) && Tried(registry.delivers, registry.sends, registry.timeout, old(Now()), move)
      ensures !move.Stay? ==> InTime(move.t, old(registry.clock), registry.clock) && move.t.nth == old(registry.sends)
      ensures dispatchedTaskCount == old(dispatchedTaskCount) + if sent then 1 else 0
      ensures sent ==> registry.sends == old(registry.sends) + 1
      ensures (sent <==> move.Deliver?) && (!sent ==> end == if move.Return? then Halted else Conserved)
      ensures move.Stay? ==> NoneDispatchable(registry.nodes, queue, registry.clock, registry.timeout)
    {
      hide registry.Valid, Alive, HasRoom, RemoveAt, Wrap, HasActiveSlice, FirstIdle, Dispatches, PutBack, Takes;
      ghost var s0 := Now();
      end := Conserved;
      var any := registry.PickIdleNode(false);
      ghost var gate := registry.clock;
      if any.None? { assert Now() == s0; return false, Conserved, Stay; }
      assert SomeIdle(s0.nodes, gate, registry.timeout);
      var found: Option<Task>;
      ghost var at, passed;
      found, at, passed := NextPendingTask();
      if found.None? { assert Now() == s0; return false, Conserved, Stay; }
      sent, move := DispatchFound(found.value, at, s0, Try(gate, registry.clock, registry.clock, registry.clock, registry.sends));
      if !sent { end := Halted; }
    }

    /** The task found goes to a node with room, or back to the end of the queue. */
    method DispatchFound(found: Task, ghost at: nat, ghost s0: State, ghost t: Try) returns (sent: bool, ghost move: Move)
      requires registry.Valid() && cursor <= |queue| && at < |s0.b.queue| && found == s0.b.queue[at]
      requires Now() == TakenOff(s0, at) && t.gate <= t.found <= registry.clock
      requires found.id !in dispatched && found.slice !in inflight && !HasActiveSlice(registry.nodes, found.slice)
      requires SomeIdle(registry.nodes, t.gate, registry.timeout) && Eligible(registry.nodes, found, t.found, registry.timeout)
      modifies this`queue, this`inflight, this`dispatched, this`trace, this`past, this`holder,
               this`dispatchedTaskCount, registry`nodes, registry`clock, registry`sends
      ensures registry.Valid() && cursor <= |queue| && registry.clock >= old(registry.clock) && registry.sends >= old(registry.sends)
      ensures Moved(s0, move, Now()) && !move.Stay? && (sent <==> move.Deliver?)
      ensures Tried(registry.delivers, registry.sends, registry.timeout, s0, move)
      ensures InTime(move.t, t.gate, registry.clock) && move.t.nth == old(registry.sends)
      ensures sent ==> registry.sends == old(registry.sends) + 1
      ensures dispatchedTaskCount == old(dispatchedTaskCount) + if sent then 1 else 0
    {
      hide registry.Valid, HasActiveSlice, Idle, SomeIdle, Eligible, RemoveAt, Moved, FirstIdle;
      var node := registry.PickIdleNode(found.rust);
      if node.Some? {
        sent, move := SendFound(node.value, found, at, s0, t.(picked := registry.clock));
      } else {
        sent, move := ReturnFound(found, at, s0, t.(picked := registry.clock, asked := registry.clock, nth := registry.sends));
      }
    }

    method ReturnFound(found: Task, ghost at: nat, ghost s0: State, ghost t: Try) returns (sent: bool, ghost move: Move)
      requires at < |s0.b.queue| && found == s0.b.queue[at] && cursor <= |queue| && Now() == TakenOff(s0, at)
      modifies this`queue
      ensures Moved(s0, move, Now()) && move == Return(at, found, None, t) && !sent && cursor <= |queue|
    {
      queue := queue + [found];
      ReturnedMoves(s0, at, found, None, registry.nodes, t);
      sent, move := false, Return(at, found, None, t);
    }

    /** The slot is taken before sending and given back when the node refuses. */
    method SendFound(nodeId: string, found: Task, ghost at: nat, ghost s0: State, ghost t: Try)
      returns (sent: bool, ghost move: Move)
      requires registry.Valid() && cursor <= |queue| && at < |s0.b.queue| && found == s0.b.queue[at] && Now() == TakenOff(s0, at)
      requires found.id !in dispatched && found.slice !in inflight && !HasActiveSlice(registry.nodes, found.slice)
      requires nodeId in registry.nodes && Idle(registry.nodes[nodeId], found.rust, t.picked, registry.timeout)
      requires t.gate <= t.found <= t.picked <= registry.clock
      requires SomeIdle(registry.nodes, t.gate, registry.timeout) && Eligible(registry.nodes, found, t.found, registry.timeout)
      modifies this`queue, this`inflight, this`dispatched, this`trace, this`past, this`holder,
               this`dispatchedTaskCount, registry`nodes, registry`clock, registry`sends
      ensures registry.Valid() && cursor <= |queue| && registry.clock >= old(registry.clock) && registry.sends >= old(registry.sends)
      ensures Moved(s0, move, Now()) && !move.Stay? && (sent <==> move.Deliver?)
      ensures Tried(registry.delivers, registry.sends, registry.timeout, s0, move)
      ensures InTime(move.t, t.gate, registry.clock) && move.t.nth == old(registry.sends)
      ensures sent ==> registry.sends == old(registry.sends) + 1
      ensures dispatchedTaskCount == old(dispatchedTaskCount) + if sent then 1 else 0
    {
      hide registry.Valid, HasActiveSlice, SomeIdle, Eligible, Takes, Tried, Idle, Occupy, Spares, RemoveAt, Dispatches, PutBack, Moved;
      ghost var free := !HasActiveSlice(registry.nodes, found.slice);
      var onRust := IsRust(registry.nodes[nodeId]);
      var task := if onRust then found.(rust := true) else found;
      ghost var nth := registry.sends;
      sent := Ask(nodeId, task, TakenOff(s0, at));
      ghost var tried := t.(asked := registry.clock, nth := nth);
      AskedEarns(registry.delivers, registry.sends, registry.timeout, s0, at, nodeId, task, tried);
      if sent {
        move := Confirm(task, nodeId, at, s0, Sent(run, task, onRust, free), tried);
      } else {
        move := TakeBack(task, nodeId, at, s0, tried);
      }
    }

    /** The slice is reserved before the node is asked. */
    method Ask(nodeId: string, task: Task, ghost s: State) returns (sent: bool)
      requires registry.Valid() && nodeId in registry.nodes && task.id !in dispatched && task.slice !in inflight && Now() == s
      modifies this`inflight, this`dispatched, registry`nodes, registry`clock, registry`sends
      ensures registry.Valid() && registry.clock >= old(registry.clock)
      ensures var takes := Takes(s.nodes[nodeId], task, registry.clock, registry.timeout);
              sent == (takes && registry.delivers(old(registry.sends))) && registry.sends == old(registry.sends) + if takes then 1 else 0
      ensures Now() == Reserved(s, task).(nodes := registry.nodes)
      ensures if sent then registry.nodes == s.nodes[nodeId := Occupy(s.nodes[nodeId], task)] else Spares(s.nodes, nodeId, registry.nodes)
    {
      hide registry.Valid, Takes, Occupy, Spares;
      Reserve(task);
      sent := registry.DispatchTask(nodeId, task);
    }

    method Reserve(task: Task)
      requires task.id !in dispatched && task.slice !in inflight
      modifies this`inflight, this`dispatched
      ensures Now() == Reserved(old(Now()), task)
    {
      inflight := inflight + {task.slice};
      dispatched := dispatched[task.id := task];
    }

    method Confirm(task: Task, nodeId: string, ghost at: nat, ghost s0: State, ghost step: Step, ghost t: Try) returns (ghost move: Move)
      requires at < |s0.b.queue| && nodeId in s0.nodes && step == Sent(s0.run, task, IsRust(s0.nodes[nodeId]), true)
      requires task == s0.b.queue[at].(rust := s0.b.queue[at].rust || IsRust(s0.nodes[nodeId]))
      requires (task.rust ==> IsRust(s0.nodes[nodeId])) && !HasActiveSlice(s0.nodes, task.slice)
      requires Now() == Reserved(TakenOff(s0, at), task).(nodes := s0.nodes[nodeId := Occupy(s0.nodes[nodeId], task)])
      modifies this`dispatchedTaskCount, this`trace, this`past, this`holder
      ensures dispatchedTaskCount == old(dispatchedTaskCount) + 1 && move == Deliver(at, task, nodeId, t) && Moved(s0, move, Now())
    {
      hide Moved, After;
      dispatchedTaskCount := dispatchedTaskCount + 1;
      holder := holder[task.id := nodeId];
      Note(step);
      DeliveredMoves(s0, at, task, nodeId, t);
      assert Now() == Delivered(TakenOff(s0, at), task, nodeId);
      move := Deliver(at, task, nodeId, t);
    }

    method TakeBack(task: Task, nodeId: string, ghost at: nat, ghost s0: State, ghost t: Try) returns (ghost move: Move)
      requires at < |s0.b.queue| && task == s0.b.queue[at].(rust := task.rust) && (s0.b.queue[at].rust ==> task.rust)
      requires task.id !in s0.b.dispatched && task.slice !in s0.b.inflight && cursor <= |queue|
      requires Now() == Reserved(TakenOff(s0, at), task).(nodes := registry.nodes) && Spares(s0.nodes, nodeId, registry.nodes)
      modifies this`inflight, this`dispatched, this`queue
      ensures cursor <= |queue| && move == Return(at, task, Some(nodeId), t) && Moved(s0, move, Now())
    {
      hide Spares, Moved;
      inflight := inflight - {task.slice};
      dispatched := Without(dispatched, task.id);
      queue := queue + [task];
      assert inflight == s0.b.inflight && dispatched == s0.b.dispatched;
      ReturnedMoves(s0, at, task, Some(nodeId), registry.nodes, t);
      assert Now() == Returned(TakenOff(s0, at), task, registry.nodes);
      move := Return(at, task, Some(nodeId), t);
    }

    /** One move more; `from`, `clock` and `sends` tell where the filling began, `before` the moves so far. */
    method FillOne(ghost from: State, ghost before: seq<(Move, State)>, ghost count: nat, ghost clock: int, ghost sends: nat)
      returns (sent: bool, ghost end: DrainEnd, ghost moves: seq<(Move, State)>)
      requires registry.Valid() && cursor <= |queue| && queue != [] && QueuedApart(BooksNow())
      requires Path(from, before, Now()) && AllSent(from, before, count, Now()) && clock <= registry.clock && registry.sends == sends + count
      requires AllTried(registry.delivers, registry.timeout, from, before, clock, registry.clock, sends, registry.sends)
      modifies this`queue, this`cursor, this`inflight, this`dispatched, this`trace, this`past, this`holder,
               this`dispatchedTaskCount, registry`nodes, registry`clock, registry`sends
      ensures registry.Valid() && cursor <= |queue| && QueuedApart(BooksNow())
      ensures registry.clock >= old(registry.clock) && registry.sends >= old(registry.sends)
      ensures Path(from, moves, Now()) && dispatchedTaskCount == old(dispatchedTaskCount) + if sent then 1 else 0
      ensures AllTried(registry.delivers, registry.timeout, from, moves, clock, registry.clock, sends, registry.sends)
      ensures sent ==> AllSent(from, moves, count + 1, Now()) && registry.sends == sends + count + 1
      ensures !sent ==> Sends(moves) == count && Ends(end, moves, Now())
      ensures !sent ==> end.Halted? || (end.Conserved? && NoneDispatchable(registry.nodes, queue, registry.clock, registry.timeout))
    {
      hide registry.Valid, Path, Moved, NoneDispatchable, QueuedApart, Tried, AllTried, InTime;
      ghost var s := Now();
      ghost var move;
      label before:
      sent, end, move := TryDispatch();
      StaysApart(s, move, Now());
      PathGrows(from, before, s, move, Now());
      OneMoveMore(from, before, count, s, move, Now());
      TriedOneMore(registry.delivers, registry.timeout, from, before, clock, old@before(registry.clock), registry.clock,
                   sends, old@before(registry.sends), registry.sends, s, move, Now());
      moves := before + [(move, Now())];
    }

    /** Fills slots until a limit, a refusal, or nothing is left that could be sent. */
    method FillNodes() returns (ghost end: DrainEnd, ghost moves: seq<(Move, State)>)
      requires registry.Valid() && cursor <= |queue| && QueuedApart(BooksNow())
      modifies this`queue, this`cursor, this`inflight, this`dispatched, this`trace, this`past, this`holder,
               this`dispatchedTaskCount, this`drainContinuation, registry`nodes, registry`clock, registry`sends
      ensures registry.Valid() && cursor <= |queue| && registry.clock >= old(registry.clock)
      ensures Path(old(Now()), moves, Now()) && Ends(end, moves, Now()) && !end.Stopped?
      ensures AllTried(registry.delivers, registry.timeout, old(Now()), moves, old(registry.clock), registry.clock, old(registry.sends), registry.sends)
      ensures dispatchedTaskCount == old(dispatchedTaskCount) + Sends(moves) && Sends(moves) <= MAX_DISPATCHES_PER_TURN
      ensures end.Conserved? ==> NoneDispatchable(registry.nodes, queue, registry.clock, registry.timeout)
      ensures drainContinuation == end.Capped?
    {
      hide NoneDispatchable;
      ghost var s := Now();
      drainContinuation := false;
      var count := 0;
      moves := [];
      NothingSent(registry.delivers, registry.timeout, s, registry.clock, registry.sends);
      assert Now() == s;
      while |queue| > 0 && count < MAX_DISPATCHES_PER_TURN
        invariant registry.Valid() && cursor <= |queue| && QueuedApart(BooksNow())
        invariant registry.clock >= old(registry.clock) && registry.sends == old(registry.sends) + count
        invariant Path(s, moves, Now()) && AllSent(s, moves, count, Now())
        invariant AllTried(registry.delivers, registry.timeout, s, moves, old(registry.clock), registry.clock, old(registry.sends), registry.sends)
        invariant dispatchedTaskCount == old(dispatchedTaskCount) + count && count <= MAX_DISPATCHES_PER_TURN
        invariant !drainContinuation
        decreases MAX_DISPATCHES_PER_TURN - count
      {
        var sent;
        sent, end, moves := FillOne(s, moves, count, old(registry.clock), old(registry.sends));
        if !sent { return; }
        count := count + 1;
      }
      AllSentEnds(s, moves, count, Now());
      if |queue| > 0 {
        ghost var to := Now();
        drainContinuation := true;
        assert Now() == to;
        end := Capped;
      } else {
        NoneQueued(registry.nodes, registry.clock, registry.timeout);
        end := Conserved;
      }
    }

    // ----- scanning -----

    method LeastScan() returns (least: Option<int>)
      ensures IsOldest(scans, {}, least)
    {
      least := None;
      for i := 0 to |scans|
        invariant IsOldest(scans[..i], {}, least)
      {
        assert scans[..i + 1] == scans[..i] + [scans[i]];
        if least.None? || scans[i].scan.range.run < least.value { least := Some(scans[i].scan.range.run); }
      }
      assert scans[..|scans|] == scans;
    }

    method LeastRun(among: Option<int>) returns (least: Option<int>)
      requires IsOldest(scans, {}, among)
      ensures IsOldest(scans, loadedRuns.Keys, least)
    {
      hide IsOldest;
      least := among;
      var left := loadedRuns;
      ghost var done := {};
      while left != map[]
        invariant done + left.Keys == loadedRuns.Keys && IsOldest(scans, done, least)
        decreases |left|
      {
        var r := AnyRun(left);
        OldestAmongMore(scans, done, least, r);
        left, done := left - {r}, done + {r};
        if least.None? || r < least.value { least := Some(r); }
      }
      assert done == loadedRuns.Keys;
    }

    /** The scan has neither failed nor has to wait, and no scan and no loaded task is of an older run. */
    ghost predicate TurnOf(i: int)
      reads this
    {
      && 0 <= i < |scans| && !scans[i].scan.failed && !scans[i].scan.waiting
      && (forall k :: 0 <= k < |scans| ==> scans[i].scan.range.run <= scans[k].scan.range.run)
      && (forall r :: r in loadedRuns ==> scans[i].scan.range.run <= r)
    }

    /** The first range of the oldest run that has neither failed nor has to wait. */
    method NextReadyScan() returns (found: Option<nat>, oldest: Option<int>)
      ensures IsOldest(scans, loadedRuns.Keys, oldest)
      ensures found.Some? ==> found.value < |scans| && IsReady(scans[found.value], oldest)
      ensures found.None? ==> forall i :: 0 <= i < |scans| ==> !IsReady(scans[i], oldest)
      ensures found.Some? ==> TurnOf(found.value)
      ensures found.None? ==> forall i :: 0 <= i < |scans| ==> !TurnOf(i)
    {
      var least := LeastScan();
      least := LeastRun(least);
      oldest := least;
      for i := 0 to |scans|
        invariant forall k :: 0 <= k < i ==> !IsReady(scans[k], least)
      {
        if IsReady(scans[i], least) { return Some(i), least; }
      }
      found := None;
    }

    method RestartScans()
      modifies this`scans, this`seen
      ensures PlanNow() == RestartFrom(old(PlanNow()), 0) && Now() == old(Now()).(p := PlanNow())
    {
      var n := |scans|;
      for i := 0 to n
        invariant |scans| == n && RestartFrom(PlanNow(), i) == RestartFrom(old(PlanNow()), 0)
      {
        var e := scans[i];
        if e.scan.waiting && e.scan.next.Some? {
          scans := scans[i := Entry(e.key, Scan(e.scan.next.value, None, e.scan.failed, None, false))];
          seen := seen[e.key := {}];
        }
      }
    }

    /** Nothing is left of the sweep: its day may be recorded, once. */
    method FinishDailyRun()
      modifies this`savingDailyRun
      ensures savingDailyRun == if !stopped && FinishesDay(old(Now())) then automaticRunDate else old(savingDailyRun)
      ensures savingDailyRun != old(savingDailyRun) <==>
              !stopped && automaticRunDate.Some? && old(savingDailyRun).None? && scans == [] && queue == [] && inflight == {}
      ensures Now() == old(Now()).(saving := savingDailyRun)
    {
      if stopped || savingDailyRun.Some? || automaticRunDate.None? || scans != [] || queue != [] || inflight != {} { return; }
      savingDailyRun := automaticRunDate;
    }

    /** The turn asked for would have a page to use or to read, room for its tasks and a node to run them. */
    ghost predicate HasUse()
      reads this, registry
    {
      && (buffered.Some? || SomeReady(scans, loadedRuns.Keys)) && |queue| + |inflight| < maxBufferedTasks
      && SomeIdle(registry.nodes, registry.clock, registry.timeout)
    }

    /** Asks for the next page when there is room for its tasks and a node to run them. */
    method AskForPage() returns (ghost restarted: bool, ghost saved: bool)
      requires registry.Valid()
      modifies this`scans, this`seen, this`scanContinuation, this`savingDailyRun, registry`clock
      ensures registry.Valid() && registry.clock >= old(registry.clock)
      ensures AsksFor(old(Now()), old(scanContinuation), restarted, saved) && Now() == Asked(old(Now()), restarted, saved)
      ensures scanContinuation == (old(scanContinuation) || (MayAsk(old(Now()), old(scanContinuation)) && HasUse()))
    {
      hide registry.Valid, IsOldest, IsReady, RestartFrom, SomeReady;
      restarted, saved := false, false;
      if stopped || reading.Some? || scanContinuation { return; }
      ghost var s := Now();
      if |queue| + |inflight| == 0 {
        RestartScans();
        restarted := true;
      }
      assert Now() == Asked(s, restarted, false);
      if buffered.None? {
        var ready, oldest := NextReadyScan();
        ReadyOrNot(scans, loadedRuns.Keys, ready, oldest);
        if ready.None? {
          saved := FinishesDay(Now());
          FinishDailyRun();
          RestartFromLeaves(s.p, 0);
          return;
        }
        RestartFromLeaves(s.p, 0);
      }
      if |queue| + |inflight| >= maxBufferedTasks { return; }
      var node := registry.PickIdleNode(false);
      if node.Some? { scanContinuation := true; }
    }

    /** Asks for the next page: scans start over only when nothing is loaded, a day is put down only when it is over. */
    method RequestScan(ghost pending: set<string>) returns (ghost restarted: bool, ghost saved: bool)
      requires Valid(pending)
      modifies this`scans, this`seen, this`scanContinuation, this`savingDailyRun, registry`clock
      ensures Valid(pending) && registry.clock >= old(registry.clock)
      ensures AsksFor(old(Now()), old(scanContinuation), restarted, saved) && Now() == Asked(old(Now()), restarted, saved)
      ensures scanContinuation == (old(scanContinuation) || (MayAsk(old(Now()), old(scanContinuation)) && HasUse()))
      ensures LeavesScans(old(scans), scans) && forall d :: SomeSweep(old(scans), d) ==> SomeSweep(scans, d)
      ensures if !stopped && reading.None? && !old(scanContinuation) && queue == [] && inflight == {}
              then StartsOver(old(scans), scans, 0) else scans == old(scans)
    {
      ghost var s, waiting := Now(), scanContinuation;
      AskedStartsOver(s, waiting, stopped);
      hide BooksOk, PlanOk, Linked, Witnessed, Asked, AsksFor, MayAsk, StartsOver;
      restarted, saved := AskForPage();
      AskedKeeps(env, log, maxBufferedTasks, s, waiting, restarted, saved, pending);
    }

    /** Offers the buffered rows there is room for, and moves the scan on when the page is used up. */
    method OfferPage()
      requires buffered.Some? && cursor <= |queue|
      modifies this`buffered, this`queue, this`loadedRuns, this`trace, this`past
      ensures Now() == OfferRows(ids, maxBufferedTasks, old(Now())) && cursor <= |queue| && buffered.Some?
    {
      ghost var s0 := Now();
      while buffered.value.index < |buffered.value.page.rows| && |queue| + |inflight| < maxBufferedTasks
        invariant buffered.Some? && cursor <= |queue|
        invariant OfferRows(ids, maxBufferedTasks, Now()) == OfferRows(ids, maxBufferedTasks, s0)
        decreases |buffered.value.page.rows| - buffered.value.index
      {
        ghost var s := Now();
        OfferNext();
        assert Now() == OfferRow(ids, s);
      }
    }

    method OfferNext()
      requires buffered.Some? && buffered.value.index < |buffered.value.page.rows| && cursor <= |queue|
      modifies this`buffered, this`queue, this`loadedRuns, this`trace, this`past
      ensures Now() == OfferRow(ids, old(Now())) && cursor <= |queue| && buffered.Some?
    {
      hide RowTask, Offer;
      var row := buffered.value.page.rows[buffered.value.index];
      var i := IndexOf(scans, buffered.value.key);
      var task := RowTask(ids, if i < |scans| then scans[i].scan.range.run else 0, row);
      buffered := Some(buffered.value.(index := buffered.value.index + 1));
      var _ := EnqueueTask(task, true);
    }

    method FinishPage()
      requires buffered.Some? && look.Some? && IndexOf(scans, buffered.value.key) < |scans| && buffered.value.key in seen
      modifies this`scans, this`buffered, this`seen, this`swept, this`trace, this`past
      ensures Now() == UsedUp(log, old(Now()))
    {
      ghost var s := Now();
      ghost var used := UsedUp(log, s);
      ghost var read := ReadSlices(log, PlanNow());
      Note(Skipped(run, read - BacklogReader.Offered(buffered.value.page.rows), look.value));
      MoveScan(read);
      assert Now() == used;
    }

    /** The scan goes to the end of the line, waits for its next round, or is over. */
    method MoveScan(ghost read: set<Slice>)
      requires buffered.Some? && IndexOf(scans, buffered.value.key) < |scans| && buffered.value.key in seen
      modifies this`scans, this`buffered, this`seen, this`swept
      ensures Now() == old(Now()).(p := Finished(old(PlanNow()), Leader(old(PlanNow())), old(buffered).value, read))
    {
      ghost var done := Finished(PlanNow(), Leader(PlanNow()), buffered.value, read);
      var buffer := buffered.value;
      var i := IndexOf(scans, buffer.key);
      var e := scans[i];
      var scan := e.scan;
      if buffer.page.next.Some? { scan := scan.(cursor := buffer.page.next); }
      var left := scans[..i] + scans[i + 1..];
      if !buffer.page.done || scan.range.through != buffer.through {
        left := left + [Entry(e.key, scan)];
      } else if scan.next.Some? {
        left := left + [Entry(e.key, scan.(waiting := true))];
      }
      assert done == PlanNow().(scans := left, buffered := None, seen := done.seen, swept := done.swept);
      hide Finished;
      scans, buffered := left, None;
      NoteSwept(done.seen, done.swept);
    }

    ghost method NoteSwept(seen: map<ScanKey, set<Slice>>, swept: Option<int>)
      modifies this`seen, this`swept
      ensures Now() == old(Now()).(p := old(PlanNow()).(seen := seen, swept := swept))
    {
      this.seen, this.swept := seen, swept;
    }

    /** Offers what there is room for; a page used up moves its scan on. */
    method UsePage()
      requires HasLeader(PlanNow()) && cursor <= |queue|
      modifies this`run, this`scans, this`buffered, this`seen, this`swept, this`queue, this`loadedRuns, this`trace, this`past
      ensures Now() == PageUsed(ids, log, maxBufferedTasks, old(Now())) && cursor <= |queue|
    {
      ghost var s := Now();
      run := LeaderRun(PlanNow());
      ghost var adopted := Now();
      assert adopted == s.(run := LeaderRun(s.p));
      OfferRowsPlan(ids, maxBufferedTasks, adopted);
      OfferPage();
      ghost var offered := Now();
      if buffered.value.index == |buffered.value.page.rows| {
        FinishPage();
        assert Now() == UsedUp(log, offered);
      }
    }

    // ----- turns -----

    /**
     * A drain that began in `from` and ended now: nothing dispatchable is left, or the last task was turned
     * away, or a hundred were sent and another turn was asked for.
     */
    ghost predicate DrainedBy(from: State, d: Drainage)
      reads this, registry
    {
      && Drained(from, d, Now()) && Ends(d.end, d.moves, d.mid) && !d.end.Stopped?
      && AllTried(registry.delivers, registry.timeout, from, d.moves, d.clock, registry.clock, d.sends, registry.sends)
      && (d.end.Conserved? ==> NoneDispatchable(registry.nodes, queue, registry.clock, registry.timeout))
      && drainContinuation == d.end.Capped? && scanContinuation == (d.waiting || (MayAsk(d.mid, d.waiting) && HasUse()))
      && FillsOnly(from, Now())
    }

    /** Fills the nodes, then asks for the next page. */
    method FillAndAsk() returns (ghost d: Drainage)
      requires registry.Valid() && cursor <= |queue| && QueuedApart(BooksNow()) && !stopped
      modifies this`queue, this`cursor, this`inflight, this`dispatched, this`trace, this`past, this`holder,
               this`dispatchedTaskCount, this`drainContinuation, this`scans, this`seen, this`scanContinuation,
               this`savingDailyRun, registry`nodes, registry`clock, registry`sends
      ensures registry.Valid() && cursor <= |queue| && DrainedBy(old(Now()), d) && d.waiting == old(scanContinuation)
      ensures d.clock == old(registry.clock) <= registry.clock && d.sends == old(registry.sends)
      ensures dispatchedTaskCount == old(dispatchedTaskCount) + Sends(d.moves) && Sends(d.moves) <= MAX_DISPATCHES_PER_TURN
    {
      hide registry.Valid, Path, Ends, AllTried, AsksFor, Asked, Sends, QueuedApart, NoneDispatchable, FillsOnly;
      var waiting := scanContinuation;
      ghost var clock, sends := registry.clock, registry.sends;
      ghost var end, moves := FillNodes();
      ghost var mid := Now();
      label filled:
      ghost var restarted, saved := AskForPage();
      d := Drainage(end, moves, mid, clock, sends, waiting, restarted, saved);
      StillTried(registry.delivers, registry.timeout, old(Now()), moves, clock, old@filled(registry.clock), registry.clock,
                 sends, registry.sends, registry.sends);
      if end.Conserved? {
        StillNoneDispatchable(registry.nodes, queue, old@filled(registry.clock), registry.clock, registry.timeout);
      }
      AskedLeaves(mid, restarted, saved);
      PathFillsOnly(registry.delivers, registry.timeout, old(Now()), moves, mid, clock, registry.clock, sends, registry.sends, Now());
    }

    /**
     * Sends what can be sent. It ends when nothing dispatchable is left, when a task was turned away, after
     * a hundred sends, or at once when stopped - and tells which. When the clock stood still and every send
     * arrived, it is turned away only if some id of the queue is read back wrongly and a node holds it so.
     */
    method Drain(ghost pending: set<string>) returns (ghost d: Drainage)
      requires Valid(pending)
      modifies this`queue, this`cursor, this`inflight, this`dispatched, this`trace, this`past, this`holder,
               this`dispatchedTaskCount, this`drainContinuation, this`scans, this`seen, this`scanContinuation,
               this`savingDailyRun, registry`nodes, registry`clock, registry`sends
      ensures Valid(pending) && registry.clock >= old(registry.clock) && old(trace) <= trace
      ensures stopped ==> d.end.Stopped? && Now() == old(Now())
      ensures !stopped ==> DrainedBy(old(Now()), d) && d.waiting == old(scanContinuation)
      ensures !stopped ==> d.clock == old(registry.clock) && d.sends == old(registry.sends)
      ensures !stopped && Faultless(registry.delivers, old(registry.clock), registry.clock, old(registry.sends), registry.sends) ==>
        || d.end.Capped? || NoneDispatchable(registry.nodes, queue, registry.clock, registry.timeout)
        || (Blocked(old(Now()), d.moves) && !AllReadBack(old(queue), registry.restore))
      ensures Sends(d.moves) <= MAX_DISPATCHES_PER_TURN && dispatchedTaskCount == old(dispatchedTaskCount) + Sends(d.moves)
      ensures LeavesScans(old(scans), scans)
      ensures OnlyFilled(old(registry.nodes), registry.nodes) && KeepsHeld(old(Now()), Now()) && OnlyDrained(old(BooksNow()), BooksNow())
    {
      NothingFills(Now());
      hide OnlyFilled, KeepsHeld, OnlyDrained;
      hide InOrder, Path, Moved, AllTried, NoneDispatchable, AllReadBack, Faultless, Blocked, AsksFor, Asked, QueuedApart;
      ghost var s := Now();
      if stopped {
        d := NoDrainage(s);
        return;
      }
      OrderIsApart(env, log, maxBufferedTasks, s, pending);
      assert ReadBack(s.nodes, registry.restore);
      d := FillAndAsk();
      DrainKeeps(env, log, maxBufferedTasks, s, d, Now(), pending);
      if Faultless(registry.delivers, d.clock, registry.clock, d.sends, registry.sends) {
        FaultlessDrain(registry.delivers, registry.timeout, s, d.end, d.moves, d.mid, d.clock, registry.clock, d.sends, registry.sends);
        if AllReadBack(s.b.queue, registry.restore) {
          DrainConserves(env, log, maxBufferedTasks, s, d.end, d.moves, d.mid, pending, registry.delivers, registry.timeout,
                         registry.restore, d.clock, registry.clock, d.sends, registry.sends);
        }
      }
    }

    method SettleAndDrain(id: string, failed: bool) returns (ghost d: Drainage)
      requires registry.Valid() && cursor <= |queue| && id in dispatched
      requires QueuedApart(AfterSettling(ids, Now(), id, failed).b)
      modifies this, registry`nodes, registry`clock, registry`sends
      ensures registry.Valid() && cursor <= |queue| && stopped == old(stopped) && registry.clock >= old(registry.clock)
      ensures stopped ==> Now() == AfterSettling(ids, old(Now()), id, failed)
      ensures !stopped ==> DrainedBy(AfterSettling(ids, old(Now()), id, failed), d)
    {
      hide FillsOnly, Drained, Settle, HasActiveSlice, Ends, NoneDispatchable, Sends;
      d := NoDrainage(Now());
      ghost var s := Now();
      SettleTask(id, failed);
      assert Now() == AfterSettling(ids, s, id, failed);
      if stopped { return; }
      d := FillAndAsk();
    }

    /** The scheduler hears of a task once: a second notice, or one of a stranger's task, changes nothing. */
    method OnTaskSettled(id: string, failed: bool, ghost pending: set<string>) returns (ghost d: Drainage)
      requires Valid(pending) && (id in dispatched ==> id in pending)
      modifies this, registry`nodes, registry`clock, registry`sends
      ensures Valid(pending - {id}) && registry.clock >= old(registry.clock) && stopped == old(stopped)
      ensures id !in old(dispatched) || stopped ==> d.end.Stopped?
      ensures id !in old(dispatched) ==> Now() == old(Now())
      ensures id in old(dispatched) && stopped ==> Now() == AfterSettling(ids, old(Now()), id, failed)
      ensures id in old(dispatched) && !stopped ==> DrainedBy(AfterSettling(ids, old(Now()), id, failed), d)
      ensures id in old(dispatched) ==> old(trace) + [Heard(ids.runOf(id), old(dispatched)[id], failed)] <= trace
      ensures KeepsHeld(old(Now()), Now())
    {
      NothingDone(Now(), Now());
      hide FillsOnly, KeepsHeld;
      d := NoDrainage(Now());
      if id !in dispatched {
        NotPending(env, log, maxBufferedTasks, Now(), pending, id);
        return;
      }
      ghost var s := Now();
      ghost var settled := AfterSettling(ids, s, id, failed);
      SettledKeeps(env, log, maxBufferedTasks, s, id, failed, settled, pending);
      SettleHears(ids, s.b, id, failed, HasActiveSlice(s.nodes, s.b.dispatched[id].slice));
      d := SettleAndDrain(id, failed);
      if stopped {
        d := NoDrainage(Now());
        SettlingKeepsHeld(ids, s, id, failed);
      } else {
        DrainKeeps(env, log, maxBufferedTasks, settled, d, Now(), pending - {id});
        SettledAndFilled(ids, s, id, failed, Now());
      }
    }

    // ----- pages -----

    /**
     * The turn asked for. With room and an idle node it goes on with the page still buffered, or asks for a
     * page of the scan whose turn it is, no larger than the room left; otherwise it does nothing.
     */
    method LoadNextPage() returns (go: bool, ghost now: int, ghost oldest: Option<int>, ghost i: nat, ghost d: Drainage)
      requires Valid({}) && LogFits()
      modifies this, registry`nodes, registry`clock, registry`sends
      ensures Valid({}) && stopped == old(stopped) && old(trace) <= trace
      ensures old(registry.clock) <= now <= registry.clock
      ensures go <==> MayAsk(old(Now()), false) && |old(queue)| + |old(inflight)| < maxBufferedTasks
                      && SomeIdle(old(registry.nodes), now, registry.timeout)
      ensures !go ==> Now() == old(Now())
      ensures go && old(buffered).None? ==>
        if SomeReady(old(scans), old(loadedRuns).Keys) then Asks(maxBufferedTasks, scanPageSize, old(Now()), oldest, i, Now())
        else Now() == old(Now())
      ensures go && old(buffered).None? ==>
        Reads(i)
      ensures go && old(buffered).Some? ==>
        HasLeader(old(PlanNow())) && DrainedBy(PageUsed(ids, log, maxBufferedTasks, old(Now())), d)
      ensures KeepsHeld(old(Now()), Now())
      ensures go && old(buffered).Some? ==> Carries(old(buffered).value.page.rows, old(BooksNow()), BooksNow())
    {
      NothingDone(Now(), Now());
      hide Carries, KeepsHeld;
      hide FillsOnly, InOrder, Drained, Ends, NoneDispatchable, PageUsed, Asks, IsOldest;
      oldest, i, d := None, 0, NoDrainage(Now());
      go := MayLoad();
      now := registry.clock;
      if !go { return; }
      if buffered.Some? { d := ContinuePage(); } else { oldest, i := StartPage(); }
    }

    method MayLoad() returns (go: bool)
      requires registry.Valid()
      modifies this`scanContinuation, registry`clock
      ensures registry.clock >= old(registry.clock) && Now() == old(Now())
      ensures go <==> MayAsk(old(Now()), false) && SomeIdle(registry.nodes, registry.clock, registry.timeout)
                      && |queue| + |inflight| < maxBufferedTasks
    {
      scanContinuation := false;
      if stopped || reading.Some? { return false; }
      var node := registry.PickIdleNode(false);
      go := node.Some? && |queue| + |inflight| < maxBufferedTasks;
    }

    method StartPage() returns (ghost oldest: Option<int>, ghost i: nat)
      requires Valid({}) && !stopped && reading.None? && buffered.None? && |queue| + |inflight| < maxBufferedTasks
      modifies this`reading
      ensures Valid({})
      ensures if SomeReady(scans, loadedRuns.Keys) then Asks(maxBufferedTasks, scanPageSize, old(Now()), oldest, i, Now())
              else Now() == old(Now())
      ensures Reads(i)
      ensures KeepsHeld(old(Now()), Now())
    {
      ghost var s := Now();
      ghost var asked;
      asked, oldest, i := AskReader();
      if asked { AsksKeeps(env, log, maxBufferedTasks, scanPageSize, s, {}, oldest, i, Now()); }
      NothingDone(s, Now());
    }

    /** What is being read is the next page of scan `i`, whose turn it is, and no larger than the room; or it is no scan's turn. */
    ghost predicate Reads(i: int)
      reads this
    {
      if reading.Some? then
        && TurnOf(i) && reading.value.key == scans[i].key && reading.value.range == scans[i].scan.range
        && reading.value.cursor == scans[i].scan.cursor
        && 0 < reading.value.limit <= scanPageSize && |queue| + |inflight| + reading.value.limit <= maxBufferedTasks
      else forall k :: 0 <= k < |scans| ==> !TurnOf(k)
    }

    method AskReader() returns (ghost asked: bool, ghost oldest: Option<int>, ghost i: nat)
      requires !stopped && reading.None? && buffered.None? && |queue| + |inflight| < maxBufferedTasks && scanPageSize > 0
      modifies this`reading
      ensures asked <==> SomeReady(scans, loadedRuns.Keys)
      ensures if asked then Asks(maxBufferedTasks, scanPageSize, old(Now()), oldest, i, Now()) else Now() == old(Now())
      ensures Reads(i)
    {
      var ready, least := NextReadyScan();
      ReadyOrNot(scans, loadedRuns.Keys, ready, least);
      oldest, i := least, 0;
      if ready.None? { return false, oldest, 0; }
      var scan := scans[ready.value].scan;
      var room := maxBufferedTasks - |queue| - |inflight|;
      reading := Some(Request(scans[ready.value].key, scan.range, scan.cursor, if scanPageSize < room then scanPageSize else room));
      asked, i := true, ready.value;
    }

    method UseAndDrain() returns (ghost d: Drainage)
      requires registry.Valid() && cursor <= |queue| && !stopped && HasLeader(PlanNow())
      requires QueuedApart(PageUsed(ids, log, maxBufferedTasks, Now()).b)
      modifies this, registry`nodes, registry`clock, registry`sends
      ensures registry.Valid() && cursor <= |queue| && !stopped && registry.clock >= old(registry.clock)
      ensures DrainedBy(PageUsed(ids, log, maxBufferedTasks, old(Now())), d)
    {
      hide FillsOnly, QueuedApart, PageUsed, Drained, Ends, NoneDispatchable, Sends;
      UsePage();
      d := FillAndAsk();
    }

    /** Offers what there is room for, moves the scan on if the page is used up, and fills the nodes. */
    method ContinuePage() returns (ghost d: Drainage)
      requires Valid({}) && LogFits() && !stopped && buffered.Some?
      modifies this, registry`nodes, registry`clock, registry`sends
      ensures Valid({}) && !stopped && old(trace) <= trace && registry.clock >= old(registry.clock)
      ensures HasLeader(old(PlanNow())) && DrainedBy(PageUsed(ids, log, maxBufferedTasks, old(Now())), d)
      ensures reading == old(reading)
      ensures KeepsHeld(old(Now()), Now()) && Carries(old(buffered).value.page.rows, old(BooksNow()), BooksNow())
    {
      hide FillsOnly, KeepsHeld, Carries;
      ghost var s := Now();
      UsedUpOrFull(ids, log, maxBufferedTasks, s);
      PageUsedKeeps(env, log, maxBufferedTasks, s, {});
      PageUsedTrace(ids, log, maxBufferedTasks, s);
      d := UseAndDrain();
      UsedAndFilled(ids, log, maxBufferedTasks, s, Now());
      DrainKeeps(env, log, maxBufferedTasks, PageUsed(ids, log, maxBufferedTasks, s), d, Now(), {});
    }

    /** The page asked for arrives and is used; after a stop it is dropped. */
    method PageArrived(page: BacklogReader.Page, ghost look: Look) returns (ghost d: Drainage)
      requires Valid({}) && LogFits() && Answers(log, PlanNow(), look, page) && env.genuine(look)
      modifies this, registry`nodes, registry`clock, registry`sends
      ensures Valid({}) && stopped == old(stopped) && old(trace) <= trace
      ensures reading.None? && (stopped ==> Now() == old(Now()).(p := old(PlanNow()).(reading := None)))
      ensures !stopped ==> var s := Arrived(old(Now()), look, page);
        HasLeader(s.p) && DrainedBy(PageUsed(ids, log, maxBufferedTasks, s), d)
      ensures KeepsHeld(old(Now()), Now())
      ensures !stopped ==> Carries(page.rows, old(BooksNow()), BooksNow())
      ensures !stopped ==> forall k, i :: 0 <= k < |queue| && 0 <= i < |page.rows| && page.rows[i].slice == queue[k].slice
                                          && page.rows[i].rust && !KeptFrom(old(BooksNow()), queue[k]) ==>
        queue[k].rust && OfferedIn(BooksNow(), |old(trace)|, page.rows[i].slice, true)
    {
      hide Carries, KeepsHeld, KeptFrom, OfferedIn;
      hide FillsOnly, InOrder, Drained, Ends, NoneDispatchable, PageUsed;
      if stopped {
        d := NoDrainage(Now());
        ghost var s0 := Now();
        DropPage();
        NothingDone(s0, Now());
        return;
      }
      ghost var s := Now();
      ghost var arrived := Arrived(s, look, page);
      ArrivedKeeps(env, log, maxBufferedTasks, s, {}, look, page);
      BufferPage(page, look);
      d := ContinuePage();
      NothingDone(s, arrived);
      KeepsFurther(s, arrived, Now());
      EachRowCarried(page.rows, s.b, BooksNow());
    }

    method DropPage()
      requires Valid({}) && stopped
      modifies this`reading
      ensures Valid({}) && Now() == old(Now()).(p := old(PlanNow()).(reading := None))
    {
      reading := None;
    }

    method BufferPage(page: BacklogReader.Page, ghost seenBy: Look)
      requires reading.Some?
      modifies this`reading, this`buffered, this`limit, this`look
      ensures Now() == Arrived(old(Now()), seenBy, page)
    {
      buffered := Some(Buffered(reading.value.key, page, 0, reading.value.range.through));
      NoteLook(reading.value.limit, seenBy);
      reading := None;
    }

    ghost method NoteLook(limit: nat, seenBy: Look)
      modifies this`limit, this`look
      ensures Now() == old(Now()).(p := old(PlanNow()).(limit := limit, look := Some(seenBy)))
    {
      this.limit, look := limit, Some(seenBy);
    }

    /** The page could not be read: the scan waits for another chance, its cursor where it was. */
    method PageFailed() returns (ghost d: Drainage)
      requires Valid({}) && reading.Some?
      modifies this, registry`nodes, registry`clock, registry`sends
      ensures Valid({}) && stopped == old(stopped) && old(trace) <= trace
      ensures stopped ==> Now() == old(Now()).(p := old(PlanNow()).(reading := None))
      ensures !stopped ==> DrainedBy(Failed(old(Now())), d)
      ensures !stopped ==> |scans| == |old(scans)|
      ensures !stopped ==> var i := IndexOf(old(scans), old(reading).value.key);
                           i < |scans| && scans[i] == Flagged(old(scans)[i], true)
    {
      hide FillsOnly, InOrder, Drained, Ends, NoneDispatchable, Sends;
      if stopped {
        d := NoDrainage(Now());
        DropPage();
        return;
      }
      ghost var s := Now();
      FailedKeeps(env, log, maxBufferedTasks, s, {});
      FlagFailure();
      d := Drain({});
    }

    method FlagFailure()
      requires reading.Some?
      modifies this`reading, this`scans
      ensures Now() == Failed(old(Now()))
    {
      var i := IndexOf(scans, reading.value.key);
      if i < |scans| { scans := scans[i := Entry(scans[i].key, scans[i].scan.(failed := true))]; }
      reading := None;
    }

    // ----- ranges -----

    method ReadDay() returns (day: int)
      modifies this`today
      ensures day == today >= old(today)
    {
      var passed: int := *;
      if passed > 0 { today := today + passed; }
      day := today;
    }

    /** Registers a range, or renews, extends or revives the one already there. */
    method Enrol(date: Option<int>) returns (error: Option<ScanError>, ghost runDay: int, ghost day: int, ghost later: int)
      requires !stopped
      modifies this`scans, this`seen, this`today
      ensures old(today) <= runDay <= day <= later == today && (error.None? || error == Some(TooManyRanges))
      ensures error.Some? <==> NoRangeLeft(old(scans), date)
      ensures error.Some? ==> PlanNow() == old(PlanNow())
      ensures error.None? ==> PlanNow() == Enrolled(old(PlanNow()), date, runDay, day, later)
    {
      var run := ReadDay();
      var through := 0;
      if date.Some? {
        through := date.value;
        runDay, day := run, run;
      } else {
        through := ReadDay();
        runDay, day := run, through;
        through := Yesterday(through);
      }
      var key := EnrolKey(scans, date);
      var i := IndexOf(scans, key);
      later := today;
      error := None;
      if i < |scans| {
        var scan := scans[i].scan;
        if scan.range.run != run {
          var now := ReadDay();
          later := now;
          scan := Renewed(scan, run, now);
        } else if date.None? && scan.range.through < through {
          scan := scan.(range := scan.range.(through := through));
        }
        scans := scans[i := Entry(key, scan.(failed := false))];
      } else if |scans| >= MAX_SCAN_RANGES {
        error := Some(TooManyRanges);
      } else {
        scans := scans + [Fresh(key, BacklogReader.Range(run, through, date))];
        seen := seen[key := {}];
      }
    }

    /** Registers a range and asks for its first page; without a date every day up to yesterday is to be swept. */
    method EnqueueBacklog(date: Option<int>) returns (error: Option<ScanError>, ghost e: Enlisting)
      requires Valid({}) && LogFits()
      modifies this`scans, this`seen, this`today, this`scanContinuation, this`savingDailyRun, registry`clock
      ensures Valid({}) && old(today) <= e.runDay <= e.later == today
      ensures error == if stopped then Some(SchedulerStopped) else if NoRangeLeft(old(scans), date) then Some(TooManyRanges) else None
      ensures error.Some? ==> Now() == old(Now()).(today := today)
      ensures error.None? ==> Enlists(old(Now()), date, e, Now()) && (date.None? ==> SomeSweep(scans, e.runDay))
      ensures error.None? ==> Registers(old(scans), date, e, scans)
      ensures error.None? ==> scanContinuation == (old(scanContinuation) || (MayAsk(old(Now()), old(scanContinuation)) && HasUse()))
    {
      hide InOrder, AsksFor, IndexOf, Enrolled, Asked, SomeSweep, SomeReady, SomeIdle, Registers, DistinctKeys;
      e := Enlisting(today, today, today, false, false, false);
      if stopped { return Some(SchedulerStopped), e; }
      ghost var s, waiting := Now(), scanContinuation;
      ghost var runDay, day, later;
      error, runDay, day, later := Enrol(date);
      if error.Some? {
        e := Enlisting(runDay, day, later, false, false, false);
        DayPasses(env, log, maxBufferedTasks, s, later, {});
        return;
      }
      EnrolledKeeps(env, log, maxBufferedTasks, s, date, runDay, day, later, {});
      ghost var restarted, saved := RequestScan({});
      e := Enlisting(runDay, day, later, waiting, restarted, saved);
      ScansDiffer(env, log, maxBufferedTasks, s, {});
      EnlistedRegisters(s, date, e, Now());
    }

    /**
     * A manual run: of one finished day, or of everything up to yesterday. `asked` is the day on which the
     * date was judged, `queued` the state with the range registered.
     */
    method CleanNow(date: Option<int>)
      returns (error: Option<ScanError>, sent: nat, ghost asked: int, ghost e: Enlisting, ghost queued: State, ghost d: Drainage)
      requires Valid({}) && LogFits()
      modifies this, registry`nodes, registry`clock, registry`sends
      ensures Valid({}) && stopped == old(stopped) && old(trace) <= trace && old(today) <= asked <= today
      ensures error == if date.Some? && date.value >= asked then Some(DayNotOver) else if stopped then Some(SchedulerStopped)
                       else if NoRangeLeft(old(scans), date) then Some(TooManyRanges) else None
      ensures sent <= MAX_DISPATCHES_PER_TURN && dispatchedTaskCount == old(dispatchedTaskCount) + sent
      ensures error.Some? ==> sent == 0 && Now() == old(Now()).(today := today)
      ensures error.None? ==> Enlists(old(Now()), date, e, queued) && DrainedBy(queued, d) && sent == Sends(d.moves)
    {
      hide FillsOnly, InOrder, Drained, Ends, NoneDispatchable, Sends, Enrolled, Asked, AsksFor;
      ghost var s := Now();
      asked, e, queued, d := today, Enlisting(today, today, today, false, false, false), s, NoDrainage(s);
      if date.Some? {
        var over;
        over, asked := IsOver(date.value);
        if !over { return Some(DayNotOver), 0, asked, e, queued, d; }
      }
      error, sent, e, queued, d := EnqueueAndDrain(date);
    }

    method EnqueueAndDrain(date: Option<int>) returns (error: Option<ScanError>, sent: nat, ghost e: Enlisting, ghost queued: State, ghost d: Drainage)
      requires Valid({}) && LogFits()
      modifies this, registry`nodes, registry`clock, registry`sends
      ensures Valid({}) && stopped == old(stopped) && old(trace) <= trace && old(today) <= today
      ensures error == if stopped then Some(SchedulerStopped) else if NoRangeLeft(old(scans), date) then Some(TooManyRanges) else None
      ensures sent <= MAX_DISPATCHES_PER_TURN && dispatchedTaskCount == old(dispatchedTaskCount) + sent
      ensures error.Some? ==> sent == 0 && Now() == old(Now()).(today := today)
      ensures error.None? ==> Enlists(old(Now()), date, e, queued) && DrainedBy(queued, d) && sent == Sends(d.moves)
    {
      hide InOrder, Path, Asked, AsksFor, Ends, Enrolled, NoneDispatchable, LeavesScans, Drained, Blocked, AllReadBack, AllTried, Faultless, Registers,
           Enlists, DrainedBy, OnlyFilled, KeepsHeld, OnlyDrained, IndexOf, SomeSweep, StartsOver;
      var before := dispatchedTaskCount;
      d := NoDrainage(Now());
      error, e := EnqueueBacklog(date);
      queued := Now();
      if error.None? { d := Drain({}); }
      sent := dispatchedTaskCount - before;
    }

    method IsOver(day: int) returns (over: bool, ghost now: int)
      requires Valid({})
      modifies this`today
      ensures Valid({}) && over == (day < now) && now == today >= old(today)
      ensures Now() == old(Now()).(today := today)
    {
      ghost var s := Now();
      var read := ReadDay();
      now := read;
      DayPasses(env, log, maxBufferedTasks, s, now, {});
      over := day < read;
    }

    /** The patrol's first half: failed scans get another chance. */
    method ResumeScans() returns (ghost restarted: bool, ghost saved: bool)
      requires Valid({})
      modifies this`scans, this`seen, this`scanContinuation, this`savingDailyRun, registry`clock
      ensures Valid({})
      ensures stopped ==> Now() == old(Now())
      ensures !stopped ==> var s := old(Now()).(p := ResumeFrom(old(PlanNow()), 0));
        AsksFor(s, old(scanContinuation), restarted, saved) && Now() == Asked(s, restarted, saved)
    {
      hide registry.Valid, BooksOk, PlanOk, Linked, Witnessed, Asked, AsksFor;
      restarted, saved := false, false;
      if stopped { return; }
      ResumesKeep(env, log, maxBufferedTasks, Now(), {});
      Unflag();
      restarted, saved := RequestScan({});
    }

    method Unflag()
      modifies this`scans
      ensures PlanNow() == ResumeFrom(old(PlanNow()), 0)
    {
      var n := |scans|;
      for i := 0 to n
        invariant |scans| == n && ResumeFrom(PlanNow(), i) == ResumeFrom(old(PlanNow()), 0)
      {
        scans := scans[i := Entry(scans[i].key, scans[i].scan.(failed := false))];
      }
    }

    /** The patrol's second half, on a day whose run is due: starts the daily sweep, then fills the nodes. */
    method TriggerDaily(day: int, due: bool, lastRun: Option<int>)
      returns (error: Option<ScanError>, ghost e: Enlisting, ghost queued: State, ghost begun: State, ghost d: Drainage)
      requires Valid({}) && LogFits() && day <= today
      modifies this, registry`nodes, registry`clock, registry`sends
      ensures Valid({}) && stopped == old(stopped) && old(trace) <= trace
      ensures due && lastRun != Some(day) && error.None? ==> automaticRunDate == Some(day)
      ensures var starts := due && lastRun != Some(day) && old(automaticRunDate) != Some(day);
              if starts then StartsDay(old(Now()), day, error, e, queued, begun) else error.None? && begun == old(Now())
      ensures if error.None? && !stopped then DrainedBy(begun, d) else Now() == begun
    {
      hide FillsOnly, KeepsHeld, OnlyFilled, OnlyDrained, Faultless, Blocked, AllReadBack, AllTried, AsksFor, InOrder, Drained, Ends,
           NoneDispatchable, LeavesScans, StartsDay;
      d := NoDrainage(Now());
      error, e, queued := StartIfDue(day, due, lastRun);
      begun := Now();
      if error.None? { d := Drain({}); }
    }

    /** A daily run begins: its sweep is registered and its day is owed - or it cannot begin, and only time has passed. */
    ghost predicate StartsDay(s: State, day: int, error: Option<ScanError>, e: Enlisting, queued: State, begun: State) {
      && (error.Some? <==> !s.live || NoRangeLeft(s.p.scans, None))
      && if error.Some? then begun == s.(today := begun.today)
         else Enlists(s, None, e, queued) && begun == queued.(p := queued.p.(daily := Some(day))) && SomeSweep(begun.p.scans, day)
    }

    method StartIfDue(day: int, due: bool, lastRun: Option<int>) returns (error: Option<ScanError>, ghost e: Enlisting, ghost queued: State)
      requires Valid({}) && LogFits() && day <= today
      modifies this`scans, this`seen, this`today, this`scanContinuation, this`savingDailyRun, this`automaticRunDate, registry`clock
      ensures Valid({}) && stopped == old(stopped) && trace == old(trace)
      ensures due && lastRun != Some(day) && error.None? ==> automaticRunDate == Some(day)
      ensures var starts := due && lastRun != Some(day) && old(automaticRunDate) != Some(day);
              if starts then StartsDay(old(Now()), day, error, e, queued, Now()) else error.None? && Now() == old(Now())
    {
      hide InOrder, StartsDay;
      error, e, queued := None, Enlisting(today, today, today, false, false, false), Now();
      if due && lastRun != Some(day) && automaticRunDate != Some(day) { error, e, queued := StartDaily(day); }
    }

    method StartDaily(day: int) returns (error: Option<ScanError>, ghost e: Enlisting, ghost queued: State)
      requires Valid({}) && LogFits() && day <= today
      modifies this`scans, this`seen, this`today, this`scanContinuation, this`savingDailyRun, this`automaticRunDate, registry`clock
      ensures Valid({}) && stopped == old(stopped) && trace == old(trace)
      ensures automaticRunDate == if error.None? then Some(day) else old(automaticRunDate)
      ensures StartsDay(old(Now()), day, error, e, queued, Now())
    {
      hide InOrder, Enlists, NoRangeLeft, WillSweep;
      error, e := EnqueueBacklog(None);
      queued := Now();
      if error.None? { OweDay(day, e.runDay); }
    }

    /** The day is recorded once the sweep registered for it is over. */
    method OweDay(day: int, ghost runDay: int)
      requires Valid({}) && !stopped && SomeSweep(scans, runDay) && day <= runDay && day <= today
      modifies this`automaticRunDate
      ensures Valid({}) && automaticRunDate == Some(day) && SomeSweep(scans, day)
      ensures Now() == old(Now()).(p := old(PlanNow()).(daily := Some(day)))
    {
      ghost var s := Now();
      EarlierSweep(scans, runDay, day);
      OwesDay(env, log, maxBufferedTasks, s, day, {});
      automaticRunDate := Some(day);
      assert Now() == s.(p := s.p.(daily := Some(day)));
    }

    /** The last-run day was stored, or could not be. The day written is one whose sweep is over. */
    method DayRecorded(stored: bool) returns (day: int)
      requires Valid({}) && savingDailyRun.Some?
      modifies this`automaticRunDate, this`savingDailyRun
      ensures Valid({}) && savingDailyRun.None? && day == old(savingDailyRun).value && SweepFinished(log, past, day)
      ensures automaticRunDate == if stored && old(automaticRunDate) == old(savingDailyRun) then None else old(automaticRunDate)
    {
      ghost var s := Now();
      PaysDay(env, log, maxBufferedTasks, s, {});
      day := savingDailyRun.value;
      if stored && automaticRunDate == savingDailyRun { automaticRunDate := None; }
      savingDailyRun := None;
      assert Now() == s.(saving := None, p := s.p.(daily := None)) || Now() == s.(saving := None);
    }

    /** The turn a capped drain asked for. */
    method ContinueDrain() returns (ghost d: Drainage)
      requires Valid({})
      modifies this`queue, this`cursor, this`inflight, this`dispatched, this`trace, this`past, this`holder,
               this`dispatchedTaskCount, this`drainContinuation, this`scans, this`seen, this`scanContinuation,
               this`savingDailyRun, registry`nodes, registry`clock, registry`sends
      ensures Valid({}) && old(trace) <= trace
      ensures if stopped then Now() == old(Now()) else DrainedBy(old(Now()), d)
    {
      hide FillsOnly, InOrder, Drained, Ends, NoneDispatchable, Sends, LeavesScans;
      drainContinuation := false;
      d := Drain({});
    }

    /** Shutting down: no page and no dispatch any more; settlements are still heard. */
    method Stop()
      requires Valid({})
      modifies this`stopped, this`scans, this`buffered, this`scanContinuation, this`drainContinuation
      ensures Valid({}) && stopped && scans == [] && buffered.None?
    {
      hide InOrder;
      ghost var s := Now();
      ghost var p := s.p.(scans := [], buffered := None);
      Stopping(env, log, maxBufferedTasks, s, p, {});
      stopped, scans, buffered, scanContinuation, drainContinuation := true, [], None, false, false;
      assert Now() == s.(live := false, p := p);
    }
  }

  method AnyRun(runs: map<int, nat>) returns (r: int)
    requires runs != map[]
    ensures r in runs
  {
    assert runs.Items != {};
    var item :| item in runs.Items;
    r := item.0;
  }
}
