/**
 * The scheduler's whole state as a value - books, plan, nodes, and who will report each task sent -
 * with what every turn keeps true of it, what each step does to it, and that each keeps it in order.
 */
module SchedulerState {
  import opened Options
  import opened Tasks
  import opened Ledger
  import opened NodeRegistry
  import opened ScanPlan
  import BacklogReader
  import TaskIds

  // ----- what a slot may be filled with -----

  ghost predicate NodeFor(nodes: map<string, LiveNode>, t: Task, now: int, timeout: int) {
    exists n :: n in nodes && Idle(nodes[n], t.rust, now, timeout)
  }

  ghost predicate SomeIdle(nodes: map<string, LiveNode>, now: int, timeout: int) { exists n :: n in nodes && Idle(nodes[n], false, now, timeout) }

  /** The task could be sent this moment: no node holds its slice and some node has room for it. */
  ghost predicate Dispatchable(nodes: map<string, LiveNode>, t: Task, now: int, timeout: int) {
    !HasActiveSlice(nodes, t.slice) && NodeFor(nodes, t, now, timeout)
  }

  /** What the queue is searched for: a node is looked up only for tasks that need a Rust node. */
  ghost predicate Eligible(nodes: map<string, LiveNode>, t: Task, now: int, timeout: int) {
    !HasActiveSlice(nodes, t.slice) && (t.rust ==> NodeFor(nodes, t, now, timeout))
  }

  /** What the search may find while some node has room could be sent at once. */
  lemma RoomForIt(nodes: map<string, LiveNode>, t: Task, now: int, timeout: int)
    requires SomeIdle(nodes, now, timeout)
    ensures Eligible(nodes, t, now, timeout) ==> Dispatchable(nodes, t, now, timeout)
  {
    var n :| n in nodes && Idle(nodes[n], false, now, timeout);
    assert !t.rust ==> Idle(nodes[n], t.rust, now, timeout);
  }

  ghost predicate NoneDispatchable(nodes: map<string, LiveNode>, queue: seq<Task>, now: int, timeout: int) {
    forall i :: 0 <= i < |queue| ==> !Dispatchable(nodes, queue[i], now, timeout)
  }

  lemma NoneQueued(nodes: map<string, LiveNode>, now: int, timeout: int)
    ensures NoneDispatchable(nodes, [], now, timeout)
  {
  }

  /** Time alone only takes nodes away. */
  lemma NodesOnlyFade(nodes: map<string, LiveNode>, t: Task, now: int, later: int, timeout: int)
    requires now <= later && NodeFor(nodes, t, later, timeout)
    ensures NodeFor(nodes, t, now, timeout)
  {
    var n :| n in nodes && Idle(nodes[n], t.rust, later, timeout);
    assert Idle(nodes[n], t.rust, now, timeout);
  }

  lemma StillNoneDispatchable(nodes: map<string, LiveNode>, queue: seq<Task>, now: int, later: int, timeout: int)
    requires now <= later && NoneDispatchable(nodes, queue, now, timeout)
    ensures NoneDispatchable(nodes, queue, later, timeout)
  {
    forall i | 0 <= i < |queue| ensures !Dispatchable(nodes, queue[i], later, timeout) {
      if Dispatchable(nodes, queue[i], later, timeout) { NodesOnlyFade(nodes, queue[i], now, later, timeout); }
    }
  }

  // ----- the books as the plan sees them -----

  ghost function AccountsOf(run: int, b: Books): Accounts {
    b.past.resolved + (set s | s in b.inflight :: (run, s)) + (set t | t in b.queue :: (run, t.slice))
  }

  ghost predicate Busy(b: Books) { b.queue != [] || b.dispatched != map[] }

  lemma AccountsGrow(run: int, b: Books, b': Books)
    requires StaysAccounted(run, b, b')
    ensures AccountsOf(run, b) <= AccountsOf(run, b')
  {
    forall p | p in AccountsOf(run, b) ensures p in AccountsOf(run, b') {
      AccountsIs(run, b, p.0, p.1);
      AccountsIs(run, b', p.0, p.1);
    }
  }

  lemma AccountsIs(run: int, b: Books, r: int, s: Slice)
    ensures (r, s) in AccountsOf(run, b) <==> Accounted(run, b, r, s)
  {
    if r == run && IsLoaded(b, s) && s !in b.inflight {
      var i :| 0 <= i < |b.queue| && b.queue[i].slice == s;
      assert b.queue[i] in b.queue;
    }
  }

  lemma PlanFollows(env: Env, log: seq<BacklogReader.Row>, run: int, today: int, p: Plan, b: Books, b': Books)
    requires PlanOk(log, AccountsOf(run, b), run, Busy(b), today, p) && StaysAccounted(run, b, b') && (Busy(b') ==> Busy(b))
    ensures PlanOk(log, AccountsOf(run, b'), run, Busy(b'), today, p)
  {
    AccountsGrow(run, b, b');
    PlanStays(log, AccountsOf(run, b), run, Busy(b), today, p, AccountsOf(run, b'), Busy(b'), today);
  }

  // ----- the whole state -----

  /**
   * `live`: not yet stopped. `saving`: the day whose run is being recorded. `holder`: the node that will
   * report each task sent.
   */
  datatype State = State(run: int, today: int, live: bool, saving: Option<int>, b: Books, p: Plan,
                         nodes: map<string, LiveNode>, holder: map<string, string>)

  /**
   * A whole sweep is behind us: under some run no older than `day`, every slice of the log up to the
   * day before was left out as complete, was refused because a node held it, succeeded, or failed three times.
   */
  ghost predicate SweepFinished(log: seq<BacklogReader.Row>, p: Past, day: int) {
    exists r: int :: SweptBy(log, p.resolved, r, day)
  }

  /** The last page read rests on a genuine look, and the day being recorded has been swept. */
  ghost predicate Witnessed(env: Env, log: seq<BacklogReader.Row>, s: State) {
    && (s.p.look.Some? ==> env.genuine(s.p.look.value))
    && (s.saving.Some? ==> SweepFinished(log, s.b.past, s.saving.value))
  }

  /** What a turn keeps true; `pending` are tasks just released whose settlement is still being delivered. */
  ghost predicate InOrder(env: Env, log: seq<BacklogReader.Row>, max: nat, s: State, pending: set<string>) {
    && BooksOk(env, s.run, s.b) && Linked(s.nodes, s.b.dispatched, s.holder, pending) && |s.b.queue| + |s.b.inflight| <= max
    && (s.live ==> PlanOk(log, AccountsOf(s.run, s.b), s.run, Busy(s.b), s.today, s.p))
    && Witnessed(env, log, s)
  }

  /** A sweep once finished stays finished, whatever is resolved afterwards. */
  lemma SweepLasts(log: seq<BacklogReader.Row>, p: Past, p': Past, day: int)
    requires SweepFinished(log, p, day) && p.resolved <= p'.resolved
    ensures SweepFinished(log, p', day)
  {
    var r :| SweptBy(log, p.resolved, r, day);
    assert SweptBy(log, p'.resolved, r, day);
  }

  lemma StaysWitnessed(env: Env, log: seq<BacklogReader.Row>, s: State, s': State)
    requires Witnessed(env, log, s) && s'.p.look == s.p.look && s'.saving == s.saving
    requires s.b.past.resolved <= s'.b.past.resolved
    ensures Witnessed(env, log, s')
  {
    if s.saving.Some? { SweepLasts(log, s.b.past, s'.b.past, s.saving.value); }
  }

  ghost function Initial(today: int): State {
    State(today, today, true, None, Books([], {}, map[], map[], map[], [], map[], [], NOTHING),
          Plan([], None, None, 0, None, map[], None, None), map[], map[])
  }

  lemma StartsInOrder(env: Env, log: seq<BacklogReader.Row>, max: nat, today: int)
    ensures InOrder(env, log, max, Initial(today), {})
  {
    var s := Initial(today);
    forall r: int, q | q in env.log ensures LossOk(env, s.b, r, q) {}
  }

  // ----- one dispatch -----

  /**
   * When it was tried: some node had room at `gate`, the search ended at `found`, a node was picked at
   * `picked` and asked at `asked`; `nth` numbers the send it came to, if it came to one.
   */
  datatype Try = Try(gate: int, found: int, picked: int, asked: int, nth: nat)

  /** `shunned`: the node that would not take the task, if one was found for it at all. */
  datatype Move =
    | Stay
    | Deliver(i: nat, task: Task, node: string, t: Try)
    | Return(i: nat, task: Task, shunned: Option<string>, t: Try)

  ghost predicate Moved(s: State, move: Move, s': State) {
    match move
    case Stay => s' == s
    case Deliver(i, task, n, _) =>
      && n in s.nodes && Dispatches(s.b, i, task, s.run, IsRust(s.nodes[n]), s'.b) && !HasActiveSlice(s.nodes, task.slice)
      && s' == s.(b := s'.b, nodes := s.nodes[n := Occupy(s.nodes[n], task)], holder := s.holder[task.id := n])
    case Return(i, task, n, _) =>
      && i < |s.b.queue| && s'.b == PutBack(s.b, i, task)
      && (if n.Some? then Spares(s.nodes, n.value, s'.nodes) else s'.nodes == s.nodes)
      && task == s.b.queue[i].(rust := task.rust) && (s.b.queue[i].rust ==> task.rust)
      && s' == s.(b := s'.b, nodes := s'.nodes)
  }

  ghost predicate InTime(t: Try, clock: int, clock': int) { clock <= t.gate <= t.found <= t.picked <= t.asked <= clock' }

  /**
   * What earns a move. Some node had room and the task was one the search may find. It was sent to a node
   * picked for it that could take it - or it went back, because no node was left for it, or because the
   * node picked for it could not take it any more or the send to it failed. `sends`: those made so far.
   */
  ghost predicate Tried(delivers: nat -> bool, sends: nat, timeout: int, s: State, move: Move) {
    !move.Stay? ==>
      && move.i < |s.b.queue| && SomeIdle(s.nodes, move.t.gate, timeout) && Eligible(s.nodes, s.b.queue[move.i], move.t.found, timeout)
      && match move
         case Deliver(i, task, n, t) =>
           PickedFor(s, s.b.queue[i], n, t.picked, timeout, task) && Takes(s.nodes[n], task, t.asked, timeout) && t.nth < sends && delivers(t.nth)
         case Return(i, task, None, t) => task == s.b.queue[i] && !NodeFor(s.nodes, s.b.queue[i], t.picked, timeout)
         case Return(i, task, Some(n), t) =>
           && PickedFor(s, s.b.queue[i], n, t.picked, timeout, task)
           && (!Takes(s.nodes[n], task, t.asked, timeout) || (t.nth < sends && !delivers(t.nth)))
         case Stay => false
  }

  ghost predicate PickedFor(s: State, found: Task, n: string, picked: int, timeout: int, task: Task) {
    n in s.nodes && Idle(s.nodes[n], found.rust, picked, timeout) && task == found.(rust := found.rust || IsRust(s.nodes[n]))
  }

  /** The node picked was asked, and took the task or did not. */
  lemma AskedEarns(delivers: nat -> bool, sends: nat, timeout: int, s: State, i: nat, n: string, task: Task, t: Try)
    requires i < |s.b.queue| && SomeIdle(s.nodes, t.gate, timeout) && Eligible(s.nodes, s.b.queue[i], t.found, timeout)
    requires PickedFor(s, s.b.queue[i], n, t.picked, timeout, task) && (Takes(s.nodes[n], task, t.asked, timeout) ==> t.nth < sends)
    ensures var sent := Takes(s.nodes[n], task, t.asked, timeout) && delivers(t.nth);
            Tried(delivers, sends, timeout, s, if sent then Deliver(i, task, n, t) else Return(i, task, Some(n), t))
    ensures task.rust ==> IsRust(s.nodes[n])
  {
  }

  /** The node the task was meant for holds a task of that id already. */
  ghost predicate HeldAlready(s: State, move: Move) {
    move.Return? && move.shunned.Some? && move.shunned.value in s.nodes && move.task.id in s.nodes[move.shunned.value].active
  }

  /** While the clock stands still and sends arrive, only a node that holds its id turns a task away. */
  lemma OnlyItsHolderTurnsAway(delivers: nat -> bool, sends: nat, timeout: int, s: State, move: Move, clock: int)
    requires move.Return? && Tried(delivers, sends, timeout, s, move) && InTime(move.t, clock, clock)
    requires move.t.nth < sends ==> delivers(move.t.nth)
    ensures HeldAlready(s, move)
  {
    RoomForIt(s.nodes, s.b.queue[move.i], clock, timeout);
  }

  /** The state after node `n` accepted a task that was already taken off the queue. */
  ghost function Delivered(s: State, task: Task, n: string): State
    requires n in s.nodes
  {
    s.(b := Record(s.b.(inflight := s.b.inflight + {task.slice}, dispatched := s.b.dispatched[task.id := task]),
                   Sent(s.run, task, IsRust(s.nodes[n]), true)),
       nodes := s.nodes[n := Occupy(s.nodes[n], task)], holder := s.holder[task.id := n])
  }

  ghost function Reserved(s: State, task: Task): State {
    s.(b := s.b.(inflight := s.b.inflight + {task.slice}, dispatched := s.b.dispatched[task.id := task]))
  }

  ghost function TakenOff(s: State, i: nat): State
    requires i < |s.b.queue|
  {
    s.(b := s.b.(queue := RemoveAt(s.b.queue, i)))
  }

  lemma DeliveredMoves(s: State, i: nat, task: Task, n: string, t: Try)
    requires i < |s.b.queue| && n in s.nodes && task == s.b.queue[i].(rust := s.b.queue[i].rust || IsRust(s.nodes[n]))
    requires (task.rust ==> IsRust(s.nodes[n])) && !HasActiveSlice(s.nodes, task.slice)
    ensures Moved(s, Deliver(i, task, n, t), Delivered(TakenOff(s, i), task, n))
  {
  }

  /** The state after a task taken off the queue was put at its end. */
  ghost function Returned(s: State, task: Task, nodes: map<string, LiveNode>): State {
    s.(b := s.b.(queue := s.b.queue + [task]), nodes := nodes)
  }

  lemma ReturnedMoves(s: State, i: nat, task: Task, n: Option<string>, nodes: map<string, LiveNode>, t: Try)
    requires i < |s.b.queue| && task == s.b.queue[i].(rust := task.rust) && (s.b.queue[i].rust ==> task.rust)
    requires if n.Some? then Spares(s.nodes, n.value, nodes) else nodes == s.nodes
    ensures Moved(s, Return(i, task, n, t), Returned(TakenOff(s, i), task, nodes))
  {
  }

  /** No two tasks of the books share an id or a slice. */
  ghost predicate QueuedApart(b: Books) {
    && (forall i :: 0 <= i < |b.queue| ==> b.queue[i].id !in b.dispatched && b.queue[i].slice !in b.inflight)
    && (forall i, j :: 0 <= i < j < |b.queue| ==> b.queue[i].id != b.queue[j].id && b.queue[i].slice != b.queue[j].slice)
  }

  lemma QueueIsApart(env: Env, run: int, b: Books)
    requires Sound(env) && BooksOk(env, run, b)
    ensures QueuedApart(b)
  {
    forall i | 0 <= i < |b.queue| ensures b.queue[i].id !in b.dispatched && b.queue[i].slice !in b.inflight {
      SendAllowed(env, run, b, i, b.queue[i].(rust := true), true);
    }
    forall i, j | 0 <= i < j < |b.queue| ensures b.queue[i].id != b.queue[j].id {
      assert LoadedOk(env, run, b, b.queue[i]) && LoadedOk(env, run, b, b.queue[j]);
      TaskReadsBack(env, run, b.queue[i]);
      TaskReadsBack(env, run, b.queue[j]);
    }
  }

  lemma OrderIsApart(env: Env, log: seq<BacklogReader.Row>, max: nat, s: State, pending: set<string>)
    requires Sound(env) && InOrder(env, log, max, s, pending)
    ensures QueuedApart(s.b)
  {
    hide BooksOk, PlanOk, Linked, Witnessed, AccountsOf, Sound;
    QueueIsApart(env, s.run, s.b);
  }

  lemma StaysApart(s: State, move: Move, s': State)
    requires QueuedApart(s.b) && Moved(s, move, s')
    ensures QueuedApart(s'.b)
  {
    if !move.Stay? { IsRemovedAt(s.b.queue, move.i); }
  }

  lemma DeliverKeeps(env: Env, log: seq<BacklogReader.Row>, max: nat, s: State, move: Move, s': State, pending: set<string>)
    requires Sound(env) && InOrder(env, log, max, s, pending) && move.Deliver? && Moved(s, move, s')
    ensures InOrder(env, log, max, s', pending) && s.b.trace <= s'.b.trace
  {
    var Deliver(i, task, n, _) := move;
    QueueIsApart(env, s.run, s.b);
    LinkSends(s.nodes, n, task, s'.nodes, s.b.dispatched, s.holder, pending);
    DispatchKeeps(env, s.run, s.b, i, task, IsRust(s.nodes[n]), s'.b);
    AccountsFor(s.run, s.b, s'.b);
    StaysWitnessed(env, log, s, s');
    if s.live { PlanFollows(env, log, s.run, s.today, s.p, s.b, s'.b); }
  }

  lemma ReturnKeeps(env: Env, log: seq<BacklogReader.Row>, max: nat, s: State, move: Move, s': State, pending: set<string>)
    requires InOrder(env, log, max, s, pending) && move.Return? && Moved(s, move, s')
    ensures InOrder(env, log, max, s', pending)
  {
    var Return(i, task, n, _) := move;
    if n.Some? { LinkKeeps(s.nodes, n.value, s'.nodes, s.b.dispatched, s.holder, pending); }
    PutBackKeeps(env, s.run, s.b, i, task, s'.b);
    AccountsFor(s.run, s.b, s'.b);
    StaysWitnessed(env, log, s, s');
    if s.live { PlanFollows(env, log, s.run, s.today, s.p, s.b, s'.b); }
  }

  lemma MoveKeeps(env: Env, log: seq<BacklogReader.Row>, max: nat, s: State, move: Move, s': State, pending: set<string>)
    requires Sound(env) && InOrder(env, log, max, s, pending) && Moved(s, move, s')
    ensures InOrder(env, log, max, s', pending)
    ensures s.b.trace <= s'.b.trace && (!move.Deliver? ==> s'.b.trace == s.b.trace)
    ensures |s'.b.queue| == |s.b.queue| - if move.Deliver? then 1 else 0
  {
    if move.Deliver? { DeliverKeeps(env, log, max, s, move, s', pending); }
    if move.Return? { ReturnKeeps(env, log, max, s, move, s', pending); }
  }

  /** The state a chain of moves ends in, if each move leads to the next state. */
  ghost predicate Path(from: State, moves: seq<(Move, State)>, to: State) {
    if moves == [] then to == from
    else
      var n := |moves| - 1;
      to == moves[n].1 && exists mid :: Path(from, moves[..n], mid) && Moved(mid, moves[n].0, to)
  }

  lemma PathGrows(from: State, moves: seq<(Move, State)>, mid: State, move: Move, to: State)
    requires Path(from, moves, mid) && Moved(mid, move, to)
    ensures Path(from, moves + [(move, to)], to)
  {
    assert (moves + [(move, to)])[..|moves|] == moves;
  }

  lemma {:induction false} PathKeeps(env: Env, log: seq<BacklogReader.Row>, max: nat, from: State, moves: seq<(Move, State)>, to: State, pending: set<string>)
    requires Sound(env) && Path(from, moves, to) && InOrder(env, log, max, from, pending)
    ensures InOrder(env, log, max, to, pending) && from.b.trace <= to.b.trace
  {
    if moves != [] {
      var n := |moves| - 1;
      var mid :| Path(from, moves[..n], mid) && Moved(mid, moves[n].0, to);
      PathKeeps(env, log, max, from, moves[..n], mid, pending);
      MoveKeeps(env, log, max, mid, moves[n].0, to, pending);
    }
  }

  // ----- one settlement -----

  ghost function AfterSettling(ids: IdScheme, s: State, id: string, failed: bool): State
    requires id in s.b.dispatched
  {
    s.(b := Settle(ids, s.b, id, failed, HasActiveSlice(s.nodes, s.b.dispatched[id].slice)))
  }

  lemma SettledBooks(env: Env, run: int, b: Books, id: string, failed: bool, held: bool, b': Books)
    requires Sound(env) && BooksOk(env, run, b) && id in b.dispatched && b' == Settle(env.ids, b, id, failed, held)
    ensures BooksOk(env, run, b') && StaysAccounted(run, b, b') && b.past.resolved <= b'.past.resolved
    ensures |b'.queue| + |b'.inflight| <= |b.queue| + |b.inflight| && b'.dispatched == Less(b.dispatched, {id})
  {
    hide Settle, StaysAccounted, QueueOk, OpenOk, LossesOk, RetriesOk, RecentOk, Told;
    assert SentOk(env, run, b, id);
    SettleKeeps(env, run, b, id, failed, held, b');
    SettleShrinks(env.ids, b, id, failed, held);
    assert Without(b.dispatched, id) == Less(b.dispatched, {id});
  }

  /** New books over the same nodes and plan. */
  lemma BooksChange(env: Env, log: seq<BacklogReader.Row>, max: nat, s: State, b: Books, pending: set<string>, pending': set<string>)
    requires InOrder(env, log, max, s, pending) && BooksOk(env, s.run, b) && StaysAccounted(s.run, s.b, b)
    requires |b.queue| + |b.inflight| <= |s.b.queue| + |s.b.inflight| && (Busy(b) ==> Busy(s.b))
    requires Linked(s.nodes, b.dispatched, s.holder, pending') && s.b.past.resolved <= b.past.resolved
    ensures InOrder(env, log, max, s.(b := b), pending')
  {
    StaysWitnessed(env, log, s, s.(b := b));
    if s.live { PlanFollows(env, log, s.run, s.today, s.p, s.b, b); }
  }

  lemma SettledKeeps(env: Env, log: seq<BacklogReader.Row>, max: nat, s: State, id: string, failed: bool, s': State, pending: set<string>)
    requires Sound(env) && InOrder(env, log, max, s, pending) && id in pending && id in s.b.dispatched
    requires s' == AfterSettling(env.ids, s, id, failed)
    ensures InOrder(env, log, max, s', pending - {id}) && QueuedApart(s'.b)
  {
    SettledBooks(env, s.run, s.b, id, failed, HasActiveSlice(s.nodes, s.b.dispatched[id].slice), s'.b);
    LinkSettles(s.nodes, s.b.dispatched, s.holder, pending, id);
    BooksChange(env, log, max, s, s'.b, pending, pending - {id});
    QueueIsApart(env, s.run, s'.b);
  }

  lemma NotPending(env: Env, log: seq<BacklogReader.Row>, max: nat, s: State, pending: set<string>, id: string)
    requires InOrder(env, log, max, s, pending) && id !in s.b.dispatched
    ensures pending - {id} == pending
  {
  }

  // ----- changes of the plan -----

  lemma PlanChange(env: Env, log: seq<BacklogReader.Row>, max: nat, s: State, p: Plan, pending: set<string>)
    requires InOrder(env, log, max, s, pending)
    requires s.live ==> PlanOk(log, AccountsOf(s.run, s.b), s.run, Busy(s.b), s.today, p)
    requires p.look.Some? && p.look != s.p.look ==> env.genuine(p.look.value)
    ensures InOrder(env, log, max, s.(p := p), pending)
  {
  }

  lemma RestartsKeep(env: Env, log: seq<BacklogReader.Row>, max: nat, s: State, pending: set<string>)
    requires InOrder(env, log, max, s, pending) && s.live && s.p.reading.None?
    ensures InOrder(env, log, max, s.(p := RestartFrom(s.p, 0)), pending)
    ensures LeavesScans(s.p.scans, RestartFrom(s.p, 0).scans)
    ensures forall d :: SomeSweep(s.p.scans, d) ==> SomeSweep(RestartFrom(s.p, 0).scans, d)
  {
    RestartFromLeaves(s.p, 0);
    forall d | SomeSweep(s.p.scans, d) ensures SomeSweep(RestartFrom(s.p, 0).scans, d) {
      RestartFromSweeps(log, AccountsOf(s.run, s.b), s.run, Busy(s.b), s.today, s.p, 0, d);
    }
    RestartFromKeeps(log, AccountsOf(s.run, s.b), s.run, Busy(s.b), s.today, s.p, 0);
    PlanChange(env, log, max, s, RestartFrom(s.p, 0), pending);
  }

  /** Scans that are not waiting are left as they were. */
  ghost predicate LeavesScans(scans: seq<Entry>, scans': seq<Entry>) {
    |scans'| == |scans| && forall k :: 0 <= k < |scans| && !scans[k].scan.waiting ==> scans'[k] == scans[k]
  }

  lemma ResumesKeep(env: Env, log: seq<BacklogReader.Row>, max: nat, s: State, pending: set<string>)
    requires InOrder(env, log, max, s, pending) && s.live
    ensures InOrder(env, log, max, s.(p := ResumeFrom(s.p, 0)), pending)
  {
    ResumeFromKeeps(log, AccountsOf(s.run, s.b), s.run, Busy(s.b), s.today, s.p, 0);
    PlanChange(env, log, max, s, ResumeFrom(s.p, 0), pending);
  }

  lemma IdleSweepIsFinished(env: Env, log: seq<BacklogReader.Row>, max: nat, s: State, pending: set<string>)
    requires InOrder(env, log, max, s, pending) && s.live && s.p.daily.Some? && s.p.scans == []
    requires s.b.queue == [] && s.b.inflight == {}
    ensures SweepFinished(log, s.b.past, s.p.daily.value)
  {
    assert AccountsOf(s.run, s.b) == s.b.past.resolved;
    assert SweptBy(log, s.b.past.resolved, s.p.swept.value, s.p.daily.value);
  }

  /** Some scan of the oldest run neither failed nor has to wait. */
  ghost predicate SomeReady(scans: seq<Entry>, runs: set<int>) {
    exists i, oldest :: 0 <= i < |scans| && IsOldest(scans, runs, oldest) && IsReady(scans[i], oldest)
  }

  /** The day owed may be recorded: nothing of the sweep is left, and no day is being recorded. */
  ghost predicate FinishesDay(s: State) {
    s.p.daily.Some? && s.saving.None? && s.p.scans == [] && s.b.queue == [] && s.b.inflight == {}
  }

  /** A page may be thought of at all: not stopped, none being read, and no turn asked for yet. */
  ghost predicate MayAsk(s: State, waiting: bool) { s.live && s.p.reading.None? && !waiting }

  /** Scans start over exactly when nothing is loaded, and the day is put down exactly when it is over. */
  ghost predicate AsksFor(s: State, waiting: bool, restarted: bool, saved: bool) {
    && (restarted <==> MayAsk(s, waiting) && |s.b.queue| + |s.b.inflight| == 0)
    && (saved <==> MayAsk(s, waiting) && s.p.buffered.None? && FinishesDay(s))
  }

  /** The state after the next page was asked for. */
  ghost function Asked(s: State, restarted: bool, saved: bool): State {
    var q := if restarted then s.(p := RestartFrom(s.p, 0)) else s;
    if saved then q.(saving := q.p.daily) else q
  }

  lemma AskedLeaves(s: State, restarted: bool, saved: bool)
    ensures Asked(s, restarted, saved).b == s.b && Asked(s, restarted, saved).nodes == s.nodes
  {
  }

  /** Asking starts the waiting scans over when nothing is loaded, and otherwise leaves every scan alone. */
  lemma AskedStartsOver(s: State, waiting: bool, stopped: bool)
    requires s.live == !stopped
    ensures forall restarted, saved :: AsksFor(s, waiting, restarted, saved) ==>
      if !stopped && s.p.reading.None? && !waiting && s.b.queue == [] && s.b.inflight == {}
      then StartsOver(s.p.scans, Asked(s, restarted, saved).p.scans, 0) else Asked(s, restarted, saved).p.scans == s.p.scans
  {
    RestartFromStartsOver(s.p, 0);
  }

  lemma AskedKeeps(env: Env, log: seq<BacklogReader.Row>, max: nat, s: State, waiting: bool, restarted: bool, saved: bool, pending: set<string>)
    requires InOrder(env, log, max, s, pending) && AsksFor(s, waiting, restarted, saved)
    ensures var s' := Asked(s, restarted, saved);
            && InOrder(env, log, max, s', pending) && LeavesScans(s.p.scans, s'.p.scans) && s'.p.reading == s.p.reading
            && s'.b == s.b && s'.live == s.live
            && forall d :: SomeSweep(s.p.scans, d) ==> SomeSweep(s'.p.scans, d)
  {
    var q := Asked(s, restarted, false);
    if restarted {
      RestartsKeep(env, log, max, s, pending);
      RestartFromLeaves(s.p, 0);
    }
    if saved { IdleSweepIsFinished(env, log, max, q, pending); }
  }

  // ----- a whole page -----

  /** The page's scan is known, so the page can be used. */
  ghost predicate HasLeader(p: Plan) {
    && p.buffered.Some? && p.look.Some? && Leader(p) < |p.scans| && p.buffered.value.key in p.seen
    && p.buffered.value.index <= |p.buffered.value.page.rows|
  }

  ghost function PageUsed(ids: IdScheme, log: seq<BacklogReader.Row>, max: nat, s: State): State
    requires HasLeader(s.p)
  {
    var offered := OfferRows(ids, max, s.(run := LeaderRun(s.p)));
    if HasLeader(offered.p) && !HasRow(offered.p) then UsedUp(log, offered) else offered
  }

  lemma OfferRowsPlan(ids: IdScheme, max: nat, s: State)
    requires s.p.buffered.Some?
    ensures var s' := OfferRows(ids, max, s);
            s'.p.buffered.Some? && s'.p == s.p.(buffered := s'.p.buffered) && s'.p.buffered.value.key == s.p.buffered.value.key
            && s'.p.buffered.value.page == s.p.buffered.value.page && s'.live == s.live
            && (s.p.buffered.value.index <= |s.p.buffered.value.page.rows| ==> s'.p.buffered.value.index <= |s.p.buffered.value.page.rows|)
    decreases if HasRow(s.p) then |s.p.buffered.value.page.rows| - s.p.buffered.value.index else 0
  {
    if HasRow(s.p) && |s.b.queue| + |s.b.inflight| < max { OfferRowsPlan(ids, max, OfferRow(ids, s)); }
  }

  lemma {:induction false} OfferRowsTrace(ids: IdScheme, max: nat, s: State)
    ensures s.b.trace <= OfferRows(ids, max, s).b.trace
    decreases if HasRow(s.p) then |s.p.buffered.value.page.rows| - s.p.buffered.value.index else 0
  {
    if HasRow(s.p) && |s.b.queue| + |s.b.inflight| < max { OfferRowsTrace(ids, max, OfferRow(ids, s)); }
  }

  lemma PageUsedTrace(ids: IdScheme, log: seq<BacklogReader.Row>, max: nat, s: State)
    requires HasLeader(s.p)
    ensures s.b.trace <= PageUsed(ids, log, max, s).b.trace
  {
    OfferRowsTrace(ids, max, s.(run := LeaderRun(s.p)));
  }

  lemma {:induction false} OfferRowsStop(ids: IdScheme, max: nat, s: State)
    ensures var s' := OfferRows(ids, max, s); HasRow(s'.p) ==> |s'.b.queue| + |s'.b.inflight| >= max
    decreases if HasRow(s.p) then |s.p.buffered.value.page.rows| - s.p.buffered.value.index else 0
  {
    if HasRow(s.p) && |s.b.queue| + |s.b.inflight| < max { OfferRowsStop(ids, max, OfferRow(ids, s)); }
  }

  /** A page is either used up, and its scan moved on, or there is no room for its next row. */
  lemma UsedUpOrFull(ids: IdScheme, log: seq<BacklogReader.Row>, max: nat, s: State)
    requires HasLeader(s.p)
    ensures var s' := PageUsed(ids, log, max, s);
            && (s'.p.buffered.None? || (HasRow(s'.p) && s'.p.scans == s.p.scans && |s'.b.queue| + |s'.b.inflight| >= max))
            && s'.p.reading == s.p.reading
  {
    var adopted := s.(run := LeaderRun(s.p));
    OfferRowsPlan(ids, max, adopted);
    OfferRowsStop(ids, max, adopted);
  }

  lemma PageUsedKeeps(env: Env, log: seq<BacklogReader.Row>, max: nat, s: State, pending: set<string>)
    requires Sound(env) && BacklogReader.IsLog(log) && env.log == BacklogReader.SlicesOf(log)
    requires InOrder(env, log, max, s, pending) && s.live && s.p.buffered.Some?
    ensures HasLeader(s.p) && InOrder(env, log, max, PageUsed(env.ids, log, max, s), pending)
    ensures QueuedApart(PageUsed(env.ids, log, max, s).b) && PageUsed(env.ids, log, max, s).live
  {
    LeaderIs(env, log, max, s, pending);
    AdoptsRun(env, log, max, s, pending);
    var adopted := s.(run := LeaderRun(s.p));
    var offered := OfferRows(env.ids, max, adopted);
    OfferRowsPlan(env.ids, max, adopted);
    OfferRowsKeep(env, log, max, adopted, pending);
    if !HasRow(offered.p) { UsedUpKeeps(env, log, max, offered, pending); }
    QueueIsApart(env, PageUsed(env.ids, log, max, s).run, PageUsed(env.ids, log, max, s).b);
  }

  // ----- a page asked for and answered -----

  /** A page for the scan whose turn it is, no larger than the room left. */
  ghost predicate Asks(max: nat, pageSize: nat, s: State, oldest: Option<int>, i: nat, s': State) {
    && i < |s.p.scans| && s.p.reading.None? && s.p.buffered.None?
    && IsOldest(s.p.scans, s.b.loadedRuns.Keys, oldest) && IsReady(s.p.scans[i], oldest)
    && var room := max - |s.b.queue| - |s.b.inflight|;
       var scan := s.p.scans[i].scan;
       && pageSize > 0 && room > 0
       && s' == s.(p := s.p.(reading := Some(Request(s.p.scans[i].key, scan.range, scan.cursor, if pageSize < room then pageSize else room))))
  }

  lemma AsksKeeps(env: Env, log: seq<BacklogReader.Row>, max: nat, pageSize: nat, s: State, pending: set<string>, oldest: Option<int>, i: nat, s': State)
    requires InOrder(env, log, max, s, pending) && s.live && Asks(max, pageSize, s, oldest, i, s')
    ensures InOrder(env, log, max, s', pending)
  {
    hide QueueOk, DispatchedOk, OpenOk, LossesOk, RetriesOk, RecentOk, Told, Linked, PlanOk, Witnessed, AccountsOf;
    var acc := AccountsOf(s.run, s.b);
    LoadedKeys(s.run, s.b);
    ReadyLeads(log, acc, s.run, Busy(s.b), s.today, s.p, oldest, i);
    BeginKeeps(log, acc, s.run, Busy(s.b), s.today, s.p, i, s'.p.reading.value.limit, s'.p);
    PlanChange(env, log, max, s, s'.p, pending);
  }

  ghost function Arrived(s: State, look: Look, page: BacklogReader.Page): State
    requires s.p.reading.Some?
  {
    var r := s.p.reading.value;
    s.(p := s.p.(reading := None, buffered := Some(Buffered(r.key, page, 0, r.range.through)), limit := r.limit, look := Some(look)))
  }

  /** The page is what the backlog reader makes of the request and of what it saw. */
  ghost predicate Answers(log: seq<BacklogReader.Row>, p: Plan, look: Look, page: BacklogReader.Page) {
    && p.reading.Some?
    && BacklogReader.IsPage(log, p.reading.value.range, p.reading.value.cursor, p.reading.value.limit, look.stored, look.marked, page)
  }

  lemma ArrivedKeeps(env: Env, log: seq<BacklogReader.Row>, max: nat, s: State, pending: set<string>, look: Look, page: BacklogReader.Page)
    requires InOrder(env, log, max, s, pending) && s.live && Answers(log, s.p, look, page) && env.genuine(look)
    ensures InOrder(env, log, max, Arrived(s, look, page), pending)
  {
    ArriveKeeps(log, AccountsOf(s.run, s.b), s.run, Busy(s.b), s.today, s.p, look, page, Arrived(s, look, page).p);
    PlanChange(env, log, max, s, Arrived(s, look, page).p, pending);
  }

  /** The page could not be read: its scan is flagged and its cursor stays. */
  ghost function Failed(s: State): State
    requires s.p.reading.Some?
  {
    var i := IndexOf(s.p.scans, s.p.reading.value.key);
    s.(p := s.p.(reading := None, scans := if i < |s.p.scans| then s.p.scans[i := Flagged(s.p.scans[i], true)] else s.p.scans))
  }

  lemma FailedKeeps(env: Env, log: seq<BacklogReader.Row>, max: nat, s: State, pending: set<string>)
    requires InOrder(env, log, max, s, pending) && s.live && s.p.reading.Some?
    ensures InOrder(env, log, max, Failed(s), pending)
    ensures var i := IndexOf(s.p.scans, s.p.reading.value.key); i < |s.p.scans| && !s.p.scans[i].scan.waiting
  {
    var i := IndexOf(s.p.scans, s.p.reading.value.key);
    var acc := AccountsOf(s.run, s.b);
    EndReadKeeps(log, acc, s.run, Busy(s.b), s.today, s.p, s.p.(reading := None));
    FlagKeeps(log, acc, s.run, Busy(s.b), s.today, s.p.(reading := None), i, true);
    PlanChange(env, log, max, s, Failed(s).p, pending);
  }

  lemma Stopping(env: Env, log: seq<BacklogReader.Row>, max: nat, s: State, p: Plan, pending: set<string>)
    requires InOrder(env, log, max, s, pending) && p.look == s.p.look
    ensures InOrder(env, log, max, s.(live := false, p := p), pending)
  {
  }

  lemma EarlierSweep(scans: seq<Entry>, runDay: int, day: int)
    requires SomeSweep(scans, runDay) && day <= runDay
    ensures SomeSweep(scans, day)
  {
    var i :| 0 <= i < |scans| && WillSweep(scans[i], runDay);
    assert WillSweep(scans[i], day);
  }

  // ----- a range registered -----

  function Yesterday(day: int): int { day - 1 }

  /** A day is covered by a full scan that reaches it; everything else is scanned on its own. */
  function EnrolKey(scans: seq<Entry>, date: Option<int>): ScanKey {
    var full := IndexOf(scans, AllDays);
    if date.Some? && !(full < |scans| && scans[full].scan.range.through >= date.value) then OneDay(date.value) else AllDays
  }

  function Renewed(scan: Scan, runDay: int, later: int): Scan {
    scan.(failed := false,
          next := Some(BacklogReader.Range(runDay, if scan.range.target.Some? then scan.range.target.value else Yesterday(later), scan.range.target)))
  }

  /** The plan once the range is registered; `runDay`, `day` and `later` are successive readings of the clock. */
  ghost function Enrolled(p: Plan, date: Option<int>, runDay: int, day: int, later: int): Plan {
    var key := EnrolKey(p.scans, date);
    var i := IndexOf(p.scans, key);
    var through := if date.Some? then date.value else Yesterday(day);
    if i == |p.scans| then p.(scans := p.scans + [Fresh(key, BacklogReader.Range(runDay, through, date))], seen := p.seen[key := {}])
    else
      var scan := p.scans[i].scan;
      var scan' :=
        if scan.range.run != runDay then Renewed(scan, runDay, later)
        else if date.None? && scan.range.through < through then scan.(failed := false, range := scan.range.(through := through))
        else scan.(failed := false);
      p.(scans := p.scans[i := Entry(key, scan')])
  }

  /** The date needs a scan of its own and there are as many scans as there may be. */
  predicate NoRangeLeft(scans: seq<Entry>, date: Option<int>) {
    IndexOf(scans, EnrolKey(scans, date)) == |scans| && |scans| >= MAX_SCAN_RANGES
  }

  /**
   * A range registered and its page asked for. `runDay`, `day` and `later` are successive readings of the
   * clock; `waiting`, `restarted` and `saved` belong to the asking.
   */
  datatype Enlisting = Enlisting(runDay: int, day: int, later: int, waiting: bool, restarted: bool, saved: bool)

  ghost predicate Enlists(s: State, date: Option<int>, e: Enlisting, s': State) {
    var q := s.(today := e.later, p := Enrolled(s.p, date, e.runDay, e.day, e.later));
    s.today <= e.runDay <= e.day <= e.later && AsksFor(q, e.waiting, e.restarted, e.saved) && s' == Asked(q, e.restarted, e.saved)
  }

  /** The scan that answers for the date, or for every day up to yesterday, is scan `i`: it has not failed, and only it changed. */
  ghost predicate EnrolsAt(scans: seq<Entry>, date: Option<int>, runDay: int, day: int, later: int, scans': seq<Entry>, i: nat) {
    && i < |scans'| && !scans'[i].scan.failed && (forall k :: 0 <= k < |scans| && k != i && k < |scans'| ==> scans'[k] == scans[k])
    && (scans'[i].key == AllDays || (date.Some? && scans'[i].key == OneDay(date.value)))
    && (i < |scans| && date.Some? && scans[i].key == AllDays ==> scans[i].scan.range.through >= date.value)
    && if i == |scans| then
         // a range of its own, read from the start
         && |scans'| == |scans| + 1 && scans'[i].scan == Scan(scans'[i].scan.range, None, false, None, false)
         && scans'[i].scan.range == BacklogReader.Range(runDay, if date.Some? then date.value else day - 1, date)
         && (scans'[i].key == AllDays <==> date.None?)
         && forall k :: 0 <= k < |scans| ==>
              scans[k].key != scans'[i].key && !(date.Some? && scans[k].key == AllDays && scans[k].scan.range.through >= date.value)
       else
         && |scans'| == |scans| && scans'[i].key == scans[i].key
         && scans'[i].scan.cursor == scans[i].scan.cursor && scans'[i].scan.waiting == scans[i].scan.waiting
         && if scans[i].scan.range.run != runDay then
              // one round more, after the current one
              var target := scans[i].scan.range.target;
              && scans'[i].scan.range == scans[i].scan.range
              && scans'[i].scan.next == Some(BacklogReader.Range(runDay, if target.Some? then target.value else later - 1, target))
            else
              && scans'[i].scan.next == scans[i].scan.next
              && scans'[i].scan.range == scans[i].scan.range.(through := scans'[i].scan.range.through)
              && scans'[i].scan.range.through
                 == if date.None? && scans[i].scan.range.through < day - 1 then day - 1 else scans[i].scan.range.through
  }

  ghost predicate Enrols(scans: seq<Entry>, date: Option<int>, runDay: int, day: int, later: int, scans': seq<Entry>) {
    exists i :: EnrolsAt(scans, date, runDay, day, later, scans', i)
  }

  lemma EnrolledEnrols(p: Plan, date: Option<int>, runDay: int, day: int, later: int)
    requires DistinctKeys(p.scans)
    ensures Enrols(p.scans, date, runDay, day, later, Enrolled(p, date, runDay, day, later).scans)
  {
    var full, key := IndexOf(p.scans, AllDays), EnrolKey(p.scans, date);
    var i := IndexOf(p.scans, key);
    if i == |p.scans| && date.Some? {
      forall k | 0 <= k < |p.scans| && p.scans[k].key == AllDays ensures p.scans[k].scan.range.through < date.value {
        FirstIndex(p.scans, AllDays, k);
      }
    }
    assert EnrolsAt(p.scans, date, runDay, day, later, Enrolled(p, date, runDay, day, later).scans, i);
  }

  lemma {:induction false} FirstIndex(scans: seq<Entry>, key: ScanKey, k: nat)
    requires k < |scans| && scans[k].key == key
    ensures IndexOf(scans, key) <= k
  {
    if scans[0].key != key { FirstIndex(scans[1..], key, k - 1); }
  }

  /** The range is registered, and scans whose turn has come start over. */
  ghost predicate Registers(scans: seq<Entry>, date: Option<int>, e: Enlisting, scans': seq<Entry>) {
    exists mid :: Enrols(scans, date, e.runDay, e.day, e.later, mid) && (scans' == mid || StartsOver(mid, scans', 0))
  }

  lemma EnlistedRegisters(s: State, date: Option<int>, e: Enlisting, s': State)
    requires s.live && DistinctKeys(s.p.scans) && Enlists(s, date, e, s')
    ensures Registers(s.p.scans, date, e, s'.p.scans)
  {
    hide Enrolled, Enrols;
    var q := s.(today := e.later, p := Enrolled(s.p, date, e.runDay, e.day, e.later));
    EnrolledEnrols(s.p, date, e.runDay, e.day, e.later);
    if e.restarted { RestartFromStartsOver(q.p, 0); }
    assert s'.p.scans == q.p.scans || StartsOver(q.p.scans, s'.p.scans, 0);
  }

  lemma EnrolledPlan(log: seq<BacklogReader.Row>, acc: Accounts, run: int, loaded: bool, p: Plan, date: Option<int>,
                     before: int, runDay: int, day: int, later: int)
    requires BacklogReader.IsLog(log) && PlanOk(log, acc, run, loaded, before, p) && before <= runDay <= day <= later
    ensures PlanOk(log, acc, run, loaded, later, Enrolled(p, date, runDay, day, later))
    ensures date.None? ==> SomeSweep(Enrolled(p, date, runDay, day, later).scans, runDay)
  {
    hide ReadingOk, BufferedOk, DailyOk;
    var p' := Enrolled(p, date, runDay, day, later);
    var key := EnrolKey(p.scans, date);
    var i := IndexOf(p.scans, key);
    PlanStays(log, acc, run, loaded, before, p, acc, loaded, later);
    forall k | 0 <= k < |p.scans| ensures EntryOk(log, acc, run, before, p.seen, p.scans[k]) {}
    if i == |p.scans| {
      AddKeeps(log, acc, run, loaded, later, p, key,
               BacklogReader.Range(runDay, if date.Some? then date.value else Yesterday(day), date), p');
      assert p'.scans[i] == Fresh(key, BacklogReader.Range(runDay, if date.Some? then date.value else Yesterday(day), date));
    } else {
      var scan := p.scans[i].scan;
      FlagKeeps(log, acc, run, loaded, later, p, i, false);
      var flagged := p.(scans := p.scans[i := Flagged(p.scans[i], false)]);
      if scan.range.run != runDay {
        NextKeeps(log, acc, run, loaded, later, flagged, i, Renewed(scan, runDay, later).next.value);
      } else if date.None? && scan.range.through < Yesterday(day) {
        ExtendKeeps(log, acc, run, loaded, later, flagged, i, Yesterday(day));
      }
      assert p'.scans == flagged.scans[i := p'.scans[i]];
      if date.None? { assert WillSweep(p'.scans[i], runDay); }
    }
  }

  lemma EnrolledKeeps(env: Env, log: seq<BacklogReader.Row>, max: nat, s: State, date: Option<int>, runDay: int, day: int, later: int, pending: set<string>)
    requires BacklogReader.IsLog(log) && InOrder(env, log, max, s, pending) && s.live && s.today <= runDay <= day <= later
    ensures InOrder(env, log, max, s.(today := later, p := Enrolled(s.p, date, runDay, day, later)), pending)
    ensures date.None? ==> SomeSweep(Enrolled(s.p, date, runDay, day, later).scans, runDay)
  {
    EnrolledPlan(log, AccountsOf(s.run, s.b), s.run, Busy(s.b), s.p, date, s.today, runDay, day, later);
  }

  lemma ScansDiffer(env: Env, log: seq<BacklogReader.Row>, max: nat, s: State, pending: set<string>)
    requires InOrder(env, log, max, s, pending) && s.live
    ensures DistinctKeys(s.p.scans)
  {
  }

  lemma DayPasses(env: Env, log: seq<BacklogReader.Row>, max: nat, s: State, later: int, pending: set<string>)
    requires InOrder(env, log, max, s, pending) && s.today <= later
    ensures InOrder(env, log, max, s.(today := later), pending)
  {
    if s.live { PlanStays(log, AccountsOf(s.run, s.b), s.run, Busy(s.b), s.today, s.p, AccountsOf(s.run, s.b), Busy(s.b), later); }
  }

  lemma OwesDay(env: Env, log: seq<BacklogReader.Row>, max: nat, s: State, day: int, pending: set<string>)
    requires InOrder(env, log, max, s, pending) && s.live && SomeSweep(s.p.scans, day) && day <= s.today
    ensures InOrder(env, log, max, s.(p := s.p.(daily := Some(day))), pending)
  {
    OwedKeeps(log, AccountsOf(s.run, s.b), s.run, Busy(s.b), s.today, s.p, day);
  }

  lemma PaysDay(env: Env, log: seq<BacklogReader.Row>, max: nat, s: State, pending: set<string>)
    requires InOrder(env, log, max, s, pending)
    ensures InOrder(env, log, max, s.(saving := None, p := s.p.(daily := None)), pending)
    ensures InOrder(env, log, max, s.(saving := None), pending)
  {
    if s.live { PaidKeeps(log, AccountsOf(s.run, s.b), s.run, Busy(s.b), s.today, s.p); }
  }

  // ----- a drain -----

  const MAX_DISPATCHES_PER_TURN: nat := 100

  /** Why filling the nodes ended. */
  datatype DrainEnd = Conserved | Capped | Halted | Stopped

  /**
   * A drain: the moves made and the states they led to, the state before the next page was asked for, and
   * what asking did (`waiting`: a turn for it was already asked for). `clock` and `sends`: the time, and the
   * sends made, when it began.
   */
  datatype Drainage = Drainage(end: DrainEnd, moves: seq<(Move, State)>, mid: State, clock: int, sends: nat,
                               waiting: bool, restarted: bool, saved: bool)

  ghost function NoDrainage(s: State): Drainage { Drainage(Stopped, [], s, 0, 0, false, false, false) }

  ghost function Sends(moves: seq<(Move, State)>): nat {
    if moves == [] then 0 else Sends(moves[..|moves| - 1]) + if moves[|moves| - 1].0.Deliver? then 1 else 0
  }

  /** The state move `k` was made in. */
  ghost function StateAt(from: State, moves: seq<(Move, State)>, k: int): State
    requires k <= |moves|
  {
    if k <= 0 then from else moves[k - 1].1
  }

  ghost predicate AllBefore(moves: seq<(Move, State)>) { forall k :: 0 <= k < |moves| - 1 ==> moves[k].0.Deliver? }

  /** Every move but the last is a dispatch, and the last one tells why there are no more. */
  ghost predicate Ends(end: DrainEnd, moves: seq<(Move, State)>, to: State) {
    && AllBefore(moves)
    && match end
       case Capped => |moves| == MAX_DISPATCHES_PER_TURN && moves[|moves| - 1].0.Deliver? && to.b.queue != []
       case Halted => moves != [] && moves[|moves| - 1].0.Return?
       case Conserved => moves != [] ==> !moves[|moves| - 1].0.Return?
       case Stopped => moves == []
  }

  /** Every move was earned between the two times given, move `k` by the `k`-th send since. */
  ghost predicate AllTried(delivers: nat -> bool, timeout: int, from: State, moves: seq<(Move, State)>, clock: int, clock': int, sends: nat, sends': nat) {
    forall k :: 0 <= k < |moves| && !moves[k].0.Stay? ==>
      && InTime(moves[k].0.t, clock, clock') && moves[k].0.t.nth == sends + k
      && Tried(delivers, sends', timeout, StateAt(from, moves, k), moves[k].0)
  }

  lemma StillTried(delivers: nat -> bool, timeout: int, from: State, moves: seq<(Move, State)>, clock: int, now: int, later: int,
                   sends: nat, sofar: nat, more: nat)
    requires AllTried(delivers, timeout, from, moves, clock, now, sends, sofar) && now <= later && sofar <= more
    ensures AllTried(delivers, timeout, from, moves, clock, later, sends, more)
  {
    forall k | 0 <= k < |moves| && !moves[k].0.Stay? ensures Tried(delivers, more, timeout, StateAt(from, moves, k), moves[k].0) {
      assert Tried(delivers, sofar, timeout, StateAt(from, moves, k), moves[k].0);
    }
  }

  lemma TriedOneMore(delivers: nat -> bool, timeout: int, from: State, moves: seq<(Move, State)>, clock: int, now: int, later: int,
                     sends: nat, sofar: nat, more: nat, s: State, move: Move, to: State)
    requires AllTried(delivers, timeout, from, moves, clock, now, sends, sofar) && now <= later && sofar <= more
    requires s == StateAt(from, moves, |moves|) && clock <= now && Tried(delivers, more, timeout, s, move)
    requires !move.Stay? ==> InTime(move.t, now, later) && move.t.nth == sends + |moves|
    ensures AllTried(delivers, timeout, from, moves + [(move, to)], clock, later, sends, more)
  {
    hide Tried;
    StillTried(delivers, timeout, from, moves, clock, now, later, sends, sofar, more);
    var moves' := moves + [(move, to)];
    forall k | 0 <= k < |moves'| && !moves'[k].0.Stay?
      ensures Tried(delivers, more, timeout, StateAt(from, moves', k), moves'[k].0)
    {
      assert StateAt(from, moves', k) == StateAt(from, moves, k);
      assert k < |moves| ==> moves'[k] == moves[k];
    }
  }

  /** No fault: the clock stood still, and every send made since arrived. */
  ghost predicate Faultless(delivers: nat -> bool, clock: int, clock': int, sends: nat, sends': nat) {
    clock == clock' && forall n: nat :: sends <= n < sends' ==> delivers(n)
  }

  /** The last task was turned away by a node that holds its id. */
  ghost predicate Blocked(from: State, moves: seq<(Move, State)>) {
    moves != [] && HeldAlready(StateAt(from, moves, |moves| - 1), moves[|moves| - 1].0)
  }

  /** Without a fault a drain that halts was turned away by a node that held the task's id. */
  lemma FaultlessDrain(delivers: nat -> bool, timeout: int, from: State, end: DrainEnd, moves: seq<(Move, State)>, to: State,
                       clock: int, clock': int, sends: nat, sends': nat)
    requires Ends(end, moves, to) && AllTried(delivers, timeout, from, moves, clock, clock', sends, sends')
    requires Faultless(delivers, clock, clock', sends, sends')
    ensures end.Halted? ==> Blocked(from, moves)
  {
    if end.Halted? {
      var n := |moves| - 1;
      OnlyItsHolderTurnsAway(delivers, sends', timeout, StateAt(from, moves, n), moves[n].0, clock);
    }
  }

  /** So far every move was a dispatch, and the last one led here. */
  ghost predicate AllSent(from: State, moves: seq<(Move, State)>, count: nat, to: State) {
    && |moves| == count == Sends(moves) && (forall k :: 0 <= k < |moves| ==> moves[k].0.Deliver?)
    && to == if moves == [] then from else moves[|moves| - 1].1
  }

  lemma NothingSent(delivers: nat -> bool, timeout: int, from: State, clock: int, sends: nat)
    ensures Path(from, [], from) && AllSent(from, [], 0, from) && AllTried(delivers, timeout, from, [], clock, clock, sends, sends)
  {
  }

  lemma OneMoveMore(from: State, moves: seq<(Move, State)>, count: nat, s: State, move: Move, to: State)
    requires AllSent(from, moves, count, s)
    ensures var moves' := moves + [(move, to)];
            && AllBefore(moves') && moves'[|moves'| - 1] == (move, to) && s == StateAt(from, moves, |moves|)
            && Sends(moves') == count + (if move.Deliver? then 1 else 0)
            && (move.Deliver? ==> AllSent(from, moves', count + 1, to))
  {
    var moves' := moves + [(move, to)];
    assert moves'[..|moves|] == moves;
  }

  /** A hundred tasks were sent, or every one there was. */
  lemma AllSentEnds(from: State, moves: seq<(Move, State)>, count: nat, to: State)
    requires AllSent(from, moves, count, to)
    ensures Sends(moves) == count && Ends(Conserved, moves, to)
    ensures count == MAX_DISPATCHES_PER_TURN && to.b.queue != [] ==> Ends(Capped, moves, to)
  {
  }

  // ----- work conservation -----

  ghost predicate ReadBack(nodes: map<string, LiveNode>, restore: string -> Option<Slice>) {
    forall n :: n in nodes ==> Restored(nodes[n], restore)
  }

  /** The queue's ids are read back as the slices they were built for. */
  ghost predicate AllReadBack(queue: seq<Task>, restore: string -> Option<Slice>) {
    forall i :: 0 <= i < |queue| ==> restore(queue[i].id) == Some(queue[i].slice)
  }

  lemma DeliverReadsBack(s: State, move: Move, s': State, restore: string -> Option<Slice>)
    requires move.Deliver? && Moved(s, move, s') && ReadBack(s.nodes, restore) && AllReadBack(s.b.queue, restore)
    ensures ReadBack(s'.nodes, restore) && AllReadBack(s'.b.queue, restore)
  {
    IsRemovedAt(s.b.queue, move.i);
  }

  lemma {:induction false} PathReadsBack(from: State, moves: seq<(Move, State)>, to: State, restore: string -> Option<Slice>)
    requires Path(from, moves, to) && (forall k :: 0 <= k < |moves| ==> moves[k].0.Deliver?)
    requires ReadBack(from.nodes, restore) && AllReadBack(from.b.queue, restore)
    ensures ReadBack(to.nodes, restore) && AllReadBack(to.b.queue, restore)
  {
    if moves != [] {
      var n := |moves| - 1;
      var mid :| Path(from, moves[..n], mid) && Moved(mid, moves[n].0, to);
      PathReadsBack(from, moves[..n], mid, restore);
      DeliverReadsBack(mid, moves[n].0, to, restore);
    }
  }

  /** An id the scheduler does not wait for is held only as what it is read back as. */
  lemma HeldAsRead(env: Env, log: seq<BacklogReader.Row>, max: nat, s: State, pending: set<string>, n: string, id: string,
                   restore: string -> Option<Slice>)
    requires InOrder(env, log, max, s, pending) && ReadBack(s.nodes, restore)
    requires n in s.nodes && id in s.nodes[n].active && id !in s.b.dispatched
    ensures s.nodes[n].active[id].slice == restore(id)
    ensures forall q :: restore(id) == Some(q) ==> HasActiveSlice(s.nodes, q)
  {
    assert s.nodes[n].active[id].notify ==> WillReport(s.nodes, n, id) && Awaited(s.nodes, s.b.dispatched, s.holder, id);
    forall q | restore(id) == Some(q) ensures HasActiveSlice(s.nodes, q) { assert Holds(s.nodes[n], q); }
  }

  /** So a node that holds the id of a task that may be found holds it as something else. */
  lemma HolderMisreads(env: Env, log: seq<BacklogReader.Row>, max: nat, s: State, pending: set<string>, move: Move,
                       delivers: nat -> bool, sends: nat, timeout: int, restore: string -> Option<Slice>)
    requires Sound(env) && InOrder(env, log, max, s, pending) && ReadBack(s.nodes, restore)
    requires Tried(delivers, sends, timeout, s, move) && HeldAlready(s, move)
    ensures move.i < |s.b.queue| && restore(s.b.queue[move.i].id) != Some(s.b.queue[move.i].slice)
  {
    hide BooksOk, PlanOk, Linked, Witnessed, AccountsOf, Sound;
    QueueIsApart(env, s.run, s.b);
    HeldAsRead(env, log, max, s, pending, move.shunned.value, move.task.id, restore);
  }

  lemma BeforeLast(from: State, moves: seq<(Move, State)>, to: State)
    requires Path(from, moves, to) && moves != []
    ensures var n := |moves| - 1; Path(from, moves[..n], StateAt(from, moves, n))
  {
    var n := |moves| - 1;
    var mid :| Path(from, moves[..n], mid) && Moved(mid, moves[n].0, to);
    assert n > 0 ==> moves[..n][n - 1] == moves[n - 1];
  }

  /**
   * A drain is work-conserving: when the clock stood still, every send arrived and the ids of the queue are
   * read back rightly, it ends after a hundred sends or with nothing dispatchable, never turned away.
   */
  lemma DrainConserves(env: Env, log: seq<BacklogReader.Row>, max: nat, from: State, end: DrainEnd, moves: seq<(Move, State)>, to: State,
                       pending: set<string>, delivers: nat -> bool, timeout: int, restore: string -> Option<Slice>,
                       clock: int, clock': int, sends: nat, sends': nat)
    requires Sound(env) && InOrder(env, log, max, from, pending) && Path(from, moves, to) && Ends(end, moves, to)
    requires AllTried(delivers, timeout, from, moves, clock, clock', sends, sends') && Faultless(delivers, clock, clock', sends, sends')
    requires ReadBack(from.nodes, restore) && AllReadBack(from.b.queue, restore)
    ensures end.Capped? || end.Conserved? || end.Stopped?
  {
    hide InOrder, Path, Moved, Tried, ReadBack, Sound;
    if end.Halted? {
      var n := |moves| - 1;
      var s := StateAt(from, moves, n);
      BeforeLast(from, moves, to);
      FaultlessDrain(delivers, timeout, from, end, moves, to, clock, clock', sends, sends');
      PathKeeps(env, log, max, from, moves[..n], s, pending);
      PathReadsBack(from, moves[..n], s, restore);
      HolderMisreads(env, log, max, s, pending, moves[n].0, delivers, sends', timeout, restore);
      assert false;
    }
  }

  /** Two rows were queued in a fresh scheduler; a node with room for two reported that it holds the first one's id. */
  ghost function BlockedState(restore: string -> Option<Slice>, a: Task, b: Task): State {
    var node := LiveNode("", Info(true, 2, [a.id], ""), 0, Some(0), map[a.id := ActiveTask(restore(a.id), false)], []);
    var s := Initial(0);
    s.(b := Offer(Offer(s.b, a, 0, false, true), b, 0, false, true), nodes := map["n" := node])
  }

  ghost predicate FirstTask(env: Env, t: Task) { TaskOk(env, 0, t) && env.decode.attempt(t.id) == 0 && !t.rust }

  /**
   * The exception is real: whatever id is read back wrongly, a node can hold it from a report, all in order,
   * and then a drain without any fault is turned away although another task could be sent.
   */
  lemma MisreadIdBlocks(env: Env, log: seq<BacklogReader.Row>, max: nat, delivers: nat -> bool, a: Task, b: Task)
    returns (s: State, move: Move, s': State)
    requires Sound(env) && max >= 2 && FirstTask(env, a) && FirstTask(env, b) && a.slice != b.slice
    requires env.ids.restore(a.id) != Some(a.slice) && env.ids.restore(a.id) != Some(b.slice)
    ensures InOrder(env, log, max, s, {}) && ReadBack(s.nodes, env.ids.restore) && s.b.queue == [a, b]
    ensures Path(s, [(move, s')], s') && Ends(Halted, [(move, s')], s') && Blocked(s, [(move, s')])
    ensures AllTried(delivers, 0, s, [(move, s')], 0, 0, 0, 0) && Faultless(delivers, 0, 0, 0, 0)
    ensures Dispatchable(s'.nodes, b, 0, 0) && b in s'.b.queue
  {
    hide Tried, BlockedState, Dispatchable, InOrder, Sound, ReadBack, Spares, TaskOk, HeldAlready;
    s := BlockedState(env.ids.restore, a, b);
    move := Return(0, a, Some("n"), Try(0, 0, 0, 0, 0));
    BlockedBooks(env, log, max, a, b);
    BlockedTry(env.ids.restore, delivers, a, b);
    ForgetsOnly(s.nodes, "n", a.id);
    s' := s.(b := PutBack(s.b, 0, a));
    assert RemoveAt([a, b], 0) == [b] && s'.b.queue == [b, a];
    assert Moved(s, move, s');
    OneMovePath(s, move, s');
  }

  /** The ids in use are read back wrongly for the session `r5`, so it can block the queue. */
  lemma LostSessionBlocks(text: int -> string, day: int, log: seq<BacklogReader.Row>, max: nat, delivers: nat -> bool)
    returns (env: Env, s: State, move: Move, s': State)
    requires IsCalendar(text) && TaskIds.IsDate(text(day)) && max >= 2
    ensures Sound(env) && env.ids == CleaningIds(text) && InOrder(env, log, max, s, {}) && ReadBack(s.nodes, env.ids.restore)
    ensures |s.b.queue| == 2 && s.b.queue[0].slice == BacklogReader.Slice(day, "r5") && s.b.queue[1].slice == BacklogReader.Slice(day, "s")
    ensures Path(s, [(move, s')], s') && Ends(Halted, [(move, s')], s') && Blocked(s, [(move, s')])
    ensures AllTried(delivers, 0, s, [(move, s')], 0, 0, 0, 0) && Faultless(delivers, 0, 0, 0, 0)
    ensures Dispatchable(s'.nodes, s.b.queue[1], 0, 0)
  {
    hide InOrder, Path, Ends, Blocked, AllTried, Faultless, Dispatchable, ReadBack, Sound, IsCalendar, FirstTask;
    var a, b;
    env, a, b := LostSessionTasks(text, day);
    s, move, s' := MisreadIdBlocks(env, log, max, delivers, a, b);
  }

  lemma LostSessionTasks(text: int -> string, day: int) returns (env: Env, a: Task, b: Task)
    requires IsCalendar(text) && TaskIds.IsDate(text(day))
    ensures Sound(env) && env.ids == CleaningIds(text) && FirstTask(env, a) && FirstTask(env, b)
    ensures a.slice == BacklogReader.Slice(day, "r5") && b.slice == BacklogReader.Slice(day, "s") && env.ids.restore(a.id) == None
  {
    hide TaskIds.TwinFree, IsCalendar, CleaningIds;
    var x, y, ids := BacklogReader.Slice(day, "r5"), BacklogReader.Slice(day, "s"), CleaningIds(text);
    env := Env(ids, DecoderOf(ids, {x, y}), {x, y}, (look: Look) => false);
    NoTwinsHere(text, day);
    CleaningIdsTell(text, {x, y});
    a, b := Task(Id(ids, 0, x, 0), x, false), Task(Id(ids, 0, y, 0), y, false);
    IdReadsBack(env, 0, x, 0);
    IdReadsBack(env, 0, y, 0);
    LostSession(text, x);
  }

  lemma LostSession(text: int -> string, x: Slice)
    requires IsCalendar(text) && TaskIds.IsDate(text(x.day)) && x.session == "r5"
    ensures CleaningIds(text).restore(Id(CleaningIds(text), 0, x, 0)) == None
  {
    CleaningIdIs(text, 0, x, 0);
    TaskIds.LostSessionExample(text(0), text(x.day));
  }

  lemma NoTwinsHere(text: int -> string, day: int)
    ensures TaskIds.TwinFree(DatedLog(text, {BacklogReader.Slice(day, "r5"), BacklogReader.Slice(day, "s")}))
  {
    var log := DatedLog(text, {BacklogReader.Slice(day, "r5"), BacklogReader.Slice(day, "s")});
    forall a, b, n | a in log && b in log && 1 <= n <= TaskIds.MAX_ATTEMPTS ensures !TaskIds.Twins(a, n, b) {
      assert |a.session + TaskIds.Suffix(n)| > 2;
    }
  }

  lemma OneMovePath(s: State, move: Move, s': State)
    requires Moved(s, move, s')
    ensures Path(s, [(move, s')], s')
  {
    assert [(move, s')][..0] == [];
    assert Path(s, [], s);
  }

  lemma BlockedBooks(env: Env, log: seq<BacklogReader.Row>, max: nat, a: Task, b: Task)
    requires Sound(env) && max >= 2 && FirstTask(env, a) && FirstTask(env, b) && a.slice != b.slice
    ensures InOrder(env, log, max, BlockedState(env.ids.restore, a, b), {})
    ensures BlockedState(env.ids.restore, a, b).b.queue == [a, b]
  {
    hide BooksOk, Sound, LoadsNoLess, Accounted, AccountsOf, InBooks;
    var s := BlockedState(env.ids.restore, a, b);
    StartsInOrder(env, log, max, 0);
    BothQueued(a, b);
    OfferKeeps(env, 0, Initial(0).b, a, false, true);
    OfferKeeps(env, 0, Offer(Initial(0).b, a, 0, false, true), b, false, true);
    assert NotifiedAt(s.nodes, "n") == map[];
  }

  lemma BothQueued(a: Task, b: Task)
    requires a.slice != b.slice
    ensures var books := Offer(Offer(Initial(0).b, a, 0, false, true), b, 0, false, true);
            && books.queue == [a, b] && books.inflight == {} && books.dispatched == map[]
  {
  }

  lemma BlockedTry(restore: string -> Option<Slice>, delivers: nat -> bool, a: Task, b: Task)
    requires restore(a.id) != Some(a.slice) && restore(a.id) != Some(b.slice) && !a.rust && !b.rust
    requires BlockedState(restore, a, b).b.queue == [a, b]
    ensures var s := BlockedState(restore, a, b);
            var move := Return(0, a, Some("n"), Try(0, 0, 0, 0, 0));
            Tried(delivers, 0, 0, s, move) && HeldAlready(s, move) && ReadBack(s.nodes, restore) && Dispatchable(s.nodes, b, 0, 0)
  {
    hide Offer;
    var s := BlockedState(restore, a, b);
    assert SomeIdle(s.nodes, 0, 0) && NodeFor(s.nodes, b, 0, 0) by { assert Idle(s.nodes["n"], false, 0, 0); }
    assert !HasActiveSlice(s.nodes, a.slice) && !HasActiveSlice(s.nodes, b.slice);
  }

  ghost predicate Drained(s: State, d: Drainage, s': State) {
    Path(s, d.moves, d.mid) && AsksFor(d.mid, d.waiting, d.restarted, d.saved) && s' == Asked(d.mid, d.restarted, d.saved)
  }

  lemma DrainKeeps(env: Env, log: seq<BacklogReader.Row>, max: nat, s: State, d: Drainage, s': State, pending: set<string>)
    requires Sound(env) && InOrder(env, log, max, s, pending) && Drained(s, d, s')
    ensures InOrder(env, log, max, s', pending) && s.b.trace <= s'.b.trace && LeavesScans(s.p.scans, s'.p.scans)
    ensures s'.live == s.live && s'.p.reading == s.p.reading
  {
    hide InOrder, Path, AsksFor, Asked, LeavesScans;
    PathKeeps(env, log, max, s, d.moves, d.mid, pending);
    PathPlan(s, d.moves, d.mid);
    AskedKeeps(env, log, max, d.mid, d.waiting, d.restarted, d.saved, pending);
  }

  lemma {:induction false} PathPlan(from: State, moves: seq<(Move, State)>, to: State)
    requires Path(from, moves, to)
    ensures to.p == from.p && to.live == from.live && to.run == from.run && to.today == from.today && to.saving == from.saving
  {
    if moves != [] {
      var n := |moves| - 1;
      var mid :| Path(from, moves[..n], mid) && Moved(mid, moves[n].0, to);
      PathPlan(from, moves[..n], mid);
    }
  }

  // ----- the scan whose turn it is -----

  predicate IsReady(e: Entry, oldest: Option<int>) {
    oldest == Some(e.scan.range.run) && !e.scan.failed && !e.scan.waiting
  }

  /** The oldest run among the ranges registered and the tasks loaded. */
  ghost predicate IsOldest(scans: seq<Entry>, runs: set<int>, oldest: Option<int>) {
    && (oldest.None? ==> scans == [] && runs == {})
    && (oldest.Some? ==> forall i :: 0 <= i < |scans| ==> oldest.value <= scans[i].scan.range.run)
    && (oldest.Some? ==> forall r :: r in runs ==> oldest.value <= r)
    && (oldest.Some? ==> oldest.value in runs || exists i :: 0 <= i < |scans| && scans[i].scan.range.run == oldest.value)
  }

  lemma OldestIsOne(scans: seq<Entry>, runs: set<int>, a: Option<int>, b: Option<int>)
    requires IsOldest(scans, runs, a) && IsOldest(scans, runs, b)
    ensures a == b
  {
    if a.Some? && b.Some? {
      NoOlder(scans, runs, a.value, b.value);
      NoOlder(scans, runs, b.value, a.value);
    }
  }

  lemma NoOlder(scans: seq<Entry>, runs: set<int>, a: int, b: int)
    requires IsOldest(scans, runs, Some(a)) && IsOldest(scans, runs, Some(b))
    ensures a <= b
  {
    if b !in runs {
      var i :| 0 <= i < |scans| && scans[i].scan.range.run == b;
    }
  }

  /** The search for a ready scan finds one exactly when there is one. */
  lemma ReadyOrNot(scans: seq<Entry>, runs: set<int>, found: Option<nat>, oldest: Option<int>)
    requires IsOldest(scans, runs, oldest)
    requires found.Some? ==> found.value < |scans| && IsReady(scans[found.value], oldest)
    requires found.None? ==> forall i :: 0 <= i < |scans| ==> !IsReady(scans[i], oldest)
    ensures found.Some? <==> SomeReady(scans, runs)
  {
    if SomeReady(scans, runs) {
      var i, o :| 0 <= i < |scans| && IsOldest(scans, runs, o) && IsReady(scans[i], o);
      OldestIsOne(scans, runs, oldest, o);
    }
  }

  lemma OldestAmongMore(scans: seq<Entry>, runs: set<int>, oldest: Option<int>, r: int)
    requires IsOldest(scans, runs, oldest)
    ensures IsOldest(scans, runs + {r}, if oldest.None? || r < oldest.value then Some(r) else oldest)
  {
  }

  lemma LoadedKeys(run: int, b: Books)
    requires b.loadedRuns == Loaded(run, |b.queue| + |b.dispatched|)
    ensures b.loadedRuns.Keys == if Busy(b) then {run} else {}
  {
  }

  lemma OldestIs(run: int, loaded: bool, scans: seq<Entry>, oldest: int)
    requires IsOldest(scans, if loaded then {run} else {}, Some(oldest))
    ensures OldestRun(run, loaded, scans, oldest)
  {
  }

  lemma ReadyLeads(log: seq<BacklogReader.Row>, acc: Accounts, run: int, loaded: bool, today: int, p: Plan, oldest: Option<int>, i: nat)
    requires PlanOk(log, acc, run, loaded, today, p) && IsOldest(p.scans, if loaded then {run} else {}, oldest)
    requires i < |p.scans| && IsReady(p.scans[i], oldest)
    ensures Leads(run, loaded, p.scans, i)
  {
    OldestIs(run, loaded, p.scans, oldest.value);
    OldestLeads(log, acc, run, loaded, today, p, oldest.value, i);
  }

  // ----- using a page -----

  ghost function LeaderRun(p: Plan): int {
    if p.buffered.Some? && Leader(p) < |p.scans| then p.scans[Leader(p)].scan.range.run else 0
  }

  ghost predicate HasRow(p: Plan) { p.buffered.Some? && p.buffered.value.index < |p.buffered.value.page.rows| }

  function RowTask(ids: IdScheme, run: int, row: BacklogReader.BacklogRow): Task {
    Task(ids.first(run, row.slice), row.slice, row.rust)
  }

  ghost function OfferRow(ids: IdScheme, s: State): State
    requires HasRow(s.p)
  {
    var buffer := s.p.buffered.value;
    var t := RowTask(ids, LeaderRun(s.p), buffer.page.rows[buffer.index]);
    s.(b := Offer(s.b, t, ids.runOf(t.id), HasActiveSlice(s.nodes, t.slice), true),
       p := s.p.(buffered := Some(buffer.(index := buffer.index + 1))))
  }

  /** Rows are offered while there are any and there is room. */
  ghost function OfferRows(ids: IdScheme, max: nat, s: State): State
    decreases if HasRow(s.p) then |s.p.buffered.value.page.rows| - s.p.buffered.value.index else 0
  {
    if !HasRow(s.p) || |s.b.queue| + |s.b.inflight| >= max then s else OfferRows(ids, max, OfferRow(ids, s))
  }

  /** The slices of the rows the buffered page was made of. */
  ghost function ReadSlices(log: seq<BacklogReader.Row>, p: Plan): set<Slice>
    requires p.buffered.Some? && Leader(p) < |p.scans|
  {
    var scan := p.scans[Leader(p)].scan;
    BacklogReader.SlicesOf(BacklogReader.Query(log, scan.range.(through := p.buffered.value.through), scan.cursor, p.limit))
  }

  ghost function UsedUp(log: seq<BacklogReader.Row>, s: State): State
    requires s.p.buffered.Some? && s.p.look.Some? && Leader(s.p) < |s.p.scans| && s.p.scans[Leader(s.p)].key in s.p.seen
  {
    var buffer, read := s.p.buffered.value, ReadSlices(log, s.p);
    s.(b := Record(s.b, Skipped(s.run, read - BacklogReader.Offered(buffer.page.rows), s.p.look.value)),
       p := Finished(s.p, Leader(s.p), buffer, read))
  }

  lemma LeaderIs(env: Env, log: seq<BacklogReader.Row>, max: nat, s: State, pending: set<string>)
    requires InOrder(env, log, max, s, pending) && s.live && s.p.buffered.Some?
    ensures Leader(s.p) < |s.p.scans| && s.p.scans[Leader(s.p)].key in s.p.seen && s.p.look.Some?
    ensures Busy(s.b) ==> LeaderRun(s.p) == s.run
  {
    assert EntryOk(log, AccountsOf(s.run, s.b), s.run, s.today, s.p.seen, s.p.scans[Leader(s.p)]);
  }

  lemma AdoptsRun(env: Env, log: seq<BacklogReader.Row>, max: nat, s: State, pending: set<string>)
    requires InOrder(env, log, max, s, pending) && s.live && s.p.buffered.Some?
    ensures InOrder(env, log, max, s.(run := LeaderRun(s.p)), pending)
  {
    LeaderIs(env, log, max, s, pending);
    if !Busy(s.b) {
      var run' := LeaderRun(s.p);
      AdoptKeeps(log, AccountsOf(s.run, s.b), s.run, s.today, s.p, run');
      RunMoves(env, s.run, s.b, run');
      assert s.b.inflight == {};
      assert AccountsOf(run', s.b) == s.b.past.resolved == AccountsOf(s.run, s.b);
    }
  }

  lemma RowIsLogged(env: Env, log: seq<BacklogReader.Row>, max: nat, s: State, pending: set<string>, k: nat)
    requires env.log == BacklogReader.SlicesOf(log)
    requires InOrder(env, log, max, s, pending) && s.live && s.p.buffered.Some? && k < |s.p.buffered.value.page.rows|
    ensures s.p.buffered.value.page.rows[k].slice in env.log
  {
    var buffer := s.p.buffered.value;
    var scan := s.p.scans[Leader(s.p)].scan;
    var range := scan.range.(through := buffer.through);
    var source := BacklogReader.Query(log, range, scan.cursor, s.p.limit);
    LeftOutIsDone(log, range, scan.cursor, s.p.limit, s.p.look, buffer.page);
    assert buffer.page.rows[k].slice in BacklogReader.Offered(buffer.page.rows);
    var r :| r in source && BacklogReader.SliceOf(r) == buffer.page.rows[k].slice;
    BacklogReader.MatchingHas(log, range, scan.cursor, r);
  }

  lemma OfferedBooks(env: Env, run: int, b: Books, row: BacklogReader.BacklogRow, held: bool, b': Books)
    requires Sound(env) && BooksOk(env, run, b) && row.slice in env.log
    requires var t := RowTask(env.ids, run, row); b' == Offer(b, t, env.ids.runOf(t.id), held, true)
    ensures BooksOk(env, run, b') && StaysAccounted(run, b, b') && (run, row.slice) in AccountsOf(run, b')
    ensures b.past.resolved <= b'.past.resolved
    ensures |b'.queue| + |b'.inflight| <= |b.queue| + |b.inflight| + 1 && b'.dispatched == b.dispatched
  {
    var t := RowTask(env.ids, run, row);
    IdReadsBack(env, run, row.slice, 0);
    OfferKeeps(env, run, b, t, held, true);
    AccountsFor(run, b, b');
    AccountsIs(run, b', run, row.slice);
  }

  lemma OfferRowKeeps(env: Env, log: seq<BacklogReader.Row>, max: nat, s: State, pending: set<string>)
    requires Sound(env) && env.log == BacklogReader.SlicesOf(log) && InOrder(env, log, max, s, pending) && s.live
    requires HasRow(s.p) && |s.b.queue| + |s.b.inflight| < max && s.run == LeaderRun(s.p)
    ensures InOrder(env, log, max, OfferRow(env.ids, s), pending) && OfferRow(env.ids, s).run == LeaderRun(OfferRow(env.ids, s).p)
  {
    hide BooksOk, PlanOk, Linked, Witnessed, AccountsOf;
    var s' := OfferRow(env.ids, s);
    var buffer := s.p.buffered.value;
    LeaderIs(env, log, max, s, pending);
    RowIsLogged(env, log, max, s, pending, buffer.index);
    OfferedBooks(env, s.run, s.b, buffer.page.rows[buffer.index], HasActiveSlice(s.nodes, buffer.page.rows[buffer.index].slice), s'.b);
    AccountsGrow(s.run, s.b, s'.b);
    StaysWitnessed(env, log, s, s');
    TakeRowKeeps(log, AccountsOf(s.run, s.b), s.run, Busy(s.b), s.today, s.p, AccountsOf(s.run, s'.b), s.run, Busy(s'.b), s'.p);
  }

  lemma {:induction false} OfferRowsKeep(env: Env, log: seq<BacklogReader.Row>, max: nat, s: State, pending: set<string>)
    requires Sound(env) && env.log == BacklogReader.SlicesOf(log) && InOrder(env, log, max, s, pending) && s.live
    requires s.p.buffered.Some? && s.run == LeaderRun(s.p)
    ensures var s' := OfferRows(env.ids, max, s);
            InOrder(env, log, max, s', pending) && s'.live && s'.p.buffered.Some? && s'.run == LeaderRun(s'.p)
    decreases if HasRow(s.p) then |s.p.buffered.value.page.rows| - s.p.buffered.value.index else 0
  {
    hide InOrder, LeaderRun;
    if HasRow(s.p) && |s.b.queue| + |s.b.inflight| < max {
      OfferRowKeeps(env, log, max, s, pending);
      OfferRowsKeep(env, log, max, OfferRow(env.ids, s), pending);
    }
  }

  lemma SkippedBooks(env: Env, run: int, b: Books, skipped: set<Slice>, look: Look, b': Books)
    requires BooksOk(env, run, b) && b' == Record(b, Skipped(run, skipped, look))
    requires skipped <= look.stored - look.marked && env.genuine(look)
    ensures b.past.resolved <= b'.past.resolved
    ensures BooksOk(env, run, b') && AccountsOf(run, b) <= AccountsOf(run, b')
    ensures forall q :: q in skipped ==> (run, q) in AccountsOf(run, b')
  {
    NoteKeeps(env, run, b, Skipped(run, skipped, look), b');
    AccountsFor(run, b, b');
    AccountsGrow(run, b, b');
  }

  lemma AllReadAccounted(acc: Accounts, acc': Accounts, run: int, rows: seq<BacklogReader.BacklogRow>, read: set<Slice>)
    requires acc <= acc' && forall k :: 0 <= k < |rows| ==> (run, rows[k].slice) in acc
    requires forall q :: q in read - BacklogReader.Offered(rows) ==> (run, q) in acc'
    ensures forall q :: q in read ==> (run, q) in acc'
  {
    forall q | q in read ensures (run, q) in acc' {
      if q in BacklogReader.Offered(rows) {
        var r :| r in rows && r.slice == q;
        var k :| 0 <= k < |rows| && rows[k] == r;
      }
    }
  }

  /** A page used up: what it showed was offered, and what it hid is noted as complete. */
  lemma UsedUpKeeps(env: Env, log: seq<BacklogReader.Row>, max: nat, s: State, pending: set<string>)
    requires BacklogReader.IsLog(log) && InOrder(env, log, max, s, pending) && s.live
    requires s.p.buffered.Some? && !HasRow(s.p) && s.run == LeaderRun(s.p)
    ensures Leader(s.p) < |s.p.scans| && s.p.scans[Leader(s.p)].key in s.p.seen && s.p.look.Some?
    ensures InOrder(env, log, max, UsedUp(log, s), pending)
  {
    LeaderIs(env, log, max, s, pending);
    var s' := UsedUp(log, s);
    var buffer, read := s.p.buffered.value, ReadSlices(log, s.p);
    var acc, acc' := AccountsOf(s.run, s.b), AccountsOf(s.run, s'.b);
    var scan := s.p.scans[Leader(s.p)].scan;
    LeftOutIsDone(log, scan.range.(through := buffer.through), scan.cursor, s.p.limit, s.p.look, buffer.page);
    SkippedBooks(env, s.run, s.b, read - BacklogReader.Offered(buffer.page.rows), s.p.look.value, s'.b);
    StaysWitnessed(env, log, s, s');
    AllReadAccounted(acc, acc', s.run, buffer.page.rows, read);
    PlanStays(log, acc, s.run, Busy(s.b), s.today, s.p, acc', Busy(s.b), s.today);
    FinishKeeps(log, acc', s.run, Busy(s.b), s.today, s.p, read, s'.p);
  }

  /** Position `k` steps after `start` in a queue of `n`, once around. */
  function Wrap(start: nat, k: nat, n: nat): (i: nat)
    requires start < n && k <= n
    ensures i < n
  {
    if start + k < n then start + k else start + k - n
  }

  lemma StillIneligible(nodes: map<string, LiveNode>, queue: seq<Task>, start: nat, checked: nat, n: nat, now: int, later: int, timeout: int)
    requires start < n == |queue| && checked <= n && now <= later
    requires forall k :: 0 <= k < checked ==> !Eligible(nodes, queue[Wrap(start, k, n)], now, timeout)
    ensures forall k :: 0 <= k < checked ==> !Eligible(nodes, queue[Wrap(start, k, n)], later, timeout)
  {
    forall k | 0 <= k < checked ensures !Eligible(nodes, queue[Wrap(start, k, n)], later, timeout) {
      var t := queue[Wrap(start, k, n)];
      if Eligible(nodes, t, later, timeout) && t.rust { NodesOnlyFade(nodes, t, now, later, timeout); }
    }
  }
}
