/** The master: frames and timers arrive one turn at a time, and the registry tells the scheduler what ended. */
module ControlPlane {
  import opened Options
  import opened Tasks
  import opened Ledger
  import opened NodeRegistry
  import opened ScanPlan
  import opened Scheduler
  import opened SchedulerState
  import opened TurnLaws
  import BacklogReader
  import RunLaws
  import TaskIds

  /** The nodes changed and released `gone`: those tasks are pending until the scheduler hears of them. */
  lemma NodesRelease(env: Env, log: seq<BacklogReader.Row>, max: nat, s: State, n: string, gone: set<string>, nodes: map<string, LiveNode>)
    requires InOrder(env, log, max, s, {}) && Drops(s.nodes, n, gone, nodes)
    ensures InOrder(env, log, max, s.(nodes := nodes, holder := Less(s.holder, gone)), gone)
    ensures gone <= s.b.dispatched.Keys
  {
    LinkDrops(s.nodes, n, gone, nodes, s.b.dispatched, s.holder, {});
    assert {} + gone == gone;
  }

  /** The scheduler heard that the task failed (or not) after the first `from` steps. */
  ghost predicate HeardSince(trace: seq<Step>, from: nat, id: string, failed: bool) {
    exists k :: from <= k < |trace| && trace[k].Heard? && trace[k].task.id == id && trace[k].failed == failed
  }

  lemma HeardStays(trace: seq<Step>, trace': seq<Step>, from: nat, id: string, failed: bool)
    requires HeardSince(trace, from, id, failed) && trace <= trace'
    ensures HeardSince(trace', from, id, failed)
  {
    var k :| from <= k < |trace| && trace[k].Heard? && trace[k].task.id == id && trace[k].failed == failed;
    assert trace'[k] == trace[k];
  }

  lemma HeardNow(trace: seq<Step>, run: int, task: Task, failed: bool, trace': seq<Step>, from: nat)
    requires trace + [Heard(run, task, failed)] <= trace' && from <= |trace|
    ensures HeardSince(trace', from, task.id, failed)
  {
    assert trace'[|trace|] == Heard(run, task, failed);
  }

  lemma PendingIsSent(env: Env, log: seq<BacklogReader.Row>, max: nat, s: State, pending: set<string>, id: string)
    requires InOrder(env, log, max, s, pending) && id in pending
    ensures id in s.b.dispatched && s.b.dispatched[id].id == id
  {
    assert SentOk(env, s.run, s.b, id);
  }

  ghost predicate AllHeard(trace: seq<Step>, from: nat, ids: set<string>, failed: bool) {
    forall id :: id in ids ==> HeardSince(trace, from, id, failed)
  }

  lemma OthersHeard(trace: seq<Step>, trace': seq<Step>, from: nat, ids: set<string>, failed: bool)
    requires trace <= trace' && AllHeard(trace, from, ids, failed)
    ensures AllHeard(trace', from, ids, failed)
  {
    forall id | id in ids ensures HeardSince(trace', from, id, failed) { HeardStays(trace, trace', from, id, failed); }
  }

  lemma OneMoreHeard(trace: seq<Step>, trace': seq<Step>, from: nat, gone: set<string>, rest: set<string>, id: string, failed: bool)
    requires trace <= trace' && from <= |trace| && AllHeard(trace, from, gone - rest, failed) && HeardSince(trace', |trace|, id, failed)
    ensures AllHeard(trace', from, gone - (rest - {id}), failed)
  {
    OthersHeard(trace, trace', from, gone - rest, failed);
    var k :| |trace| <= k < |trace'| && trace'[k].Heard? && trace'[k].task.id == id && trace'[k].failed == failed;
    assert HeardSince(trace', from, id, failed);
  }

  /** The frame is the last one of a task the scheduler waits for. */
  predicate IsLastFrame(nodes: map<string, LiveNode>, state: Stream, progress: Progress) {
    && Concerns(nodes, state, progress) && (progress.completed || progress.failed)
    && nodes[progress.nodeId].active[progress.taskId].notify
  }

  /** The node was connected and had a free slot. */
  ghost predicate HadRoom(nodes: map<string, LiveNode>, n: string) { n in nodes && nodes[n].session.Some? && FreeSlot(nodes[n]) }

  /** The tasks a register frame ended. */
  function EndedBy(binding: Binding): set<string> { if binding.Bound? then binding.gone else {} }

  class Master {
    const registry: NodeRegistry
    const scheduler: CleaningScheduler

    ghost predicate Valid()
      reads registry, scheduler
    {
      ValidDuring({})
    }

    /** Between the release of some tasks and the scheduler hearing of them. */
    ghost predicate ValidDuring(pending: set<string>)
      reads registry, scheduler
    {
      scheduler.registry == registry && scheduler.LogFits() && scheduler.Valid(pending)
    }

    constructor (registry: NodeRegistry, scheduler: CleaningScheduler)
      requires scheduler.registry == registry && scheduler.LogFits() && scheduler.Valid({})
      ensures this.registry == registry && this.scheduler == scheduler && Valid()
    {
      this.registry, this.scheduler := registry, scheduler;
    }

    /** The registry changed node `n` and dropped `gone`; nobody will report those tasks now. */
    ghost method Release(s: State, n: string, gone: set<string>)
      requires scheduler.registry == registry && registry.Valid() && scheduler.LogFits() && scheduler.SetUp()
      requires scheduler.cursor <= |scheduler.queue|
      requires InOrder(scheduler.env, scheduler.log, scheduler.maxBufferedTasks, s, {})
      requires scheduler.Now() == s.(nodes := registry.nodes) && Drops(s.nodes, n, gone, registry.nodes)
      modifies scheduler`holder
      ensures ValidDuring(gone)
    {
      hide InOrder, Drops, Sound, registry.Valid;
      NodesRelease(scheduler.env, scheduler.log, scheduler.maxBufferedTasks, s, n, gone, registry.nodes);
      scheduler.holder := Less(scheduler.holder, gone);
      assert scheduler.Now() == s.(nodes := registry.nodes, holder := Less(s.holder, gone));
    }

    lemma StillHeld()
      ensures KeepsHeld(scheduler.Now(), scheduler.Now())
    {
      NothingDone(scheduler.Now(), scheduler.Now());
    }

    /** Delivers the settlements of the released tasks, each exactly once. */
    method SettleAll(gone: set<string>, failed: bool)
      requires ValidDuring(gone)
      modifies scheduler, registry`nodes, registry`clock, registry`sends
      ensures Valid() && old(scheduler.trace) <= scheduler.trace
      ensures AllHeard(scheduler.trace, |old(scheduler.trace)|, gone, failed) && KeepsHeld(old(scheduler.Now()), scheduler.Now())
    {
      hide KeepsHeld;
      var rest := gone;
      StillHeld();
      while rest != {}
        invariant rest <= gone && ValidDuring(rest) && old(scheduler.trace) <= scheduler.trace
        invariant KeepsHeld(old(scheduler.Now()), scheduler.Now())
        invariant AllHeard(scheduler.trace, |old(scheduler.trace)|, gone - rest, failed)
        decreases |rest|
      {
        var id :| id in rest;
        ghost var before, s := scheduler.trace, scheduler.Now();
        SettleOne(id, failed, rest);
        KeepsFurther(old(scheduler.Now()), s, scheduler.Now());
        OneMoreHeard(before, scheduler.trace, |old(scheduler.trace)|, gone, rest, id, failed);
        rest := rest - {id};
      }
    }

    method SettleOne(id: string, failed: bool, ghost rest: set<string>)
      requires ValidDuring(rest) && id in rest
      modifies scheduler, registry`nodes, registry`clock, registry`sends
      ensures ValidDuring(rest - {id}) && old(scheduler.trace) <= scheduler.trace
      ensures HeardSince(scheduler.trace, |old(scheduler.trace)|, id, failed) && KeepsHeld(old(scheduler.Now()), scheduler.Now())
    {
      hide KeepsHeld;
      ghost var before, sent := scheduler.trace, scheduler.dispatched;
      PendingIsSent(scheduler.env, scheduler.log, scheduler.maxBufferedTasks, scheduler.Now(), rest, id);
      ghost var _ := scheduler.OnTaskSettled(id, failed, rest);
      HeardNow(before, scheduler.ids.runOf(id), sent[id], failed, scheduler.trace, |before|);
    }

    /** The released tasks are settled; a node that gained room is filled. */
    method SettleAndFill(gone: set<string>, failed: bool, room: bool) returns (ghost from: State, ghost d: Drainage)
      requires ValidDuring(gone)
      modifies scheduler, registry`nodes, registry`clock, registry`sends
      ensures Valid() && old(scheduler.trace) <= scheduler.trace
      ensures AllHeard(scheduler.trace, |old(scheduler.trace)|, gone, failed) && KeepsHeld(old(scheduler.Now()), scheduler.Now())
      ensures room && !scheduler.stopped ==> scheduler.DrainedBy(from, d)
    {
      hide KeepsHeld, InOrder, Sound, AllHeard, scheduler.DrainedBy;
      ghost var s := scheduler.Now();
      SettleAll(gone, failed);
      ghost var trace, mid := scheduler.trace, scheduler.Now();
      from, d := FillIf(room);
      KeepsFurther(s, mid, scheduler.Now());
      OthersHeard(trace, scheduler.trace, |old(scheduler.trace)|, gone, failed);
    }

    method FillIf(room: bool) returns (ghost from: State, ghost d: Drainage)
      requires Valid()
      modifies scheduler, registry`nodes, registry`clock, registry`sends
      ensures Valid() && old(scheduler.trace) <= scheduler.trace && KeepsHeld(old(scheduler.Now()), scheduler.Now())
      ensures room && !scheduler.stopped ==> scheduler.DrainedBy(from, d)
      ensures !room ==> registry.nodes == old(registry.nodes)
    {
      hide KeepsHeld, scheduler.DrainedBy;
      StillHeld();
      from, d := scheduler.Now(), NoDrainage(scheduler.Now());
      if room { d := scheduler.Drain({}); }
    }

    method OnOpen() returns (stream: nat)
      requires Valid()
      modifies registry`streams
      ensures Valid() && stream == |old(registry.streams)|
    {
      hide InOrder, Sound;
      stream := registry.OpenSession();
    }

    /**
     * A register frame or heartbeat. Tasks missing from a returning node's report are settled as failed; those
     * it does report are taken over, and the slices it holds are neither queued nor sent.
     */
    method OnRegister(stream: nat, register: Register)
      returns (binding: Binding, ghost checked: int, ghost bound: int, ghost nodes: map<string, LiveNode>, ghost from: State, ghost d: Drainage)
      requires Valid() && stream < |registry.streams|
      modifies registry, scheduler
      ensures Valid() && old(scheduler.trace) <= scheduler.trace
      ensures old(registry.Stale(stream)) ==> scheduler.Now() == old(scheduler.Now()) && registry.streams == old(registry.streams)
      ensures AllHeard(scheduler.trace, |old(scheduler.trace)|, EndedBy(binding), true)
      ensures binding.Bound? ==> AllHeard(scheduler.trace, |old(scheduler.trace)|, binding.gone, true)
      ensures old(!registry.Stale(stream)) ==>
        Registered(old(registry.nodes), stream, register, checked, bound, registry.timeout, registry.restore, binding, nodes)
      ensures binding.Bound? && register.info.Some? ==>
        binding.node in nodes && TakenOver(
          old(registry.nodes), binding.node, stream, register.info.value, bound, registry.timeout, registry.restore, nodes[binding.node].active)
      ensures forall n, id, q :: HeldAs(nodes, n, id, q) ==>
        HeldAs(registry.nodes, n, id, q) && LeftAlone(q, old(scheduler.BooksNow()), scheduler.BooksNow())
      ensures binding.Bound? && !scheduler.stopped && !HadRoom(old(registry.nodes), binding.node) ==>
        scheduler.DrainedBy(from, d) || (binding.node in registry.nodes ==> !FreeSlot(registry.nodes[binding.node]))
    {
      hide KeepsHeld, HeldAs, LeftAlone, TakenOver, InOrder, Sound, AllHeard, Registered, FreeSlot, scheduler.DrainedBy;
      if registry.Stale(stream) {
        StillHeld();
        NothingHeard(EndedBy(Rejected));
        return Rejected, 0, 0, registry.nodes, scheduler.Now(), NoDrainage(scheduler.Now());
      }
      ghost var books := scheduler.BooksNow();
      binding, checked, bound := Bind(stream, register);
      nodes := registry.nodes;
      ghost var s := scheduler.Now();
      from, d := SettleAndFillRoom(binding);
      HeldMeans(s, scheduler.Now());
    }

    /** The tasks a frame ended are settled; if the node it bound gained room, the nodes are filled. */
    method SettleAndFillRoom(binding: Binding) returns (ghost from: State, ghost d: Drainage)
      requires ValidDuring(EndedBy(binding))
      modifies scheduler, registry`nodes, registry`clock, registry`sends
      ensures Valid() && old(scheduler.trace) <= scheduler.trace
      ensures AllHeard(scheduler.trace, |old(scheduler.trace)|, EndedBy(binding), true) && KeepsHeld(old(scheduler.Now()), scheduler.Now())
      ensures binding.Bound? && !scheduler.stopped && binding.roomBefore <= 0 ==>
        scheduler.DrainedBy(from, d) || (binding.node in registry.nodes ==> !FreeSlot(registry.nodes[binding.node]))
    {
      hide KeepsHeld, InOrder, Sound, AllHeard, FreeSlot, scheduler.DrainedBy;
      ghost var s := scheduler.Now();
      SettleAll(EndedBy(binding), true);
      ghost var trace, mid := scheduler.trace, scheduler.Now();
      from, d := FillIf(binding.Bound? && registry.RoomOf(binding.node) > binding.roomBefore);
      KeepsFurther(s, mid, scheduler.Now());
      OthersHeard(trace, scheduler.trace, |old(scheduler.trace)|, EndedBy(binding), true);
    }

    lemma NothingHeard(none: set<string>)
      requires none == {}
      ensures AllHeard(scheduler.trace, |scheduler.trace|, none, true)
    {
    }

    lemma HeldMeans(s: State, s': State)
      requires KeepsHeld(s, s')
      ensures forall n, id, q :: HeldAs(s.nodes, n, id, q) ==> HeldAs(s'.nodes, n, id, q) && LeftAlone(q, s.b, s'.b)
    {
    }

    method Bind(stream: nat, register: Register) returns (binding: Binding, ghost checked: int, ghost bound: int)
      requires Valid() && stream < |registry.streams| && !registry.Stale(stream)
      modifies registry, scheduler`holder
      ensures ValidDuring(EndedBy(binding)) && scheduler.BooksNow() == old(scheduler.BooksNow())
      ensures Registered(old(registry.nodes), stream, register, checked, bound, registry.timeout, registry.restore, binding, registry.nodes)
      ensures binding.Bound? && register.info.Some? ==>
        binding.node in registry.nodes && TakenOver(
          old(registry.nodes), binding.node, stream, register.info.value, bound, registry.timeout, registry.restore, registry.nodes[binding.node].active)
      ensures binding.Bound? && binding.roomBefore > 0 ==> HadRoom(old(registry.nodes), binding.node)
    {
      hide InOrder, Sound, Drops, Registered, TakenOver;
      ghost var s := scheduler.Now();
      binding, checked, bound := RegisterStep(stream, register);
      Release(s, Trim(register.nodeId), EndedBy(binding));
    }

    method RegisterStep(stream: nat, register: Register) returns (binding: Binding, ghost checked: int, ghost bound: int)
      requires registry.Valid() && stream < |registry.streams| && !registry.Stale(stream)
      modifies registry
      ensures registry.Valid() && Drops(old(registry.nodes), Trim(register.nodeId), EndedBy(binding), registry.nodes)
      ensures Registered(old(registry.nodes), stream, register, checked, bound, registry.timeout, registry.restore, binding, registry.nodes)
      ensures binding.Bound? && register.info.Some? ==>
        binding.node in registry.nodes && TakenOver(
          old(registry.nodes), binding.node, stream, register.info.value, bound, registry.timeout, registry.restore, registry.nodes[binding.node].active)
      ensures binding.Bound? && binding.roomBefore > 0 ==> HadRoom(old(registry.nodes), binding.node)
    {
      hide TakenOver;
      ghost var nodes := registry.nodes;
      binding, checked, bound := registry.ApplyRegister(stream, register);
      RegisteredDrops(nodes, stream, register, checked, bound, registry.timeout, registry.restore, binding, registry.nodes);
    }

    /** A progress frame. The last one of a task the scheduler waits for is its one settlement. */
    method OnProgress(stream: nat, progress: Progress) returns (ghost from: State, ghost d: Drainage)
      requires Valid() && stream < |registry.streams|
      modifies registry, scheduler
      ensures Valid() && old(scheduler.trace) <= scheduler.trace
      ensures old(registry.Stale(stream) || !Concerns(registry.nodes, registry.streams[stream], progress)) ==>
        scheduler.Now() == old(scheduler.Now()) && registry.streams == old(registry.streams)
      ensures old(!registry.Stale(stream) && IsLastFrame(registry.nodes, registry.streams[stream], progress)) ==>
        HeardSince(scheduler.trace, |old(scheduler.trace)|, progress.taskId, progress.failed)
      ensures forall n, id, q :: HeldAs(old(registry.nodes), n, id, q) && !(n == progress.nodeId && id == progress.taskId) ==>
        HeldAs(registry.nodes, n, id, q) && LeftAlone(q, old(scheduler.BooksNow()), scheduler.BooksNow())
      ensures old(!registry.Stale(stream) && Concerns(registry.nodes, registry.streams[stream], progress)
                  && (progress.completed || progress.failed)) && !scheduler.stopped ==>
        scheduler.DrainedBy(from, d)
    {
      hide InOrder, Sound, HeardSince, HeldAs, LeftAlone, KeepsHeld, scheduler.DrainedBy;
      from, d := scheduler.Now(), NoDrainage(scheduler.Now());
      if registry.Stale(stream) || !Concerns(registry.nodes, registry.streams[stream], progress) {
        StillHeld();
        HeldMeans(scheduler.Now(), scheduler.Now());
        return;
      }
      var ended, gone := Advance(stream, progress);
      ghost var s := scheduler.Now();
      from, d := SettleAndFill(gone, progress.failed, ended);
      HeldMeans(s, scheduler.Now());
    }

    method Advance(stream: nat, progress: Progress) returns (ended: bool, gone: set<string>)
      requires Valid() && stream < |registry.streams| && !registry.Stale(stream)
      modifies registry`nodes, registry`clock, scheduler`holder
      ensures ValidDuring(gone) && (old(IsLastFrame(registry.nodes, registry.streams[stream], progress)) ==> gone == {progress.taskId})
      ensures ended <==> old(Concerns(registry.nodes, registry.streams[stream], progress)) && (progress.completed || progress.failed)
      ensures scheduler.BooksNow() == old(scheduler.BooksNow())
      ensures forall n, id, q :: HeldAs(old(registry.nodes), n, id, q) && !(n == progress.nodeId && id == progress.taskId) ==>
        HeldAs(registry.nodes, n, id, q)
    {
      hide InOrder, Sound, HeldAs;
      ghost var s := scheduler.Now();
      ended, gone := ProgressStep(stream, progress);
      Release(s, progress.nodeId, gone);
    }

    method ProgressStep(stream: nat, progress: Progress) returns (ended: bool, gone: set<string>)
      requires registry.Valid() && stream < |registry.streams| && !registry.Stale(stream)
      modifies registry`nodes, registry`clock
      ensures old(IsLastFrame(registry.nodes, registry.streams[stream], progress)) ==> gone == {progress.taskId}
      ensures ended <==> old(Concerns(registry.nodes, registry.streams[stream], progress)) && (progress.completed || progress.failed)
      ensures registry.Valid() && Drops(old(registry.nodes), progress.nodeId, gone, registry.nodes)
      ensures forall n, id, q :: HeldAs(old(registry.nodes), n, id, q) && !(n == progress.nodeId && id == progress.taskId) ==>
        HeldAs(registry.nodes, n, id, q)
    {
      hide Drops;
      ended, gone := registry.ApplyProgress(stream, progress);
    }

    /** The patrol's turn for one node: every awaited task of a node found dead is settled as failed. */
    method OnReconcile(n: string) returns (ghost now: int)
      requires Valid()
      modifies registry, scheduler
      ensures Valid() && old(scheduler.trace) <= scheduler.trace && old(registry.clock) <= now
      ensures n in old(registry.nodes) && !Alive(old(registry.nodes)[n], now, registry.timeout) ==>
        AllHeard(scheduler.trace, |old(scheduler.trace)|, NotifiedAt(old(registry.nodes), n).Keys, true)
      ensures forall m, id, q :: HeldAs(old(registry.nodes), m, id, q) && (m != n || Alive(old(registry.nodes)[n], now, registry.timeout)) ==>
        HeldAs(registry.nodes, m, id, q) && LeftAlone(q, old(scheduler.BooksNow()), scheduler.BooksNow())
    {
      hide HeldAs, LeftAlone, KeepsHeld, InOrder, Sound, AllHeard;
      var gone;
      gone, now := Reap(n);
      ghost var s := scheduler.Now();
      SettleAll(gone, true);
      HeldMeans(s, scheduler.Now());
    }

    method Reap(n: string) returns (gone: set<string>, ghost now: int)
      requires Valid()
      modifies registry`nodes, registry`clock, scheduler`holder
      ensures ValidDuring(gone) && scheduler.BooksNow() == old(scheduler.BooksNow()) && old(registry.clock) <= now
      ensures forall m, id, q :: HeldAs(old(registry.nodes), m, id, q) && (m != n || Alive(old(registry.nodes)[n], now, registry.timeout)) ==>
        HeldAs(registry.nodes, m, id, q)
      ensures n in old(registry.nodes) && !Alive(old(registry.nodes)[n], now, registry.timeout) ==>
        gone == NotifiedAt(old(registry.nodes), n).Keys
    {
      hide InOrder, Sound, Drops;
      ghost var s := scheduler.Now();
      gone := registry.Reconcile(n);
      now := registry.clock;
      Release(s, n, gone);
    }

    method OnClose(stream: nat)
      requires Valid() && stream < |registry.streams|
      modifies registry`nodes, registry`streams
      ensures Valid()
    {
      hide InOrder, Sound;
      ghost var s := scheduler.Now();
      registry.Detach(stream);
      OnlyOffline(s.nodes, registry.nodes);
      NodesStay(scheduler.env, scheduler.log, scheduler.maxBufferedTasks, s, registry.nodes);
    }

    /** Between turns: what was sent and not heard of is what the nodes will report, one for one. */
    lemma SentIsHeld(id: string)
      requires Valid()
      ensures id in scheduler.dispatched
              <==> exists n :: n in registry.nodes && id in registry.nodes[n].active && registry.nodes[n].active[id].notify
      ensures forall n, m :: id in NotifiedAt(registry.nodes, n) && id in NotifiedAt(registry.nodes, m) ==> n == m
    {
      HeldExactlyOnce(registry.nodes, scheduler.dispatched, scheduler.holder, id);
    }

    /** In every state reached: the load bound, the run count, one run in everything loaded, and a lawful trace. */
    lemma AlwaysInOrder()
      requires Valid()
      ensures |scheduler.queue| + |scheduler.inflight| <= scheduler.maxBufferedTasks
      ensures scheduler.inflight == SlicesOfTasks(scheduler.dispatched)
      ensures forall i :: 0 <= i < |scheduler.queue| ==> scheduler.queue[i].slice !in scheduler.inflight
      ensures forall r :: Count(scheduler.loadedRuns, r)
                          == if r == scheduler.run then |scheduler.queue| + |scheduler.dispatched| else 0
      ensures forall i :: 0 <= i < |scheduler.queue| ==> scheduler.ids.runOf(scheduler.queue[i].id) == scheduler.run
      ensures forall id :: id in scheduler.dispatched ==> scheduler.ids.runOf(id) == scheduler.run
      ensures !scheduler.stopped ==> forall i :: 0 <= i < |scheduler.scans| ==> scheduler.run <= scheduler.scans[i].scan.range.run
      ensures !scheduler.stopped && scheduler.buffered.Some? && (scheduler.queue != [] || scheduler.dispatched != map[]) ==>
        var i := IndexOf(scheduler.scans, scheduler.buffered.value.key);
        i < |scheduler.scans| && scheduler.scans[i].scan.range.run == scheduler.run
      ensures Lawful(scheduler.trace) && Replay(scheduler.trace).open == scheduler.dispatched
    {
      hide Lawful, Replay, Linked, RetriesOk, LossesOk, RecentOk;
      var s := scheduler.Now();
      InflightIs(scheduler.env, s.run, s.b);
      LoadedRun(scheduler.env, s.run, s.b);
      if s.live {
        if s.p.buffered.Some? { LeaderIs(scheduler.env, scheduler.log, scheduler.maxBufferedTasks, s, {}); }
        forall i | 0 <= i < |s.p.scans| ensures s.run <= s.p.scans[i].scan.range.run {
          assert EntryOk(scheduler.log, AccountsOf(s.run, s.b), s.run, s.today, s.p.seen, s.p.scans[i]);
        }
      }
    }

    /** Whenever a day is being recorded, on whatever turn, its sweep is over. */
    lemma RecordedDayIsSwept()
      requires Valid() && scheduler.savingDailyRun.Some?
      ensures SweepFinished(scheduler.log, Replay(scheduler.trace), scheduler.savingDailyRun.value)
      ensures Lawful(scheduler.trace) && Attested(scheduler.env.genuine, scheduler.trace) && Named(scheduler.env, scheduler.trace)
    {
      var s := scheduler.Now();
      assert Told(scheduler.env, s.b) && Witnessed(scheduler.env, scheduler.log, s);
    }
  }

  /** Every loaded task's id names the run. */
  lemma LoadedRun(env: Env, run: int, b: Books)
    requires Sound(env) && BooksOk(env, run, b)
    ensures forall i :: 0 <= i < |b.queue| ==> env.ids.runOf(b.queue[i].id) == run
    ensures forall id :: id in b.dispatched ==> env.ids.runOf(id) == run
  {
    forall i | 0 <= i < |b.queue| ensures env.ids.runOf(b.queue[i].id) == run {
      assert LoadedOk(env, run, b, b.queue[i]);
      TaskReadsBack(env, run, b.queue[i]);
    }
    forall id | id in b.dispatched ensures env.ids.runOf(id) == run {
      assert SentOk(env, run, b, id);
      TaskReadsBack(env, run, b.dispatched[id]);
    }
  }

  function SlicesOfTasks(m: map<string, Task>): set<Slice> { set id | id in m :: m[id].slice }

  ghost predicate OneTaskEach(m: map<string, Task>) {
    forall id, id' :: id in m && id' in m && m[id].slice == m[id'].slice ==> id == id'
  }

  lemma InflightIs(env: Env, run: int, b: Books)
    requires BooksOk(env, run, b)
    ensures b.inflight == SlicesOfTasks(b.dispatched)
  {
    forall id | id in b.dispatched ensures b.dispatched[id].slice in b.inflight { assert SentOk(env, run, b, id); }
    forall id, id' | id in b.dispatched && id' in b.dispatched && b.dispatched[id].slice == b.dispatched[id'].slice ensures id == id' {
      assert SameSlice(b, id, id');
    }
    SameSize(b.dispatched);
    SubsetOfSameSize(SlicesOfTasks(b.dispatched), b.inflight);
  }

  lemma {:induction false} SameSize(m: map<string, Task>)
    requires OneTaskEach(m)
    ensures |SlicesOfTasks(m)| == |m|
    decreases |m|
  {
    if m != map[] {
      var id :| id in m;
      var rest, s := Without(m, id), m[id].slice;
      assert rest.Keys == m.Keys - {id};
      SameSize(rest);
      forall q ensures q in SlicesOfTasks(m) <==> q in SlicesOfTasks(rest) + {s} {
        if q in SlicesOfTasks(m) {
          var k :| k in m && m[k].slice == q;
          assert k != id ==> k in rest && rest[k].slice == q;
        }
        if q in SlicesOfTasks(rest) {
          var k :| k in rest && rest[k].slice == q;
          assert k in m && m[k].slice == q;
        }
      }
      assert SlicesOfTasks(m) == SlicesOfTasks(rest) + {s};
      assert forall k :: k in rest ==> k in m && rest[k] == m[k] && k != id;
      assert s !in SlicesOfTasks(rest);
    }
  }

  lemma SubsetOfSameSize(a: set<Slice>, b: set<Slice>)
    requires a <= b && |a| == |b|
    ensures a == b
  {
    assert b == a + (b - a);
    assert |b| == |a| + |b - a|;
  }

  lemma OnlyOffline(nodes: map<string, LiveNode>, nodes': map<string, LiveNode>)
    requires nodes'.Keys == nodes.Keys && forall n :: n in nodes ==> nodes'[n] == nodes[n].(session := nodes'[n].session)
    ensures forall n :: NotifiedAt(nodes', n) == NotifiedAt(nodes, n)
  {
  }

  lemma NodesStay(env: Env, log: seq<BacklogReader.Row>, max: nat, s: State, nodes: map<string, LiveNode>)
    requires InOrder(env, log, max, s, {}) && forall n :: NotifiedAt(nodes, n) == NotifiedAt(s.nodes, n)
    ensures InOrder(env, log, max, s.(nodes := nodes), {})
  {
    hide BooksOk, PlanOk, SweepFinished, AccountsOf;
    forall id | id in s.holder ensures Awaited(nodes, s.b.dispatched, s.holder, id) { assert Awaited(s.nodes, s.b.dispatched, s.holder, id); }
    forall n, id | WillReport(nodes, n, id) ensures id in s.holder && s.holder[id] == n { assert WillReport(s.nodes, n, id); }
  }

  /**
   * What a recorded daily run stands for: under one run, for every slice of the log up to the day before,
   * the reader had seen final rows and then no marker, or a node held it, or a task sent for it succeeded,
   * or it was given up after three failures.
   */
  lemma FinishedSweepMeans(genuine: Look -> bool, log: seq<BacklogReader.Row>, trace: seq<Step>, day: int) returns (run: int)
    requires Lawful(trace) && Attested(genuine, trace) && SweepFinished(log, Replay(trace), day)
    ensures run >= day
    ensures forall q :: q in BacklogReader.SlicesOf(log) && q.day < day ==>
      exists i :: 0 <= i < |trace| && RunLaws.Explains(genuine, trace, i, run, q)
  {
    run :| SweptBy(log, Replay(trace).resolved, run, day);
    forall q | q in BacklogReader.SlicesOf(log) && q.day < day
      ensures exists i :: 0 <= i < |trace| && RunLaws.Explains(genuine, trace, i, run, q)
    {
      RunLaws.ResolvedMeans(genuine, trace, run, q);
    }
  }

  // ----- what ids that do not tell slices apart do here -----

  /** Two tasks are queued, and two nodes have room for one each. */
  ghost function TwinState(a: Task, b: Task): State {
    var node := LiveNode("", Info(true, 1, [], ""), 0, Some(0), map[], []);
    var s := Initial(0);
    s.(b := s.b.(queue := [a, b]), nodes := map["m" := node, "n" := node])
  }

  lemma TwinSent(s: State, i: nat, task: Task, n: string, t: Try, delivers: nat -> bool, sends: nat) returns (s': State)
    requires i < |s.b.queue| && task == s.b.queue[i] && !task.rust && t == Try(0, 0, 0, 0, t.nth) && t.nth < sends && delivers(t.nth)
    requires n in s.nodes && Takes(s.nodes[n], task, 0, 0) && !IsRust(s.nodes[n]) && !HasActiveSlice(s.nodes, task.slice)
    ensures s' == Delivered(TakenOff(s, i), task, n)
    ensures Moved(s, Deliver(i, task, n, t), s') && Tried(delivers, sends, 0, s, Deliver(i, task, n, t))
  {
    s' := Delivered(TakenOff(s, i), task, n);
    DeliveredMoves(s, i, task, n, t);
    assert Idle(s.nodes[n], false, 0, 0);
  }

  lemma TwinsSent(a: Task, b: Task, delivers: nat -> bool) returns (s: State, mid: State, end: State)
    requires a.id == b.id && a.slice != b.slice && !a.rust && !b.rust && delivers(0) && delivers(1)
    ensures s == TwinState(a, b) && mid == Delivered(TakenOff(s, 0), a, "m") && mid.b.queue == [b] && "n" in mid.nodes
    ensures !IsRust(mid.nodes["n"]) && end == Delivered(TakenOff(mid, 0), b, "n")
    ensures var first, second := Deliver(0, a, "m", Try(0, 0, 0, 0, 0)), Deliver(0, b, "n", Try(0, 0, 0, 0, 1));
            && Moved(s, first, mid) && Tried(delivers, 2, 0, s, first)
            && Moved(mid, second, end) && Tried(delivers, 2, 0, mid, second)
    ensures end.nodes.Keys == {"m", "n"} && end.nodes["m"] == Occupy(s.nodes["m"], a) && end.nodes["n"] == Occupy(s.nodes["n"], b)
  {
    s := TwinState(a, b);
    mid := TwinSent(s, 0, a, "m", Try(0, 0, 0, 0, 0), delivers, 2);
    assert Takes(mid.nodes["n"], b, 0, 0) && !HasActiveSlice(mid.nodes, b.slice);
    end := TwinSent(mid, 0, b, "n", Try(0, 0, 0, 0, 1), delivers, 2);
  }

  lemma TwinBooks(a: Task, b: Task, mid: State, end: State)
    requires mid == Delivered(TakenOff(TwinState(a, b), 0), a, "m") && "n" in mid.nodes && mid.b.queue == [b]
    requires !IsRust(mid.nodes["n"]) && end == Delivered(TakenOff(mid, 0), b, "n") && a.id == b.id && a.slice != b.slice
    ensures end.b.trace == [Sent(0, a, false, true), Sent(0, b, false, true)] && end.b.queue == [] && end.b.inflight == {a.slice, b.slice}
    ensures end.b.dispatched == map[b.id := b] && end.b.recent == [] && end.b.past.resolved == {} && end.b.retryBases == map[]
  {
  }

  lemma TwinsUnlawful(a: Task, b: Task)
    requires a.id == b.id
    ensures !Lawful([Sent(0, a, false, true), Sent(0, b, false, true)])
  {
    var trace := [Sent(0, a, false, true), Sent(0, b, false, true)];
    assert trace[..1] == [trace[0]] && trace[..1][..0] == [];
    assert a.id in Replay(trace[..1]).open;
    assert !Allowed(Replay(trace[..1]), trace[1]);
  }

  /**
   * Two slices under one id: both tasks are sent, two nodes hold the id, and the first report, whichever
   * task it is of, settles the second task. The first slice stays in flight, and nobody is waited for.
   */
  lemma TwinsStrand(ids: IdScheme, delivers: nat -> bool, a: Task, b: Task)
    returns (s: State, mid: State, end: State, nodes: map<string, LiveNode>)
    requires a.id == b.id && a.slice != b.slice && !a.rust && !b.rust && delivers(0) && delivers(1)
    ensures s.b.queue == [a, b] && s.b.dispatched == map[] && s.b.inflight == {} && s.b.trace == []
    ensures var first, second := Deliver(0, a, "m", Try(0, 0, 0, 0, 0)), Deliver(0, b, "n", Try(0, 0, 0, 0, 1));
            && Moved(s, first, mid) && Tried(delivers, 2, 0, s, first)
            && Moved(mid, second, end) && Tried(delivers, 2, 0, mid, second)
    ensures a.id in NotifiedAt(end.nodes, "m") && a.id in NotifiedAt(end.nodes, "n") && !Lawful(end.b.trace)
    ensures Drops(end.nodes, "m", {a.id}, nodes) && a.id in end.b.dispatched
    ensures var done := AfterSettling(ids, end.(nodes := nodes), a.id, false).b;
            && done.queue == [] && done.dispatched == map[] && done.inflight == {a.slice}
            && (ids.runOf(b.id), b.slice) in done.past.resolved && forall r: int :: (r, a.slice) !in done.past.resolved
  {
    hide Moved, Tried, Lawful, Drops, Delivered, TakenOff, IsRust;
    s, mid, end := TwinsSent(a, b, delivers);
    TwinBooks(a, b, mid, end);
    TwinsUnlawful(a, b);
    nodes := TwinReports(a.id, end.nodes);
    hide TwinState;
    TwinSettles(ids, end.b, a, b);
  }

  lemma TwinReports(id: string, nodes: map<string, LiveNode>) returns (nodes': map<string, LiveNode>)
    requires "m" in nodes && NotifiedAt(nodes, "m").Keys == {id}
    ensures Drops(nodes, "m", {id}, nodes')
  {
    nodes' := nodes["m" := nodes["m"].(active := map[])];
  }

  lemma TwinSettles(ids: IdScheme, sent: Books, a: Task, b: Task)
    requires sent.queue == [] && sent.inflight == {a.slice, b.slice} && sent.dispatched == map[b.id := b]
    requires a.slice != b.slice && sent.recent == [] && sent.past.resolved == {} && sent.retryBases == map[]
    ensures var done := Settle(ids, sent, b.id, false, false);
            && done.queue == [] && done.dispatched == map[] && done.inflight == {a.slice}
            && (ids.runOf(b.id), b.slice) in done.past.resolved && forall r: int :: (r, a.slice) !in done.past.resolved
  {
  }

  /** The ids in use do that to a session and the session named like its first retry. */
  lemma TwinTasks(text: int -> string, run: int, day: int) returns (a: Task, b: Task)
    requires IsCalendar(text)
    ensures a.slice == BacklogReader.Slice(day, "x") && a == Task(Id(CleaningIds(text), run, a.slice, 1), a.slice, false)
    ensures b.slice == BacklogReader.Slice(day, "x:r1") && b == Task(Id(CleaningIds(text), run, b.slice, 0), b.slice, false)
    ensures a.id == b.id && a.slice != b.slice
  {
    var x, y := BacklogReader.Slice(day, "x"), BacklogReader.Slice(day, "x:r1");
    a, b := Task(Id(CleaningIds(text), run, x, 1), x, false), Task(Id(CleaningIds(text), run, y, 0), y, false);
    CleaningIdIs(text, run, x, 1);
    CleaningIdIs(text, run, y, 0);
    TaskIds.CollisionExample(text(run), text(day));
  }
}
