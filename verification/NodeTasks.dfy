/** The compute node's own scheduler: bounded concurrency, one task of a slice at a time, one run of an id. */
module NodeTasks {
  import opened Options

  datatype SliceKey = SliceKey(date: string, session: string)

  datatype Update = Update(progress: nat, completed: bool, failed: bool)

  /** `subjects`: the progress streams that asked for this task. */
  datatype ActiveTask = ActiveTask(id: string, slice: SliceKey, subjects: seq<nat>, last: Option<Update>)

  datatype Delivery = Delivery(subject: nat, update: Update)

  /**
   * Tasks are known by the order in which they were accepted. `ending`: finished, but the promise not yet
   * settled; `resolved`: the promises settled, in order; `started`: the tasks started, in order.
   */
  datatype Node = Node(tasks: map<nat, ActiveTask>, active: map<string, nat>, queue: seq<nat>, running: set<nat>,
                       ending: set<nat>, resolved: seq<nat>, started: seq<nat>)

  ghost predicate Ascending(ids: seq<nat>) { forall i, j :: 0 <= i < j < |ids| ==> ids[i] < ids[j] }

  ghost predicate Distinct(ids: seq<nat>) { forall i, j :: 0 <= i < j < |ids| ==> ids[i] != ids[j] }

  ghost predicate Open(n: Node, t: nat) { t in n.queue || t in n.running }

  /** A task is in exactly one place from the turn it is accepted, and its id names it while it waits or runs. */
  ghost predicate TaskOk(n: Node, next: nat, t: nat) {
    && (t in n.tasks <==> t < next)
    && (t < next <==> Open(n, t) || t in n.ending || t in n.resolved)
    && (t in n.queue ==> t !in n.running && t !in n.ending && t !in n.resolved)
    && (t in n.running ==> t !in n.ending && t !in n.resolved)
    && (t in n.ending ==> t !in n.resolved)
    && (t in n.started <==> t < next && t !in n.queue)
    && (Open(n, t) && t in n.tasks ==> n.tasks[t].id in n.active && n.active[n.tasks[t].id] == t)
  }

  ghost predicate IdOk(n: Node, id: string) {
    id in n.active ==> n.active[id] in n.tasks && n.tasks[n.active[id]].id == id && Open(n, n.active[id])
  }

  ghost predicate SameSlice(n: Node, t: nat, u: nat) { t in n.tasks && u in n.tasks && n.tasks[t].slice == n.tasks[u].slice }

  /** Of two tasks of a slice only one runs, and the one that started was accepted before the one that waits. */
  ghost predicate PairOk(n: Node, t: nat, u: nat) {
    SameSlice(n, t, u) ==> (t in n.running && u in n.running ==> t == u) && (t in n.started && u in n.queue ==> t < u)
  }

  /** Tasks of a slice start in the order in which they were accepted. */
  ghost predicate TurnOk(n: Node, i: nat, j: nat) {
    i < j < |n.started| && SameSlice(n, n.started[i], n.started[j]) ==> n.started[i] < n.started[j]
  }

  ghost predicate Consistent(n: Node, next: nat) {
    && Ascending(n.queue) && Distinct(n.resolved) && Distinct(n.started)
    && (forall t: nat {:trigger TaskOk(n, next, t)} :: TaskOk(n, next, t))
    && (forall id {:trigger IdOk(n, id)} :: IdOk(n, id))
    && (forall t: nat, u: nat {:trigger PairOk(n, t, u)} :: PairOk(n, t, u))
    && (forall i: nat, j: nat {:trigger TurnOk(n, i, j)} :: TurnOk(n, i, j))
  }

  function Slices(tasks: map<nat, ActiveTask>, running: set<nat>): set<SliceKey> {
    set t | t in running && t in tasks :: tasks[t].slice
  }

  /** Capacity is left over only when every waiting task waits for its own slice. */
  ghost predicate AtRest(n: Node, capacity: nat) {
    |n.running| < capacity ==> forall t: nat :: t in n.queue && t in n.tasks ==> n.tasks[t].slice in Slices(n.tasks, n.running)
  }

  function RemoveAt(ids: seq<nat>, i: nat): seq<nat>
    requires i < |ids|
  {
    ids[..i] + ids[i + 1..]
  }

  // ----- the steps -----

  function Accepted(n: Node, next: nat, id: string, slice: SliceKey, subject: nat): Node {
    n.(tasks := n.tasks[next := ActiveTask(id, slice, [subject], None)], active := n.active[id := next], queue := n.queue + [next])
  }

  lemma AcceptKeeps(n: Node, next: nat, id: string, slice: SliceKey, subject: nat)
    requires Consistent(n, next) && id !in n.active
    ensures Consistent(Accepted(n, next, id, slice, subject), next + 1)
    ensures Slices(Accepted(n, next, id, slice, subject).tasks, n.running) == Slices(n.tasks, n.running)
  {
    var n' := Accepted(n, next, id, slice, subject);
    assert TaskOk(n, next, next);
    forall i | 0 <= i < |n.queue| ensures n.queue[i] < next {
      assert n.queue[i] in n.queue && TaskOk(n, next, n.queue[i]);
    }
    assert forall t: nat :: t in n'.queue <==> t in n.queue || t == next;
    var next' := next + 1;
    forall t: nat ensures TaskOk(n', next', t) {
      assert TaskOk(n, next, t);
      if t < next && Open(n, t) { assert n.tasks[t].id in n.active; }
    }
    forall k ensures IdOk(n', k) { assert IdOk(n, k); }
    forall t: nat, u: nat ensures PairOk(n', t, u) { assert PairOk(n, t, u) && TaskOk(n, next, t); }
    forall i: nat, j: nat ensures TurnOk(n', i, j) {
      assert TurnOk(n, i, j);
      if i < j < |n.started| {
        assert n.started[i] in n.started && n.started[j] in n.started;
        assert TaskOk(n, next, n.started[i]) && TaskOk(n, next, n.started[j]);
      }
    }
  }

  /** The first task whose slice is not running starts. */
  function Started(n: Node, i: nat): Node
    requires i < |n.queue|
  {
    n.(queue := RemoveAt(n.queue, i), running := n.running + {n.queue[i]}, started := n.started + [n.queue[i]])
  }

  lemma RemovedIs(ids: seq<nat>, i: nat)
    requires Ascending(ids) && i < |ids|
    ensures Ascending(RemoveAt(ids, i)) && forall t: nat :: t in RemoveAt(ids, i) <==> t in ids && t != ids[i]
  {
    var rest := RemoveAt(ids, i);
    forall t: nat | t in ids && t != ids[i] ensures t in rest {
      var k :| 0 <= k < |ids| && ids[k] == t;
      assert rest[if k < i then k else k - 1] == t;
    }
  }

  /** The queue's first task whose slice does not run. */
  ghost predicate IsFirstFree(n: Node, i: nat) {
    && i < |n.queue| && n.queue[i] in n.tasks && n.tasks[n.queue[i]].slice !in Slices(n.tasks, n.running)
    && forall k :: 0 <= k < i ==> n.queue[k] in n.tasks && n.tasks[n.queue[k]].slice in Slices(n.tasks, n.running)
  }

  /** Tasks of its slice still waiting were accepted later. */
  lemma FirstOfSlice(n: Node, next: nat, i: nat, u: nat)
    requires Consistent(n, next) && IsFirstFree(n, i) && u in n.queue && SameSlice(n, n.queue[i], u)
    ensures n.queue[i] <= u
  {
    var k :| 0 <= k < |n.queue| && n.queue[k] == u;
  }

  lemma StartKeeps(n: Node, next: nat, i: nat)
    requires Consistent(n, next) && IsFirstFree(n, i)
    ensures Consistent(Started(n, i), next) && n.queue[i] !in n.running
    ensures Slices(n.tasks, Started(n, i).running) == Slices(n.tasks, n.running) + {n.tasks[n.queue[i]].slice}
  {
    var n', t := Started(n, i), n.queue[i];
    assert t in n.queue && TaskOk(n, next, t);
    RemovedIs(n.queue, i);
    assert forall u: nat :: u in n'.started <==> u in n.started || u == t;
    forall u: nat ensures TaskOk(n', next, u) { assert TaskOk(n, next, u); }
    forall k ensures IdOk(n', k) { assert IdOk(n, k); }
    forall u: nat, v: nat ensures PairOk(n', u, v) {
      assert PairOk(n, u, v);
      if u == t && v in n.queue && SameSlice(n, t, v) { FirstOfSlice(n, next, i, v); }
    }
    forall a: nat, b: nat ensures TurnOk(n', a, b) {
      assert TurnOk(n, a, b);
      if a < b == |n.started| { assert n.started[a] in n.started && PairOk(n, n.started[a], t); }
    }
  }

  function Released(n: Node, t: nat): Node
    requires t in n.tasks
  {
    n.(active := map id | id in n.active && id != n.tasks[t].id :: n.active[id], running := n.running - {t}, ending := n.ending + {t})
  }

  lemma ReleaseKeeps(n: Node, next: nat, t: nat)
    requires Consistent(n, next) && t in n.running && t in n.tasks
    ensures Consistent(Released(n, t), next) && |Released(n, t).running| == |n.running| - 1
    ensures Slices(n.tasks, Released(n, t).running) == Slices(n.tasks, n.running) - {n.tasks[t].slice}
  {
    var n' := Released(n, t);
    assert TaskOk(n, next, t);
    forall u: nat ensures TaskOk(n', next, u) { assert TaskOk(n, next, u); }
    forall k ensures IdOk(n', k) { assert IdOk(n, k); }
    forall u: nat, v: nat ensures PairOk(n', u, v) { assert PairOk(n, u, v); }
    forall a: nat, b: nat ensures TurnOk(n', a, b) { assert TurnOk(n, a, b); }
    forall u: nat | u in n.running && u in n.tasks && u != t ensures n.tasks[u].slice != n.tasks[t].slice { assert PairOk(n, u, t); }
  }

  function Resolved(n: Node, t: nat): Node { n.(ending := n.ending - {t}, resolved := n.resolved + [t]) }

  lemma ResolveKeeps(n: Node, next: nat, t: nat)
    requires Consistent(n, next) && t in n.ending
    ensures Consistent(Resolved(n, t), next)
  {
    var n' := Resolved(n, t);
    assert TaskOk(n, next, t);
    assert forall u: nat :: u in n'.resolved <==> u in n.resolved || u == t;
    forall u: nat ensures TaskOk(n', next, u) { assert TaskOk(n, next, u); }
    forall k ensures IdOk(n', k) { assert IdOk(n, k); }
    forall u: nat, v: nat ensures PairOk(n', u, v) { assert PairOk(n, u, v); }
    forall a: nat, b: nat ensures TurnOk(n', a, b) { assert TurnOk(n, a, b); }
  }

  /** Progress and new listeners leave places, names and slices alone. */
  lemma TouchKeeps(n: Node, next: nat, t: nat, task: ActiveTask)
    requires Consistent(n, next) && t in n.tasks && task.id == n.tasks[t].id && task.slice == n.tasks[t].slice
    ensures Consistent(n.(tasks := n.tasks[t := task]), next)
    ensures Slices(n.tasks[t := task], n.running) == Slices(n.tasks, n.running)
  {
    var n' := n.(tasks := n.tasks[t := task]);
    forall u: nat ensures TaskOk(n', next, u) { assert TaskOk(n, next, u); }
    forall k ensures IdOk(n', k) { assert IdOk(n, k); }
    forall u: nat, v: nat ensures PairOk(n', u, v) { assert PairOk(n, u, v); }
    forall a: nat, b: nat ensures TurnOk(n', a, b) { assert TurnOk(n, a, b); }
    forall s ensures s in Slices(n'.tasks, n.running) <==> s in Slices(n.tasks, n.running) {
      if s in Slices(n.tasks, n.running) {
        var u :| u in n.running && u in n.tasks && n.tasks[u].slice == s;
        assert n'.tasks[u].slice == s;
      }
    }
  }

  /** What an update brings to the streams still open, in the order they joined. */
  function Deliveries(subjects: seq<nat>, closed: set<nat>, update: Update): seq<Delivery> {
    if subjects == [] then []
    else
      var first := if subjects[0] in closed then [] else [Delivery(subjects[0], update)];
      first + Deliveries(subjects[1..], closed, update)
  }

  lemma Regroup<T>(a: seq<T>, b: seq<T>, c: seq<T>)
    ensures a + (b + c) == (a + b) + c
  {
  }

  lemma {:induction false} DeliveriesConcat(a: seq<nat>, b: seq<nat>, closed: set<nat>, update: Update)
    ensures Deliveries(a + b, closed, update) == Deliveries(a, closed, update) + Deliveries(b, closed, update)
  {
    if a == [] {
      assert a + b == b;
    } else {
      DeliveriesConcat(a[1..], b, closed, update);
      assert (a + b)[1..] == a[1..] + b && (a + b)[0] == a[0];
      var first := if a[0] in closed then [] else [Delivery(a[0], update)];
      Regroup(first, Deliveries(a[1..], closed, update), Deliveries(b, closed, update));
    }
  }

  lemma NothingDelivered(closed: set<nat>, update: Update)
    ensures Deliveries([], closed, update) == []
  {
  }

  lemma DeliveriesUpTo(subjects: seq<nat>, i: nat, closed: set<nat>, update: Update)
    requires i < |subjects|
    ensures Deliveries(subjects[..i + 1], closed, update)
            == Deliveries(subjects[..i], closed, update) + if subjects[i] in closed then [] else [Delivery(subjects[i], update)]
    ensures Deliveries(subjects[..i], closed, update) <= Deliveries(subjects, closed, update)
  {
    assert subjects[..i + 1] == subjects[..i] + [subjects[i]] && subjects == subjects[..i] + subjects[i..];
    DeliveriesConcat(subjects[..i], [subjects[i]], closed, update);
    DeliveriesConcat(subjects[..i], subjects[i..], closed, update);
  }

  /** The `k`-th stream is the first whose listener throws, or all were told; `calls`: the listener calls made before. */
  ghost predicate StopsAt(subjects: seq<nat>, closed: set<nat>, update: Update, throws: nat -> bool, calls: nat, k: nat) {
    && k <= |subjects|
    && (k < |subjects| ==> subjects[k] !in closed && throws(calls + |Deliveries(subjects[..k], closed, update)|))
    && forall j :: 0 <= j < k && subjects[j] !in closed ==> !throws(calls + |Deliveries(subjects[..j], closed, update)|)
  }

  /** Every stream that is still open gets it. */
  lemma {:induction false} DeliveriesReach(subjects: seq<nat>, closed: set<nat>, update: Update, subject: nat)
    ensures Delivery(subject, update) in Deliveries(subjects, closed, update) <==> subject in subjects && subject !in closed
  {
    if subjects != [] {
      DeliveriesReach(subjects[1..], closed, update, subject);
      assert subject in subjects <==> subject == subjects[0] || subject in subjects[1..];
    }
  }

  class ComputeNodeService {
    const taskCapacity: nat
    const throws: nat -> bool         // whether the listener called n-th throws
    var calls: nat
    var activeTasks: map<string, nat>
    var queuedTasks: seq<nat>
    var runningSlices: set<SliceKey>
    var runningTaskCount: nat
    var tasks: map<nat, ActiveTask>
    var accepted: nat
    ghost var running: set<nat>
    ghost var ending: set<nat>
    ghost var resolved: seq<nat>
    ghost var started: seq<nat>
    ghost var delivered: seq<Delivery>

    ghost function Now(): Node
      reads this
    {
      Node(tasks, activeTasks, queuedTasks, running, ending, resolved, started)
    }

    /** Holds inside a turn as well. */
    ghost predicate Sound()
      reads this
    {
      && Consistent(Now(), accepted) && taskCapacity > 0 && runningTaskCount == |running| <= taskCapacity
      && runningSlices == Slices(tasks, running)
    }

    ghost predicate Valid()
      reads this
    {
      Sound() && AtRest(Now(), taskCapacity)
    }

    constructor (concurrency: nat, throws: nat -> bool)
      ensures Valid() && accepted == 0 && taskCapacity == (if concurrency >= 1 then concurrency else 1) && this.throws == throws
    {
      this.throws, calls := throws, 0;
      taskCapacity := if concurrency >= 1 then concurrency else 1;
      activeTasks, queuedTasks, runningSlices, runningTaskCount, tasks, accepted := map[], [], {}, 0, map[], 0;
      running, ending, resolved, started, delivered := {}, {}, [], [], [];
    }

    /** Accepts a task, or joins the run of the same id; the promise returned is that run's. */
    method ExecuteTask(id: string, slice: SliceKey, subject: nat, closed: bool) returns (promise: nat)
      requires Valid()
      modifies this
      ensures Valid() && promise in tasks && tasks[promise].id == id && subject in tasks[promise].subjects
      ensures if id in old(activeTasks)
              then promise == old(activeTasks)[id] && accepted == old(accepted) && started == old(started)
              else promise == old(accepted) && accepted == promise + 1 && tasks[promise].slice == slice
      ensures resolved == old(resolved) && ending == old(ending) && old(started) <= started
    {
      if id in activeTasks {
        assert IdOk(Now(), id);
        promise := activeTasks[id];
        Join(promise, subject, closed);
        return;
      }
      promise := accepted;
      AcceptKeeps(Now(), accepted, id, slice, subject);
      tasks := tasks[promise := ActiveTask(id, slice, [subject], None)];
      activeTasks := activeTasks[id := promise];
      queuedTasks := queuedTasks + [promise];
      accepted := accepted + 1;
      StartQueuedTasks();
    }

    /** A listener that joins late first hears the latest progress. */
    method Join(t: nat, subject: nat, closed: bool)
      requires Valid() && t in tasks
      modifies this`tasks, this`delivered
      ensures Valid() && tasks.Keys == old(tasks).Keys && forall u :: u in tasks && u != t ==> tasks[u] == old(tasks)[u]
      ensures tasks[t] == old(tasks)[t].(subjects := tasks[t].subjects)
      ensures var before := old(tasks)[t].subjects; if subject in before then tasks[t].subjects == before else tasks[t].subjects == before + [subject]
      ensures delivered == old(delivered) + if tasks[t].last.Some? && !closed then [Delivery(subject, tasks[t].last.value)] else []
    {
      var task := tasks[t];
      var subjects := if subject in task.subjects then task.subjects else task.subjects + [subject];
      TouchKeeps(Now(), accepted, t, task.(subjects := subjects));
      tasks := tasks[t := task.(subjects := subjects)];
      if task.last.Some? && !closed { delivered := delivered + [Delivery(subject, task.last.value)]; }
    }

    method FirstFree() returns (i: nat)
      requires Sound()
      ensures i <= |queuedTasks| && (i < |queuedTasks| ==> IsFirstFree(Now(), i))
      ensures i == |queuedTasks| ==> AtRest(Now(), taskCapacity)
    {
      forall k | 0 <= k < |queuedTasks| ensures queuedTasks[k] in tasks {
        assert queuedTasks[k] in queuedTasks && TaskOk(Now(), accepted, queuedTasks[k]);
      }
      i := 0;
      while i < |queuedTasks| && tasks[queuedTasks[i]].slice in runningSlices
        invariant i <= |queuedTasks|
        invariant forall k :: 0 <= k < i ==> queuedTasks[k] in tasks && tasks[queuedTasks[k]].slice in runningSlices
      {
        i := i + 1;
      }
    }

    /** Starts waiting tasks, oldest first, until capacity or startable tasks run out. */
    method StartQueuedTasks()
      requires Sound()
      modifies this`queuedTasks, this`runningSlices, this`runningTaskCount, this`running, this`started
      ensures Valid() && old(started) <= started
    {
      while runningTaskCount < taskCapacity
        invariant Sound() && old(started) <= started
        decreases |queuedTasks|
      {
        var i := FirstFree();
        if i == |queuedTasks| { return; }
        StartKeeps(Now(), accepted, i);
        var t := queuedTasks[i];
        queuedTasks := RemoveAt(queuedTasks, i);
        runningTaskCount := runningTaskCount + 1;
        runningSlices := runningSlices + {tasks[t].slice};
        running, started := running + {t}, started + [t];
      }
    }

    /** The run is over: its slot and slice go to the tasks waiting before its listeners hear of it. */
    method FinishTask(t: nat, terminal: Update, closed: set<nat>) returns (thrown: bool, ghost k: nat)
      requires Valid() && t in running && t in tasks
      modifies this
      ensures Valid() && t !in running && t in resolved && resolved == old(resolved) + [t] && ending == old(ending)
      ensures old(tasks[t].id) !in activeTasks && accepted == old(accepted) && old(started) <= started
      ensures StopsAt(old(tasks[t].subjects), closed, terminal, throws, old(calls), k)
      ensures delivered == old(delivered) + Deliveries(old(tasks[t].subjects)[..k], closed, terminal)
      ensures thrown <==> k < |old(tasks[t].subjects)|
    {
      hide StopsAt;
      assert TaskOk(Now(), accepted, t);
      ReleaseTask(t);
      thrown, k := SendProgress(t, terminal, closed);
      ResolveTask(t);
      assert TaskOk(Now(), accepted, t);
    }

    /** From here on the listeners may already submit more tasks. */
    method ReleaseTask(t: nat)
      requires Valid() && t in running && t in tasks
      modifies this`activeTasks, this`queuedTasks, this`runningSlices, this`runningTaskCount, this`running, this`started, this`ending
      ensures Valid() && t in ending && t !in running && ending == old(ending) + {t} && old(tasks[t].id) !in activeTasks
      ensures old(started) <= started
    {
      ReleaseKeeps(Now(), accepted, t);
      var task := tasks[t];
      activeTasks := map id | id in activeTasks && id != task.id :: activeTasks[id];
      runningTaskCount := runningTaskCount - 1;
      runningSlices := runningSlices - {task.slice};
      running, ending := running - {t}, ending + {t};
      StartQueuedTasks();
      assert TaskOk(Now(), accepted, t);
    }

    method ResolveTask(t: nat)
      requires Valid() && t in ending
      modifies this`ending, this`resolved
      ensures Valid() && ending == old(ending) - {t} && resolved == old(resolved) + [t]
    {
      ResolveKeeps(Now(), accepted, t);
      ending, resolved := ending - {t}, resolved + [t];
    }

    /** Streams that were closed are skipped; the first that throws keeps the update from those after it. */
    method SendProgress(t: nat, update: Update, closed: set<nat>) returns (thrown: bool, ghost k: nat)
      requires Valid() && t in tasks
      modifies this`tasks, this`delivered, this`calls
      ensures Valid() && tasks == old(tasks)[t := old(tasks)[t].(last := Some(update))]
      ensures StopsAt(tasks[t].subjects, closed, update, throws, old(calls), k)
      ensures delivered == old(delivered) + Deliveries(tasks[t].subjects[..k], closed, update)
      ensures thrown <==> k < |tasks[t].subjects|
    {
      hide Consistent, Deliveries, StopsAt;
      TouchKeeps(Now(), accepted, t, tasks[t].(last := Some(update)));
      tasks := tasks[t := tasks[t].(last := Some(update))];
      thrown, k := Tell(tasks[t].subjects, update, closed);
    }

    method Tell(subjects: seq<nat>, update: Update, closed: set<nat>) returns (thrown: bool, ghost k: nat)
      modifies this`delivered, this`calls
      ensures StopsAt(subjects, closed, update, throws, old(calls), k) && (thrown <==> k < |subjects|)
      ensures delivered == old(delivered) + Deliveries(subjects[..k], closed, update)
    {
      hide Deliveries;
      NothingDelivered(closed, update);
      for i := 0 to |subjects|
        invariant delivered == old(delivered) + Deliveries(subjects[..i], closed, update)
        invariant calls == old(calls) + |Deliveries(subjects[..i], closed, update)|
        invariant forall j :: 0 <= j < i && subjects[j] !in closed ==> !throws(old(calls) + |Deliveries(subjects[..j], closed, update)|)
      {
        DeliveriesUpTo(subjects, i, closed, update);
        if subjects[i] !in closed {
          thrown := throws(calls);
          calls := calls + 1;
          if thrown { return true, i; }
          delivered := delivered + [Delivery(subjects[i], update)];
        }
      }
      assert subjects[..|subjects|] == subjects;
      thrown, k := false, |subjects|;
    }

    /** A promise is settled at most once, and until then the task waits, runs or is just ending. */
    lemma OnePlace(t: nat)
      requires Valid() && t < accepted
      ensures multiset(resolved)[t] <= 1 && multiset(started)[t] <= 1
      ensures t in resolved <==> t !in queuedTasks && t !in running && t !in ending
    {
      assert TaskOk(Now(), accepted, t);
      OnceOnly(resolved, t);
      OnceOnly(started, t);
    }

    /** With nothing running or ending, nothing is left: every promise has been settled. */
    lemma AllSettled()
      requires Valid() && running == {} && ending == {}
      ensures queuedTasks == [] && activeTasks == map[] && forall t: nat :: t < accepted ==> t in resolved
    {
      forall t: nat ensures t !in queuedTasks { assert TaskOk(Now(), accepted, t); }
      SomeIn(queuedTasks);
      forall t: nat | t < accepted ensures t in resolved { assert TaskOk(Now(), accepted, t); }
      forall id ensures id !in activeTasks { assert IdOk(Now(), id); }
    }

    /** Of two tasks of a slice the one accepted first is started first, and never beside the other. */
    lemma SliceInOrder(t: nat, u: nat)
      requires Valid() && t < u && SameSlice(Now(), t, u)
      ensures u in started ==> t in started && !(t in running && u in running)
      ensures forall i, j :: 0 <= i < |started| && 0 <= j < |started| && started[i] == t && started[j] == u ==> i < j
    {
      assert TaskOk(Now(), accepted, t) && TaskOk(Now(), accepted, u) && PairOk(Now(), t, u) && PairOk(Now(), u, t);
      forall i, j | 0 <= i < |started| && 0 <= j < |started| && started[i] == t && started[j] == u ensures i < j {
        assert TurnOk(Now(), j, i);
      }
    }
  }

  lemma SomeIn(ids: seq<nat>)
    ensures ids != [] ==> exists t: nat :: t in ids
  {
    if ids != [] { assert ids[0] in ids; }
  }

  lemma {:induction false} OnceOnly(ids: seq<nat>, t: nat)
    requires Distinct(ids)
    ensures multiset(ids)[t] <= 1
  {
    if ids != [] {
      var last := |ids| - 1;
      assert ids == ids[..last] + [ids[last]];
      OnceOnly(ids[..last], t);
      assert ids[last] !in ids[..last];
    }
  }
}
