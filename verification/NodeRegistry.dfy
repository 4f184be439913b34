/** Which nodes are connected, which tasks each of them holds, and the channel tasks are sent over. */
module NodeRegistry {
  import opened Options
  import opened Tasks

  const FINISHED_TASK_HISTORY_LIMIT: nat := 1000

  /** `notify`: sent by this process, so the scheduler waits to hear of it. */
  datatype ActiveTask = ActiveTask(slice: Option<Slice>, notify: bool)

  /** What a node reports of itself; an older node names one busy task only. */
  datatype Info = Info(available: bool, capacity: int, activeIds: seq<string>, busyId: string)

  const EMPTY_INFO := Info(false, 0, [], "")

  datatype LiveNode = LiveNode(version: string, info: Info, lastHeartbeat: int, session: Option<nat>,
                               active: map<string, ActiveTask>, finished: seq<string>)

  datatype Register = Register(nodeId: string, version: string, info: Option<Info>)

  datatype Progress = Progress(nodeId: string, taskId: string, completed: bool, failed: bool)

  /** One bidirectional stream: the node registered on it, if any. */
  datatype Stream = Stream(node: Option<string>, closed: bool)

  function Capacity(node: LiveNode): nat { if node.info.capacity >= 1 then node.info.capacity else 1 }

  predicate Alive(node: LiveNode, now: int, timeout: int) { node.session.Some? && now - node.lastHeartbeat <= timeout }

  /** The node says it is available and holds nothing, or less than its capacity. */
  ghost predicate FreeSlot(node: LiveNode) { node.info.available && (|node.active| == 0 || |node.active| < node.info.capacity) }

  predicate IsRust(node: LiveNode) { |node.version| >= 5 && node.version[..5] == "rust-" }

  predicate HasRoom(node: LiveNode) { node.info.available && |node.active| < Capacity(node) }

  predicate Idle(node: LiveNode, rust: bool, now: int, timeout: int) {
    Alive(node, now, timeout) && HasRoom(node) && (rust ==> IsRust(node))
  }

  /** Every node that came before `n` is busy, away or of another runtime. */
  ghost predicate FirstIdle(nodes: map<string, LiveNode>, order: seq<string>, n: string, rust: bool, now: int, timeout: int) {
    exists before :: before + [n] <= order && forall m :: m in before && m in nodes ==> !Idle(nodes[m], rust, now, timeout)
  }

  /** The node can be given the task now, if it can be reached. */
  predicate Takes(node: LiveNode, task: Task, now: int, timeout: int) {
    Idle(node, task.rust, now, timeout) && task.id !in node.active
  }

  predicate Holds(node: LiveNode, s: Slice) { exists id | id in node.active :: node.active[id].slice == Some(s) }

  predicate HasActiveSlice(nodes: map<string, LiveNode>, s: Slice) { exists n | n in nodes :: Holds(nodes[n], s) }

  function ReportedIds(info: Info): seq<string> {
    if info.activeIds != [] then info.activeIds else if info.busyId != "" then [info.busyId] else []
  }

  predicate IsSpace(c: char) { c == ' ' || '\t' <= c <= '\r' }

  predicate Trimmed(s: string) { s == "" || (!IsSpace(s[0]) && !IsSpace(s[|s| - 1])) }

  function Trim(s: string): (t: string)
    ensures Trimmed(t) && (Trimmed(s) ==> t == s)
  {
    if s == "" then ""
    else if IsSpace(s[0]) then Trim(s[1..])
    else if IsSpace(s[|s| - 1]) then Trim(s[..|s| - 1])
    else s
  }

  /** Trimming removes blanks at either end, and nothing else. */
  lemma {:induction false} TrimIs(s: string) returns (lo: nat, hi: nat)
    ensures lo <= hi <= |s| && Trim(s) == s[lo..hi] && forall i :: 0 <= i < |s| && !(lo <= i < hi) ==> IsSpace(s[i])
    decreases |s|
  {
    lo, hi := 0, |s|;
    if s != "" && IsSpace(s[0]) {
      lo, hi := TrimIs(s[1..]);
      assert forall i :: 0 < i < |s| ==> s[1..][i - 1] == s[i];
      lo, hi := lo + 1, hi + 1;
    } else if s != "" && IsSpace(s[|s| - 1]) {
      lo, hi := TrimIs(s[..|s| - 1]);
      assert forall i :: 0 <= i < |s| - 1 ==> s[..|s| - 1][i] == s[i];
    }
  }

  // ----- finished tasks -----

  ghost predicate Distinct(ids: seq<string>) { forall i, j :: 0 <= i < j < |ids| ==> ids[i] != ids[j] }

  ghost predicate NodeOk(node: LiveNode) {
    && |node.finished| <= FINISHED_TASK_HISTORY_LIMIT
    && Distinct(node.finished)
    && (forall id :: id in node.finished ==> id !in node.active)
  }

  function Forget(ids: seq<string>, id: string): (r: seq<string>)
    ensures |r| <= |ids| && id !in r && forall x :: x in r <==> x in ids && x != id
  {
    if ids == [] then [] else (if ids[0] == id then [] else [ids[0]]) + Forget(ids[1..], id)
  }

  lemma {:induction false} ForgetKeepsDistinct(ids: seq<string>, id: string)
    requires Distinct(ids)
    ensures Distinct(Forget(ids, id))
  {
    if ids != [] {
      var later := Forget(ids[1..], id);
      ForgetKeepsDistinct(ids[1..], id);
      assert Forget(ids, id) == if ids[0] == id then later else [ids[0]] + later;
      forall j | 0 <= j < |later| ensures later[j] != ids[0] {
        assert later[j] in later;
        var k :| 0 <= k < |ids[1..]| && ids[1..][k] == later[j];
        assert ids[k + 1] == later[j];
      }
    }
  }

  /** The youngest finished task is kept last; the oldest is dropped beyond the limit. */
  function Finish(ids: seq<string>, id: string): seq<string> {
    var longer := if id in ids then ids else ids + [id];
    if |longer| > FINISHED_TASK_HISTORY_LIMIT then longer[1..] else longer
  }

  // ----- what the scheduler waits for -----

  function Notified(node: LiveNode): map<string, Option<Slice>> {
    map id | id in node.active && node.active[id].notify :: node.active[id].slice
  }

  function Less<K, V>(m: map<K, V>, keys: set<K>): map<K, V> { map k | k in m && k !in keys :: m[k] }

  function NotifiedAt(nodes: map<string, LiveNode>, n: string): map<string, Option<Slice>> {
    if n in nodes then Notified(nodes[n]) else map[]
  }

  /** Only node `n` changed, and of the tasks it must report exactly `gone` were dropped. */
  ghost predicate Drops(nodes: map<string, LiveNode>, n: string, gone: set<string>, nodes': map<string, LiveNode>) {
    && nodes.Keys <= nodes'.Keys <= nodes.Keys + {n}
    && (forall m :: m in nodes && m != n ==> nodes'[m] == nodes[m])
    && gone <= NotifiedAt(nodes, n).Keys
    && NotifiedAt(nodes', n) == Less(NotifiedAt(nodes, n), gone)
  }

  ghost predicate OnlyForgot(nodes: map<string, LiveNode>, nodes': map<string, LiveNode>) {
    nodes'.Keys == nodes.Keys && forall n :: n in nodes ==> nodes'[n] == nodes[n].(finished := nodes'[n].finished)
  }

  /** A node was asked in vain: every task held stays where it is. */
  ghost predicate Spares(nodes: map<string, LiveNode>, n: string, nodes': map<string, LiveNode>) {
    Drops(nodes, n, {}, nodes') && OnlyForgot(nodes, nodes')
  }

  /** A task taken over from a report is known by what its id is read back as. */
  ghost predicate Restored(node: LiveNode, restore: string -> Option<Slice>) {
    forall id :: id in node.active && !node.active[id].notify ==> node.active[id].slice == restore(id)
  }

  lemma ForgetKeepsNode(node: LiveNode, id: string, restore: string -> Option<Slice>)
    requires NodeOk(node) && Restored(node, restore)
    ensures var node' := node.(finished := Forget(node.finished, id)); NodeOk(node') && Restored(node', restore)
  {
    ForgetKeepsDistinct(node.finished, id);
  }

  lemma OccupyKeepsNode(node: LiveNode, task: Task, restore: string -> Option<Slice>)
    requires NodeOk(node) && Restored(node, restore)
    ensures NodeOk(Occupy(node, task)) && Restored(Occupy(node, task), restore)
  {
    ForgetKeepsDistinct(node.finished, task.id);
  }

  lemma ProgressKeepsNode(node: LiveNode, progress: Progress, now: int, restore: string -> Option<Slice>)
    requires NodeOk(node) && Restored(node, restore)
    ensures NodeOk(Progressed(node, progress, now)) && Restored(Progressed(node, progress, now), restore)
  {
    FinishKeepsDistinct(node.finished, progress.taskId);
  }

  function Occupy(node: LiveNode, task: Task): LiveNode {
    node.(active := node.active[task.id := ActiveTask(Some(task.slice), true)], finished := Forget(node.finished, task.id))
  }

  /** Tasks reported on a new stream are taken over unless known to be active or finished. */
  function Restore(active: map<string, ActiveTask>, finished: seq<string>, ids: seq<string>, restore: string -> Option<Slice>): map<string, ActiveTask>
    decreases |ids|
  {
    if ids == [] then active
    else
      var rest := Restore(active, finished, ids[..|ids| - 1], restore);
      var id := ids[|ids| - 1];
      if id == "" || id in rest || id in finished then rest else rest[id := ActiveTask(restore(id), false)]
  }

  lemma {:induction false} RestoreAdds(active: map<string, ActiveTask>, finished: seq<string>, ids: seq<string>, restore: string -> Option<Slice>)
    ensures var r := Restore(active, finished, ids, restore);
            && (forall id :: id in r <==> id in active || (id in ids && id != "" && id !in finished))
            && (forall id :: id in r ==> r[id] == if id in active then active[id] else ActiveTask(restore(id), false))
  {
    if ids != [] { RestoreAdds(active, finished, ids[..|ids| - 1], restore); }
  }

  /** Tasks already held stay as they are; what a snapshot adds is not waited for. */
  ghost predicate TakesOver(before: map<string, ActiveTask>, after: map<string, ActiveTask>) {
    && (forall id :: id in before ==> id in after && after[id] == before[id])
    && (forall id :: id in after && id !in before ==> !after[id].notify)
  }

  /** The node as a register frame leaves it. */
  function Bind(nodes: map<string, LiveNode>, n: string, stream: nat, register: Register, now: int, timeout: int,
                restore: string -> Option<Slice>): LiveNode
  {
    var known := n in nodes;
    var reconnected := !known || nodes[n].session != Some(stream) || !Alive(nodes[n], now, timeout);
    var node := if known then nodes[n] else LiveNode(register.version, EMPTY_INFO, now, Some(stream), map[], []);
    var named := node.(session := Some(stream), lastHeartbeat := now,
                       version := if register.version != "" then register.version else node.version);
    if register.info.None? then named
    else
      var ids := if reconnected then ReportedIds(register.info.value) else [];
      named.(info := register.info.value, active := Restore(node.active, node.finished, ids, restore))
  }

  /** The frame names the task as one the node is at work on. */
  ghost predicate Reports(info: Info, id: string) { id in info.activeIds || (info.activeIds == [] && id == info.busyId) }

  lemma ReportedIs(info: Info, id: string)
    requires id != ""
    ensures id in ReportedIds(info) <==> Reports(info, id)
  {
  }

  /**
   * A frame that binds a node anew - one not known, or on another stream, or after a silence - takes over
   * every task it reports that is not known to be active or finished; any other frame adds none.
   */
  ghost predicate TakenOver(nodes: map<string, LiveNode>, n: string, stream: nat, info: Info, bound: int, timeout: int,
                            restore: string -> Option<Slice>, active: map<string, ActiveTask>)
  {
    if n in nodes && nodes[n].session == Some(stream) && bound - nodes[n].lastHeartbeat <= timeout then
      forall id :: id in active ==> id in nodes[n].active && active[id] == nodes[n].active[id]
    else
      forall id :: id != "" && Reports(info, id) ==>
        if n in nodes && id in nodes[n].active then id in active && active[id] == nodes[n].active[id]
        else if n in nodes && id in nodes[n].finished then id !in active
        else id in active && active[id] == ActiveTask(restore(id), false)
  }

  /** Tasks a recovering node no longer reports: they ended while nobody listened. */
  function Missing(nodes: map<string, LiveNode>, stream: nat, register: Register, now: int, timeout: int): set<string> {
    if register.nodeId in nodes && register.info.Some?
       && (nodes[register.nodeId].session != Some(stream) || !Alive(nodes[register.nodeId], now, timeout))
    then set id | id in nodes[register.nodeId].active && id !in ReportedIds(register.info.value)
    else {}
  }

  lemma BindTakesOver(nodes: map<string, LiveNode>, n: string, stream: nat, register: Register, now: int, timeout: int,
                      restore: string -> Option<Slice>)
    requires n in nodes ==> NodeOk(nodes[n])
    ensures var node := Bind(nodes, n, stream, register, now, timeout, restore);
            NodeOk(node) && TakesOver(if n in nodes then nodes[n].active else map[], node.active)
            && ((n in nodes ==> Restored(nodes[n], restore)) ==> Restored(node, restore))
  {
    var node := if n in nodes then nodes[n] else LiveNode(register.version, EMPTY_INFO, now, Some(stream), map[], []);
    RestoreAdds(node.active, node.finished, [], restore);
    if register.info.Some? { RestoreAdds(node.active, node.finished, ReportedIds(register.info.value), restore); }
  }

  lemma LessKeepsNode(node: LiveNode, ids: set<string>)
    requires NodeOk(node)
    ensures NodeOk(node.(active := Less(node.active, ids)))
  {
  }

  function NotifiedAmong(active: map<string, ActiveTask>, ids: set<string>): set<string> {
    set id | id in ids && id in active && active[id].notify
  }

  /** A progress frame counts when it is for an active task of the node registered on its stream. */
  predicate Concerns(nodes: map<string, LiveNode>, state: Stream, progress: Progress) {
    state.node == Some(progress.nodeId) && progress.nodeId in nodes && progress.taskId in nodes[progress.nodeId].active
  }

  function Progressed(node: LiveNode, progress: Progress, now: int): LiveNode {
    if !(progress.failed || progress.completed) then node.(lastHeartbeat := now)
    else node.(lastHeartbeat := now, active := Less(node.active, {progress.taskId}), finished := Finish(node.finished, progress.taskId))
  }

  /** The task's slot is free, and the task is remembered as finished; of a thousand remembered only the oldest may go. */
  ghost predicate EndsTask(node: LiveNode, id: string, node': LiveNode) {
    && id !in node'.active && (forall x :: x != id ==> (x in node'.active <==> x in node.active))
    && (forall x :: x in node'.active ==> node'.active[x] == node.active[x])
    && id in node'.finished && forall i :: 0 <= i < |node.finished| ==>
         node.finished[i] in node'.finished || (i == 0 && |node.finished| == FINISHED_TASK_HISTORY_LIMIT)
  }

  lemma ProgressEnds(node: LiveNode, progress: Progress, now: int)
    requires NodeOk(node) && (progress.failed || progress.completed)
    ensures EndsTask(node, progress.taskId, Progressed(node, progress, now))
  {
    var ids, id := node.finished, progress.taskId;
    if id !in ids {
      var longer := ids + [id];
      assert longer[|ids|] == id && forall i :: 0 <= i < |ids| ==> longer[i] == ids[i];
      if |longer| > FINISHED_TASK_HISTORY_LIMIT {
        assert longer[1..][|ids| - 1] == id;
        forall i | 1 <= i < |ids| ensures ids[i] in longer[1..] { assert longer[1..][i - 1] == ids[i]; }
      }
    }
  }

  lemma BindDrops(nodes: map<string, LiveNode>, n: string, stream: nat, register: Register, now: int, timeout: int,
                  restore: string -> Option<Slice>, missing: set<string>)
    requires n in nodes ==> NodeOk(nodes[n])
    ensures var node := Bind(nodes, n, stream, register, now, timeout, restore);
            Drops(nodes, n, NotifiedAmong(node.active, missing), nodes[n := node.(active := Less(node.active, missing))])
    ensures missing == {} ==> Drops(nodes, n, {}, nodes[n := Bind(nodes, n, stream, register, now, timeout, restore)])
  {
    BindTakesOver(nodes, n, stream, register, now, timeout, restore);
    var node := Bind(nodes, n, stream, register, now, timeout, restore);
    ReleaseDrops(nodes, n, missing, node, nodes[n := node.(active := Less(node.active, missing))]);
    assert missing == {} ==> NotifiedAmong(node.active, missing) == {} && Less(node.active, missing) == node.active;
  }

  lemma ReleaseDrops(nodes: map<string, LiveNode>, n: string, missing: set<string>, bound: LiveNode, nodes': map<string, LiveNode>)
    requires nodes'.Keys == nodes.Keys + {n} && nodes'[n].active == Less(bound.active, missing)
    requires forall m :: m in nodes && m != n ==> nodes'[m] == nodes[m]
    requires TakesOver(if n in nodes then nodes[n].active else map[], bound.active)
    ensures Drops(nodes, n, NotifiedAmong(bound.active, missing), nodes')
  {
  }

  /** What a register frame does to the nodes, by how far it gets. */
  ghost predicate Registered(nodes: map<string, LiveNode>, stream: nat, register: Register, checked: int, bound: int, timeout: int,
                             restore: string -> Option<Slice>, binding: Binding, nodes': map<string, LiveNode>)
  {
    var n, missing := Trim(register.nodeId), Missing(nodes, stream, register, checked, timeout);
    var node := Bind(nodes, n, stream, register, bound, timeout, restore);
    match binding
    case Rejected => n == "" && nodes' == nodes
    case AckFailed => nodes' == if n == "" then nodes else nodes[n := node]
    case Bound(m, gone, _) =>
      m == n != "" && nodes' == nodes[n := node.(active := Less(node.active, missing))] && gone == NotifiedAmong(node.active, missing)
  }

  lemma RegisteredDrops(nodes: map<string, LiveNode>, stream: nat, register: Register, checked: int, bound: int, timeout: int,
                        restore: string -> Option<Slice>, binding: Binding, nodes': map<string, LiveNode>)
    requires Registered(nodes, stream, register, checked, bound, timeout, restore, binding, nodes')
    requires forall n :: n in nodes ==> NodeOk(nodes[n])
    ensures Drops(nodes, Trim(register.nodeId), if binding.Bound? then binding.gone else {}, nodes')
  {
    var n, missing := Trim(register.nodeId), Missing(nodes, stream, register, checked, timeout);
    BindDrops(nodes, n, stream, register, bound, timeout, restore, if binding.Bound? then missing else {});
  }

  /** What a bound frame says of the node is noted, and what it reports after an absence is taken over. */
  lemma RegisteredTakesOver(nodes: map<string, LiveNode>, stream: nat, register: Register, checked: int, bound: int, timeout: int,
                            restore: string -> Option<Slice>, binding: Binding, nodes': map<string, LiveNode>)
    requires Registered(nodes, stream, register, checked, bound, timeout, restore, binding, nodes') && binding.Bound?
    requires (forall n :: n in nodes ==> NodeOk(nodes[n]) && Trimmed(n)) && checked <= bound
    ensures binding.node in nodes' && nodes'[binding.node].session == Some(stream) && nodes'[binding.node].lastHeartbeat == bound
    ensures register.info.Some? ==> nodes'[binding.node].info == register.info.value
    ensures register.version != "" ==> nodes'[binding.node].version == register.version
    ensures register.info.Some? ==>
      TakenOver(nodes, binding.node, stream, register.info.value, bound, timeout, restore, nodes'[binding.node].active)
  {
    var n, missing := Trim(register.nodeId), Missing(nodes, stream, register, checked, timeout);
    if register.info.Some? {
      var info := register.info.value;
      var node := if n in nodes then nodes[n] else LiveNode(register.version, EMPTY_INFO, bound, Some(stream), map[], []);
      RestoreAdds(node.active, node.finished, ReportedIds(info), restore);
      RestoreAdds(node.active, node.finished, [], restore);
      forall id | id != "" ensures id in ReportedIds(info) <==> Reports(info, id) { ReportedIs(info, id); }
    }
  }

  /** The node answers after an absence: on another stream, or on its own after too long a silence. */
  predicate Returns(nodes: map<string, LiveNode>, n: string, stream: nat, now: int, timeout: int) {
    n in nodes && (nodes[n].session != Some(stream) || !Alive(nodes[n], now, timeout))
  }

  /** The awaited tasks a returning node's snapshot should end: those it does not name. */
  ghost function Owed(nodes: map<string, LiveNode>, stream: nat, register: Register, now: int, timeout: int): set<string> {
    var n := Trim(register.nodeId);
    if Returns(nodes, n, stream, now, timeout) && register.info.Some?
    then NotifiedAt(nodes, n).Keys - (set id | id in ReportedIds(register.info.value)) else {}
  }

  /**
   * A returning node's snapshot ends exactly the awaited tasks it does not name - when the node spells
   * its own id without surrounding blanks. With blanks it is looked up under a name nobody has, and
   * nothing ends, although the frame is then bound to the node all the same.
   */
  lemma SnapshotEnds(nodes: map<string, LiveNode>, stream: nat, register: Register, checked: int, bound: int, timeout: int,
                     restore: string -> Option<Slice>, binding: Binding, nodes': map<string, LiveNode>)
    requires Registered(nodes, stream, register, checked, bound, timeout, restore, binding, nodes') && binding.Bound?
    requires forall n :: n in nodes ==> NodeOk(nodes[n]) && Trimmed(n)
    ensures binding.gone == if Trimmed(register.nodeId) then Owed(nodes, stream, register, checked, timeout) else {}
    ensures binding.gone == Owed(nodes, stream, register, checked, timeout)
            <==> Trimmed(register.nodeId) || Owed(nodes, stream, register, checked, timeout) == {}
    ensures binding.node == Trim(register.nodeId) && binding.node in nodes'
  {
    var n := Trim(register.nodeId);
    BindTakesOver(nodes, n, stream, register, bound, timeout, restore);
  }

  /** A node comes back on another stream, its id blank-padded, and reports nothing: its task stays awaited. */
  lemma BlankIdEndsNothing(restore: string -> Option<Slice>)
    returns (nodes: map<string, LiveNode>, register: Register, nodes': map<string, LiveNode>)
    ensures NotifiedAt(nodes, "n").Keys == {"t"} && Owed(nodes, 1, register, 0, 0) == {"t"}
    ensures Registered(nodes, 1, register, 0, 0, 0, restore, Bound("n", {}, 0), nodes')
    ensures nodes'["n"].session == Some(1) && NotifiedAt(nodes', "n").Keys == {"t"}
  {
    var info := Info(true, 1, [], "");
    nodes := map["n" := LiveNode("rust-1", info, 0, Some(0), map["t" := ActiveTask(None, true)], [])];
    register := Register(" n", "rust-1", Some(info));
    var node := Bind(nodes, "n", 1, register, 0, 0, restore);
    nodes' := nodes["n" := node];
    assert " n"[1..] == "n" && Trim(" n") == "n";
    assert Less(node.active, {}) == node.active;
    assert node.(active := Less(node.active, {})) == node;
  }

  /** Nothing changes, or a finished task is forgotten: either way every task held stays as it is. */
  lemma ForgetsOnly(nodes: map<string, LiveNode>, n: string, id: string)
    ensures Spares(nodes, n, nodes)
    ensures n in nodes ==> Spares(nodes, n, nodes[n := nodes[n].(finished := Forget(nodes[n].finished, id))])
  {
    assert NotifiedAt(nodes, n) == Less(NotifiedAt(nodes, n), {});
    if n in nodes {
      var nodes' := nodes[n := nodes[n].(finished := Forget(nodes[n].finished, id))];
      assert NotifiedAt(nodes', n) == NotifiedAt(nodes, n);
    }
  }

  /** Whoever takes a task is live and has a free slot for it. */
  lemma TakesHasRoom(node: LiveNode, task: Task, now: int, timeout: int)
    requires Takes(node, task, now, timeout)
    ensures node.session.Some? && now - node.lastHeartbeat <= timeout && node.info.available && (task.rust ==> "rust-" <= node.version)
    ensures task.id !in node.active && Occupy(node, task).active == node.active[task.id := ActiveTask(Some(task.slice), true)]
    ensures |Occupy(node, task).active| == |node.active| + 1 && Occupy(node, task).info == node.info
    ensures |node.active| == 0 || |node.active| < node.info.capacity
  {
    assert Occupy(node, task).active.Keys == node.active.Keys + {task.id};
  }

  datatype Binding = Rejected | AckFailed | Bound(node: string, gone: set<string>, roomBefore: int)

  class NodeRegistry {
    const timeout: int
    const restore: string -> Option<Slice>
    const delivers: nat -> bool       // whether the n-th send goes through
    var nodes: map<string, LiveNode>
    var order: seq<string>
    var streams: seq<Stream>
    var clock: int
    var sends: nat

    ghost predicate Valid()
      reads this
    {
      && (forall n :: n in order <==> n in nodes)
      && (forall n :: n in nodes ==> NodeOk(nodes[n]) && Restored(nodes[n], restore) && Trimmed(n) && n != "")
    }

    constructor (timeout: int, restore: string -> Option<Slice>, delivers: nat -> bool)
      ensures Valid() && nodes == map[] && streams == []
      ensures this.timeout == timeout && this.restore == restore && this.delivers == delivers
    {
      this.timeout, this.restore, this.delivers := timeout, restore, delivers;
      nodes, order, streams, clock, sends := map[], [], [], 0, 0;
    }

    /** The clock never goes backwards, and may move between any two readings. */
    method ReadClock() returns (now: int)
      modifies this`clock
      ensures now == clock >= old(clock)
    {
      var passed: int := *;
      if passed > 0 { clock := clock + passed; }
      now := clock;
    }

    /** The first node with room in order of arrival. */
    method PickIdleNode(rust: bool) returns (picked: Option<string>)
      requires Valid()
      modifies this`clock
      ensures Valid() && clock >= old(clock)
      ensures picked.Some? ==> picked.value in nodes && Idle(nodes[picked.value], rust, clock, timeout)
      ensures picked.Some? ==> FirstIdle(nodes, order, picked.value, rust, clock, timeout)
      ensures picked.None? ==> forall n :: n in nodes ==> !Idle(nodes[n], rust, clock, timeout)
      ensures picked.Some? ==> var node := nodes[picked.value];
        && node.session.Some? && clock - node.lastHeartbeat <= timeout && node.info.available && (rust ==> "rust-" <= node.version)
        && (|node.active| == 0 || |node.active| < node.info.capacity)
      ensures picked.None? ==> forall n :: n in nodes && nodes[n].session.Some? && clock - nodes[n].lastHeartbeat <= timeout
                                           && nodes[n].info.available && (rust ==> "rust-" <= nodes[n].version) ==>
        |nodes[n].active| >= 1 && |nodes[n].active| >= nodes[n].info.capacity
    {
      hide NodeOk, Restored, Trimmed;
      var now := ReadClock();
      for i := 0 to |order|
        invariant forall k :: 0 <= k < i ==> !Idle(nodes[order[k]], rust, now, timeout)
      {
        if Idle(nodes[order[i]], rust, now, timeout) {
          assert order[..i] + [order[i]] <= order && forall m :: m in order[..i] ==> !Idle(nodes[m], rust, now, timeout);
          return Some(order[i]);
        }
      }
      picked := None;
    }

    /** Reserves the slot before sending and rolls it back when the send fails. */
    method DispatchTask(nodeId: string, task: Task) returns (accepted: bool)
      requires Valid()
      modifies this`nodes, this`clock, this`sends
      ensures Valid() && clock >= old(clock)
      ensures sends == old(sends) + if nodeId in old(nodes) && Takes(old(nodes)[nodeId], task, clock, timeout) then 1 else 0
      ensures accepted <==> nodeId in old(nodes) && Takes(old(nodes)[nodeId], task, clock, timeout) && delivers(old(sends))
      ensures accepted ==> nodes == old(nodes)[nodeId := Occupy(old(nodes)[nodeId], task)]
      ensures !accepted ==> Spares(old(nodes), nodeId, nodes)
      ensures accepted ==> var node := old(nodes)[nodeId];
        && node.session.Some? && clock - node.lastHeartbeat <= timeout && node.info.available && (task.rust ==> "rust-" <= node.version)
        && task.id !in node.active && nodes[nodeId].active == node.active[task.id := ActiveTask(Some(task.slice), true)]
        && (|nodes[nodeId].active| == 1 || |nodes[nodeId].active| <= nodes[nodeId].info.capacity)
    {
      hide NodeOk, Restored, Trimmed, Takes, Forget, Occupy, Spares;
      var now := ReadClock();
      ForgetsOnly(nodes, nodeId, task.id);
      if nodeId !in nodes || !Takes(nodes[nodeId], task, now, timeout) { return false; }
      var node := nodes[nodeId];
      ForgetKeepsNode(node, task.id, restore);
      OccupyKeepsNode(node, task, restore);
      TakesHasRoom(node, task, now, timeout);
      accepted := delivers(sends);
      sends := sends + 1;
      if accepted {
        nodes := nodes[nodeId := Occupy(node, task)];
      } else {
        nodes := nodes[nodeId := node.(finished := Forget(node.finished, task.id))];
      }
    }

    method OpenSession() returns (stream: nat)
      modifies this`streams
      ensures stream == |old(streams)| && streams == old(streams) + [Stream(None, false)]
    {
      stream := |streams|;
      streams := streams + [Stream(None, false)];
    }

    /** A frame of a closed stream, or of one another stream has replaced, is ignored. */
    predicate Stale(stream: nat): (stale: bool)
      requires stream < |streams|
      reads this
      ensures streams[stream].closed ==> stale
      ensures !streams[stream].closed && streams[stream].node.None? ==> !stale
      ensures forall n :: !streams[stream].closed && streams[stream].node == Some(n) ==>
        (stale <==> !(n in nodes && nodes[n].session == Some(stream)))
    {
      var state := streams[stream];
      state.closed || (state.node.Some? && (state.node.value !in nodes || nodes[state.node.value].session != Some(stream)))
    }

    function RoomOf(n: string): (room: int)
      reads this
      ensures room > 0 <==> n in nodes && FreeSlot(nodes[n])
    {
      if n in nodes && nodes[n].info.available then Capacity(nodes[n]) - |nodes[n].active| else 0
    }

    /**
     * A register frame or heartbeat. On a new stream, or after a silence, the reported tasks are a
     * snapshot: unknown ones are taken over, and ones missing from it are dropped.
     */
    method ApplyRegister(stream: nat, register: Register) returns (binding: Binding, ghost checked: int, ghost bound: int)
      requires Valid() && stream < |streams| && !Stale(stream)
      modifies this
      ensures Valid() && |streams| == |old(streams)| && old(clock) <= checked <= bound <= clock
      ensures Registered(old(nodes), stream, register, checked, bound, timeout, restore, binding, nodes)
      ensures binding.Bound? ==> streams == old(streams)[stream := Stream(Some(binding.node), false)]
      ensures binding.Bound? && register.info.Some? ==>
        TakenOver(old(nodes), binding.node, stream, register.info.value, bound, timeout, restore, nodes[binding.node].active)
      ensures binding.Bound? && binding.roomBefore > 0 ==>
        binding.node in old(nodes) && old(nodes)[binding.node].session.Some? && FreeSlot(old(nodes)[binding.node])
    {
      hide Trimmed, Bind, NodeOk, ReportedIds, TakenOver;
      ghost var before := nodes;
      var existing := register.nodeId in nodes;
      var now := ReadClock();
      var roomBefore := if existing && Alive(nodes[register.nodeId], now, timeout) then RoomOf(register.nodeId) else 0;
      now := ReadClock();
      checked, bound := now, now;
      var missing := Missing(nodes, stream, register, now, timeout);
      var nodeId := Trim(register.nodeId);
      var acknowledged: bool := *;
      if nodeId == "" {
        if acknowledged { streams := streams[stream := streams[stream].(closed := true)]; }
        return if acknowledged then Rejected else AckFailed, checked, bound;
      }
      now := ReadClock();
      bound := now;
      BindNode(stream, nodeId, register, now);
      if !acknowledged { return AckFailed, checked, bound; }
      var gone := ReleaseMissing(stream, nodeId, missing);
      binding := Bound(nodeId, gone, roomBefore);
      RegisteredTakesOver(before, stream, register, checked, bound, timeout, restore, binding, nodes);
    }

    method BindNode(stream: nat, nodeId: string, register: Register, now: int)
      requires Valid() && nodeId != "" && Trimmed(nodeId)
      modifies this`nodes, this`order
      ensures Valid() && nodes == old(nodes)[nodeId := Bind(old(nodes), nodeId, stream, register, now, timeout, restore)]
    {
      BindTakesOver(nodes, nodeId, stream, register, now, timeout, restore);
      var known := nodeId in nodes;
      var reconnected := !known || nodes[nodeId].session != Some(stream) || !Alive(nodes[nodeId], now, timeout);
      var node := if known then nodes[nodeId] else LiveNode(register.version, EMPTY_INFO, now, Some(stream), map[], []);
      node := node.(session := Some(stream));
      if register.version != "" { node := node.(version := register.version); }
      if register.info.Some? {
        node := node.(info := register.info.value);
        if reconnected {
          node := node.(active := Restore(node.active, node.finished, ReportedIds(node.info), restore));
        }
      }
      node := node.(lastHeartbeat := now);
      if !known { order := order + [nodeId]; }
      nodes := nodes[nodeId := node];
    }

    method ReleaseMissing(stream: nat, nodeId: string, missing: set<string>) returns (gone: set<string>)
      requires Valid() && nodeId in nodes && stream < |streams|
      modifies this`nodes, this`streams
      ensures Valid() && streams == old(streams)[stream := old(streams)[stream].(node := Some(nodeId))]
      ensures nodes == old(nodes)[nodeId := old(nodes)[nodeId].(active := Less(old(nodes)[nodeId].active, missing))]
      ensures gone == NotifiedAmong(old(nodes)[nodeId].active, missing)
    {
      streams := streams[stream := streams[stream].(node := Some(nodeId))];
      var node := nodes[nodeId];
      LessKeepsNode(node, missing);
      nodes := nodes[nodeId := node.(active := Less(node.active, missing))];
      gone := NotifiedAmong(node.active, missing);
    }

    /** A progress frame; the last one of a task frees its slot and tells whether the scheduler waits for it. */
    method ApplyProgress(stream: nat, progress: Progress) returns (ended: bool, gone: set<string>)
      requires Valid() && stream < |streams| && !Stale(stream)
      modifies this`nodes, this`clock
      ensures Valid() && clock >= old(clock)
      ensures ended <==> Concerns(old(nodes), streams[stream], progress) && (progress.completed || progress.failed)
      ensures gone == if ended && old(nodes)[progress.nodeId].active[progress.taskId].notify then {progress.taskId} else {}
      ensures nodes == if Concerns(old(nodes), streams[stream], progress)
                       then old(nodes)[progress.nodeId := Progressed(old(nodes)[progress.nodeId], progress, clock)] else old(nodes)
      ensures Drops(old(nodes), progress.nodeId, gone, nodes)
      ensures streams[stream].node != Some(progress.nodeId) ==> nodes == old(nodes) && !ended
      ensures ended ==> progress.nodeId in old(nodes) && progress.nodeId in nodes
                        && EndsTask(old(nodes)[progress.nodeId], progress.taskId, nodes[progress.nodeId])
    {
      hide NodeOk, Restored, Trimmed, Finish, EndsTask;
      var nodeId := progress.nodeId;
      if !Concerns(nodes, streams[stream], progress) { return false, {}; }
      var node := nodes[nodeId];
      var now := ReadClock();
      ended := progress.failed || progress.completed;
      gone := if ended && node.active[progress.taskId].notify then {progress.taskId} else {};
      node := node.(lastHeartbeat := now);
      if ended {
        node := node.(active := Less(node.active, {progress.taskId}), finished := Finish(node.finished, progress.taskId));
      }
      ProgressKeepsNode(nodes[nodeId], progress, now, restore);
      if ended { ProgressEnds(nodes[nodeId], progress, now); }
      nodes := nodes[nodeId := node];
    }

    /** The stream ended. Only the stream the node is now bound to takes it offline. */
    method Detach(stream: nat)
      requires Valid() && stream < |streams|
      modifies this`nodes, this`streams
      ensures Valid() && |streams| == old(|streams|)
      ensures nodes.Keys == old(nodes).Keys && forall n :: n in nodes ==>
        nodes[n] == if !old(streams)[stream].closed && old(streams)[stream].node == Some(n) && old(nodes)[n].session == Some(stream)
                    then old(nodes)[n].(session := None) else old(nodes)[n]
    {
      var state := streams[stream];
      if state.closed { return; }
      streams := streams[stream := Stream(None, true)];
      if state.node.Some? && state.node.value in nodes && nodes[state.node.value].session == Some(stream) {
        nodes := nodes[state.node.value := nodes[state.node.value].(session := None)];
      }
    }

    /** The patrol's turn for one node: a dead node's tasks are released together. */
    method Reconcile(n: string) returns (gone: set<string>)
      requires Valid()
      modifies this`nodes, this`clock
      ensures Valid() && clock >= old(clock)
      ensures Drops(old(nodes), n, gone, nodes)
      ensures nodes == if n in old(nodes) && !Alive(old(nodes)[n], clock, timeout)
                       then old(nodes)[n := old(nodes)[n].(active := map[])] else old(nodes)
      ensures n in old(nodes) && !Alive(old(nodes)[n], clock, timeout) ==> gone == NotifiedAt(old(nodes), n).Keys
    {
      var now := ReadClock();
      gone := {};
      if n in nodes && !Alive(nodes[n], now, timeout) {
        gone := Notified(nodes[n]).Keys;
        nodes := nodes[n := nodes[n].(active := map[])];
      }
    }
  }

  lemma FinishKeepsDistinct(ids: seq<string>, id: string)
    requires Distinct(ids) && |ids| <= FINISHED_TASK_HISTORY_LIMIT
    ensures Distinct(Finish(ids, id)) && |Finish(ids, id)| <= FINISHED_TASK_HISTORY_LIMIT
    ensures forall x :: x in Finish(ids, id) ==> x == id || x in ids
  {
  }

  // ----- what the registry and the scheduler agree on -----

  /**
   * Every task the scheduler waits for is held, to be reported, by exactly one node, or has just been
   * released and is about to be settled. No node will report any other.
   */
  ghost predicate Linked(nodes: map<string, LiveNode>, dispatched: map<string, Task>, holder: map<string, string>, pending: set<string>) {
    && holder.Keys + pending == dispatched.Keys && holder.Keys !! pending
    && (forall id {:trigger Awaited(nodes, dispatched, holder, id)} :: id in holder ==> Awaited(nodes, dispatched, holder, id))
    && (forall n, id {:trigger WillReport(nodes, n, id)} :: WillReport(nodes, n, id) ==> id in holder && holder[id] == n)
  }

  ghost predicate WillReport(nodes: map<string, LiveNode>, n: string, id: string) { id in NotifiedAt(nodes, n) }

  ghost predicate Awaited(nodes: map<string, LiveNode>, dispatched: map<string, Task>, holder: map<string, string>, id: string) {
    && id in holder && id in dispatched && WillReport(nodes, holder[id], id)
    && NotifiedAt(nodes, holder[id])[id] == Some(dispatched[id].slice)
  }

  /** Between turns nothing is pending: sent tasks and reports to come are the same, one for one. */
  lemma HeldExactlyOnce(nodes: map<string, LiveNode>, dispatched: map<string, Task>, holder: map<string, string>, id: string)
    requires Linked(nodes, dispatched, holder, {})
    ensures id in dispatched <==> exists n :: n in nodes && id in nodes[n].active && nodes[n].active[id].notify
    ensures forall n, m :: id in NotifiedAt(nodes, n) && id in NotifiedAt(nodes, m) ==> n == m
  {
    if id in dispatched {
      assert Awaited(nodes, dispatched, holder, id);
    }
    if n :| n in nodes && id in nodes[n].active && nodes[n].active[id].notify {
      assert WillReport(nodes, n, id);
    }
    forall n, m | id in NotifiedAt(nodes, n) && id in NotifiedAt(nodes, m) ensures n == m {
      assert WillReport(nodes, n, id) && WillReport(nodes, m, id);
    }
  }

  lemma LinkDrops(nodes: map<string, LiveNode>, n: string, gone: set<string>, nodes': map<string, LiveNode>,
                  dispatched: map<string, Task>, holder: map<string, string>, pending: set<string>)
    requires Linked(nodes, dispatched, holder, pending) && Drops(nodes, n, gone, nodes')
    ensures Linked(nodes', dispatched, Less(holder, gone), pending + gone) && pending !! gone
  {
    var holder' := Less(holder, gone);
    forall m, id | WillReport(nodes', m, id) ensures id in holder' && holder'[id] == m {
      assert WillReport(nodes, m, id);
      if id in gone { assert WillReport(nodes, n, id); }
    }
    forall id | id in gone ensures id in holder && id !in pending { assert WillReport(nodes, n, id); }
    forall id | id in holder' ensures Awaited(nodes', dispatched, holder', id) {
      assert Awaited(nodes, dispatched, holder, id) && id !in gone;
      if holder[id] != n { assert NotifiedAt(nodes', holder[id]) == NotifiedAt(nodes, holder[id]); }
    }
  }

  lemma LinkKeeps(nodes: map<string, LiveNode>, n: string, nodes': map<string, LiveNode>,
                  dispatched: map<string, Task>, holder: map<string, string>, pending: set<string>)
    requires Linked(nodes, dispatched, holder, pending) && Drops(nodes, n, {}, nodes')
    ensures Linked(nodes', dispatched, holder, pending)
  {
    LinkDrops(nodes, n, {}, nodes', dispatched, holder, pending);
    assert Less(holder, {}) == holder && pending + {} == pending;
  }

  lemma OccupyNotifies(node: LiveNode, task: Task)
    ensures Notified(Occupy(node, task)) == Notified(node)[task.id := Some(task.slice)]
  {
  }

  lemma LinkSends(nodes: map<string, LiveNode>, n: string, task: Task, nodes': map<string, LiveNode>,
                  dispatched: map<string, Task>, holder: map<string, string>, pending: set<string>)
    requires Linked(nodes, dispatched, holder, pending) && task.id !in dispatched
    requires n in nodes && nodes' == nodes[n := Occupy(nodes[n], task)]
    ensures Linked(nodes', dispatched[task.id := task], holder[task.id := n], pending)
  {
    var holder', dispatched' := holder[task.id := n], dispatched[task.id := task];
    OccupyNotifies(nodes[n], task);
    assert holder'.Keys == holder.Keys + {task.id};
    forall m, id | WillReport(nodes', m, id) ensures id in holder' && holder'[id] == m {
      if !(m == n && id == task.id) { assert WillReport(nodes, m, id); }
    }
    forall id | id in holder' ensures Awaited(nodes', dispatched', holder', id) {
      if id != task.id { assert Awaited(nodes, dispatched, holder, id); }
    }
  }

  lemma LinkSettles(nodes: map<string, LiveNode>, dispatched: map<string, Task>, holder: map<string, string>, pending: set<string>, id: string)
    requires Linked(nodes, dispatched, holder, pending) && id in pending
    ensures Linked(nodes, Less(dispatched, {id}), holder, pending - {id})
  {
    var dispatched' := Less(dispatched, {id});
    forall k | k in holder ensures Awaited(nodes, dispatched', holder, k) {
      assert Awaited(nodes, dispatched, holder, k);
      assert k in holder.Keys && k !in pending;
    }
    assert dispatched'.Keys == dispatched.Keys - {id};
  }
}
