/** The commit protocol of one Rust cleaning attempt, as a state machine. */
module SliceCommit {
  // Redis holds the lease, the done key and the incomplete marker; ClickHouse holds two tables whose
  // inserts are not atomic. Every await is a step. A command once sent may take effect at any later time
  // and any number of times, whether or not its reply arrives; an attempt may die anywhere.

  import opened Options
  import opened OutputTables
  import opened RetryConvergence
  import TaskIds

  type Slice = TaskIds.Slice
  type TaskId = string

  datatype Command =
    | Acquire(slice: Slice, owner: nat)
    | Release(slice: Slice, owner: nat)
    | MarkIncomplete(slice: Slice)
    | ClearIncomplete(slice: Slice)
    | MarkDone(task: TaskId)
    | InsertEvents(slice: Slice, events: seq<Event>)
    | InsertTuples(slice: Slice, tuples: seq<Tuple>)

  /** One table's half of a batch: rows in the current request, whether they landed, rows behind it. */
  datatype Write<T> = Idle | Sending(sent: seq<T>, landed: bool, rest: seq<T>) | Stored

  datatype Work = Work(unread: seq<Event>, processed: seq<Event>, batch: seq<Event>,
                       events: Write<Event>, tuples: Write<Tuple>)

  datatype Phase =
    | Asking(acquired: Option<bool>, completed: Option<bool>)
    | Marking(landed: bool)
    | Cleaning(work: Work)
    | Committing(landed: bool)
    | Clearing
    | Skipping
    | Ended

  datatype Attempt = Attempt(task: TaskId, slice: Slice, phase: Phase)

  datatype World = World(lease: map<Slice, nat>, done: set<TaskId>, incomplete: set<Slice>,
                         tables: map<Slice, Tables>, wire: set<Command>, attempts: map<nat, Attempt>)

  /** The fixed source slices, and which task ids are submitted for which slices. */
  datatype Env = Env(source: Slice -> seq<Event>, uses: set<(TaskId, Slice)>)

  function TablesOf(w: World, s: Slice): Tables { if s in w.tables then w.tables[s] else EMPTY }

  const INIT := World(map[], {}, {}, map[], {}, map[])

  // ----- steps -----

  function SetPhase(w: World, a: nat, phase: Phase): World
    requires a in w.attempts
  {
    w.(attempts := w.attempts[a := w.attempts[a].(phase := phase)])
  }

  function Send(w: World, cmds: set<Command>): World { w.(wire := w.wire + cmds) }

  function Store(w: World, s: Slice, events: multiset<Event>, tuples: multiset<Tuple>): World {
    var t := TablesOf(w, s);
    w.(tables := w.tables[s := Tables(t.events + events, t.tuples + tuples)])
  }

  /** What a command does when it reaches its server; an insert may store any part of its rows. */
  ghost predicate Executes(w: World, c: Command, w': World) {
    match c
    case Acquire(s, o) => w' == if s in w.lease then w else w.(lease := w.lease[s := o])
    case Release(s, o) => w' == if s in w.lease && w.lease[s] == o then w.(lease := w.lease - {s}) else w
    case MarkIncomplete(s) => w' == w.(incomplete := w.incomplete + {s})
    case ClearIncomplete(s) => w' == w.(incomplete := w.incomplete - {s})
    case MarkDone(t) => w' == w.(done := w.done + {t})
    case InsertEvents(s, rows) => exists part :: part <= multiset(rows) && w' == Store(w, s, part, multiset{})
    case InsertTuples(s, rows) => exists part :: part <= multiset(rows) && w' == Store(w, s, multiset{}, part)
  }

  /** Steps of the environment: delayed or repeated commands, and expiry of leases and done keys. */
  ghost predicate EnvironmentStep(w: World, w': World) {
    || (exists c :: c in w.wire && Executes(w, c, w'))
    || (exists s :: w' == w.(lease := w.lease - {s}))
    || (exists t :: w' == w.(done := w.done - {t}))
  }

  ghost predicate Submits(env: Env, w: World, a: nat, w': World) {
    && a !in w.attempts
    && exists task, slice :: (task, slice) in env.uses
         && w' == Send(w.(attempts := w.attempts[a := Attempt(task, slice, Asking(None, None))]), {Acquire(slice, a)})
  }

  /** `begin_attempt`: two overlapping questions, then wait again, skip, or mark the slice. */
  ghost predicate Begins(w: World, a: nat, w': World)
    requires a in w.attempts && w.attempts[a].phase.Asking?
  {
    var Attempt(task, s, Asking(acquired, completed)) := w.attempts[a];
    || (acquired.None?
        && w' == SetPhase(if s in w.lease then w else w.(lease := w.lease[s := a]), a, Asking(Some(s !in w.lease), completed)))
    || (completed.None? && w' == SetPhase(w, a, Asking(acquired, Some(task in w.done))))
    || (acquired.Some? && completed.Some? && w' == Decided(w, a, s, acquired.value, completed.value))
  }

  function Decided(w: World, a: nat, s: Slice, acquired: bool, completed: bool): World
    requires a in w.attempts
  {
    if !acquired then Send(SetPhase(w, a, Asking(None, None)), {Acquire(s, a)})
    else if completed then Send(SetPhase(w, a, Skipping), {ClearIncomplete(s)})
    else Send(SetPhase(w, a, Marking(false)), {MarkIncomplete(s)})
  }

  /** The marker's reply opens the read; a response may be cut short, in any row order. */
  ghost predicate Marks(env: Env, w: World, a: nat, w': World)
    requires a in w.attempts && w.attempts[a].phase.Marking?
  {
    var Attempt(task, s, Marking(landed)) := w.attempts[a];
    || w' == SetPhase(w.(incomplete := w.incomplete + {s}), a, Marking(true))
    || (landed && exists unread :: multiset(unread) <= multiset(env.source(s))
                    && w' == SetPhase(w, a, Cleaning(Work(unread, [], [], Idle, Idle))))
  }

  ghost predicate Commits(w: World, a: nat, w': World)
    requires a in w.attempts && w.attempts[a].phase.Committing?
  {
    var Attempt(task, s, Committing(landed)) := w.attempts[a];
    || w' == SetPhase(w.(done := w.done + {task}), a, Committing(true))
    || (landed && w' == Send(SetPhase(w, a, Clearing), {ClearIncomplete(s), Release(s, a)}))
  }

  /** Takes the next rows off the stream. */
  ghost predicate Reads(work: Work, work': Work) {
    && work.batch == []
    && exists n :: 0 < n <= |work.unread| && work' == Work(work.unread[n..], work.processed, work.unread[..n], Idle, Idle)
  }

  /** A lookup answers from the table as it is now; what is missing becomes pending. */
  ghost predicate LooksUp(t: Tables, work: Work, work': Work) {
    var rows := AllTuples(work.batch);
    work.batch != []
    && ((work.events.Idle?
         && work' == work.(events := Sending([], true, PendingEvents(work.batch, ExistingIds(t.events, work.batch)))))
        || (work.tuples.Idle?
            && work' == work.(tuples := Sending([], true, Deduct(rows, ObservedCounts(t.tuples, rows))))))
  }

  /** Everything pending was acknowledged; with both tables done the batch is behind us. */
  ghost predicate Acknowledges(work: Work, work': Work) {
    || (work.events.Sending? && work.events.landed && work.events.rest == [] && work' == work.(events := Stored))
    || (work.tuples.Sending? && work.tuples.landed && work.tuples.rest == [] && work' == work.(tuples := Stored))
    || (work.batch != [] && work.events.Stored? && work.tuples.Stored?
        && work' == Work(work.unread, work.processed + work.batch, [], Idle, Idle))
  }

  function NextChunk<T>(write: Write<T>, k: nat): Write<T>
    requires write.Sending? && k <= |write.rest|
  {
    Sending(write.rest[..k], false, write.rest[k..])
  }

  function SendChunk(w: World, a: nat, work: Work, c: Command): World
    requires a in w.attempts
  {
    Send(SetPhase(w, a, Cleaning(work)), {c})
  }

  ghost predicate SendsEvents(w: World, a: nat, s: Slice, work: Work, w': World)
    requires a in w.attempts
  {
    && work.events.Sending? && work.events.landed
    && exists k :: 0 < k <= |work.events.rest| && w' == SendChunk(w, a, work.(events := NextChunk(work.events, k)), InsertEvents(s, work.events.rest[..k]))
  }

  ghost predicate SendsTuples(w: World, a: nat, s: Slice, work: Work, w': World)
    requires a in w.attempts
  {
    && work.tuples.Sending? && work.tuples.landed
    && exists k :: 0 < k <= |work.tuples.rest| && w' == SendChunk(w, a, work.(tuples := NextChunk(work.tuples, k)), InsertTuples(s, work.tuples.rest[..k]))
  }

  /** The request in flight is stored in full, which is what its acknowledgement will mean. */
  ghost predicate Lands(w: World, a: nat, s: Slice, work: Work, w': World)
    requires a in w.attempts
  {
    || (work.events.Sending?
        && w' == SetPhase(Store(w, s, multiset(work.events.sent), multiset{}), a, Cleaning(work.(events := work.events.(landed := true)))))
    || (work.tuples.Sending?
        && w' == SetPhase(Store(w, s, multiset{}, multiset(work.tuples.sent)), a, Cleaning(work.(tuples := work.tuples.(landed := true)))))
  }

  ghost predicate Works(w: World, a: nat, s: Slice, work: Work, w': World)
    requires a in w.attempts
  {
    exists work' :: (Reads(work, work') || LooksUp(TablesOf(w, s), work, work') || Acknowledges(work, work'))
      && w' == SetPhase(w, a, Cleaning(work'))
  }

  /** End of the stream with as many rows as the source counts: only then is the task committed. */
  ghost predicate Finishes(env: Env, w: World, a: nat, work: Work, w': World)
    requires a in w.attempts
  {
    && work.batch == [] && work.unread == [] && |work.processed| == |env.source(w.attempts[a].slice)|
    && w' == Send(SetPhase(w, a, Committing(false)), {MarkDone(w.attempts[a].task)})
  }

  ghost predicate Cleans(env: Env, w: World, a: nat, w': World)
    requires a in w.attempts && w.attempts[a].phase.Cleaning?
  {
    var Attempt(task, s, Cleaning(work)) := w.attempts[a];
    || Works(w, a, s, work, w')
    || SendsEvents(w, a, s, work, w')
    || SendsTuples(w, a, s, work, w')
    || Lands(w, a, s, work, w')
    || Finishes(env, w, a, work, w')
  }

  /** Crash, error, lost lease or normal end: the attempt stops, and may still try to release its lease. */
  ghost predicate Stops(w: World, a: nat, w': World)
    requires a in w.attempts
  {
    || w' == SetPhase(w, a, Ended)
    || w' == Send(SetPhase(w, a, Ended), {Release(w.attempts[a].slice, a)})
  }

  ghost predicate AttemptStep(env: Env, w: World, a: nat, w': World) {
    if a !in w.attempts then Submits(env, w, a, w')
    else
      || Stops(w, a, w')
      || (w.attempts[a].phase.Asking? && Begins(w, a, w'))
      || (w.attempts[a].phase.Marking? && Marks(env, w, a, w'))
      || (w.attempts[a].phase.Cleaning? && Cleans(env, w, a, w'))
      || (w.attempts[a].phase.Committing? && Commits(w, a, w'))
  }

  ghost predicate Next(env: Env, w: World, w': World) {
    EnvironmentStep(w, w') || exists a :: AttemptStep(env, w, a, w')
  }

  ghost predicate Run(env: Env, ws: seq<World>) {
    && ws != [] && ws[0] == INIT
    && forall i :: 0 <= i < |ws| - 1 ==> Next(env, ws[i], ws[i + 1])
  }

  // ----- the invariant -----

  ghost predicate NoSharedIds(uses: set<(TaskId, Slice)>) {
    forall t, a, b :: (t, a) in uses && (t, b) in uses ==> a == b
  }

  ghost predicate SliceComplete(env: Env, w: World, s: Slice) { Complete(TablesOf(w, s), env.source(s)) }

  predicate PastWork(phase: Phase) {
    phase.Committing? || phase.Clearing? || phase.Skipping? || (phase.Asking? && phase.completed == Some(true))
  }

  predicate NeedsMarker(phase: Phase) { phase.Cleaning? || (phase.Marking? && phase.landed) }

  predicate InsertsInto(c: Command, s: Slice) { (c.InsertEvents? || c.InsertTuples?) && c.slice == s }

  /** Before a slice is complete nobody may finish it, and any trace of output is covered by its marker. */
  ghost predicate Guarded(env: Env, w: World, s: Slice) {
    && ClearIncomplete(s) !in w.wire
    && (forall t :: (t, s) in env.uses ==> t !in w.done && MarkDone(t) !in w.wire)
    && (forall a :: a in w.attempts && w.attempts[a].slice == s ==>
          !PastWork(w.attempts[a].phase) && (NeedsMarker(w.attempts[a].phase) ==> s in w.incomplete))
    && (forall c :: c in w.wire && InsertsInto(c, s) ==> s in w.incomplete)
    && (TablesOf(w, s) != EMPTY ==> s in w.incomplete)
  }

  ghost predicate HasRow(t: Tables, e: Event) { exists row :: row in t.events && row.id == e.id }

  function Outstanding<T>(write: Write<T>): seq<T> {
    match write
    case Sending(sent, landed, rest) => (if landed then [] else sent) + rest
    case _ => []
  }

  /** The batch in hand is covered by what is stored together with what is still to be stored. */
  ghost predicate WorkOk(t: Tables, src: seq<Event>, work: Work) {
    && multiset(work.processed) + multiset(work.batch) + multiset(work.unread) <= multiset(src)
    && (forall e :: e in work.processed ==> Covered(t, e))
    && (!work.events.Idle? ==> forall e :: e in work.batch ==> HasRow(t, e) || e in Outstanding(work.events))
    && (!work.tuples.Idle? ==> multiset(AllTuples(work.batch)) <= t.tuples + multiset(Outstanding(work.tuples)))
  }

  ghost predicate AttemptOk(env: Env, w: World, a: nat)
    requires a in w.attempts
  {
    var Attempt(task, s, phase) := w.attempts[a];
    && (task, s) in env.uses
    && (phase.Cleaning? ==> WorkOk(TablesOf(w, s), env.source(s), phase.work))
  }

  ghost predicate Inv(env: Env, w: World) {
    && (forall s :: SliceComplete(env, w, s) || Guarded(env, w, s))
    && (forall a :: a in w.attempts ==> AttemptOk(env, w, a))
  }

  // ----- the invariant is kept by every step -----

  lemma CompleteStays(t: Tables, t': Tables, src: seq<Event>)
    requires Complete(t, src) && Grew(t, t')
    ensures Complete(t', src)
  {
    forall e | e in src ensures Covered(t', e) { CoveredStays(t, t', e); }
  }

  lemma WorkOkStays(t: Tables, t': Tables, src: seq<Event>, work: Work)
    requires WorkOk(t, src, work) && Grew(t, t')
    ensures WorkOk(t', src, work)
  {
    forall e | e in work.processed ensures Covered(t', e) { CoveredStays(t, t', e); }
    if !work.events.Idle? {
      forall e | e in work.batch ensures HasRow(t', e) || e in Outstanding(work.events) {
        if HasRow(t, e) {
          var row :| row in t.events && row.id == e.id;
          assert row in t'.events;
        }
      }
    }
  }

  ghost predicate TablesGrew(w: World, w': World) { forall s :: Grew(TablesOf(w, s), TablesOf(w', s)) }

  /** What is left to show for a step: unfinished slices stay guarded, changed attempts stay in order. */
  lemma KeepsInv(env: Env, w: World, w': World)
    requires Inv(env, w) && TablesGrew(w, w')
    requires forall b :: b in w'.attempts ==> AttemptOk(env, w', b) || (b in w.attempts && w'.attempts[b] == w.attempts[b])
    requires forall s :: SliceComplete(env, w, s) || Guarded(env, w', s)
    ensures Inv(env, w')
  {
    forall b | b in w'.attempts ensures AttemptOk(env, w', b) {
      if b in w.attempts && w'.attempts[b] == w.attempts[b] {
        assert AttemptOk(env, w, b);
        var s := w.attempts[b].slice;
        if w.attempts[b].phase.Cleaning? {
          WorkOkStays(TablesOf(w, s), TablesOf(w', s), env.source(s), w.attempts[b].phase.work);
        }
      }
    }
    forall s ensures SliceComplete(env, w', s) || Guarded(env, w', s) {
      if SliceComplete(env, w, s) { CompleteStays(TablesOf(w, s), TablesOf(w', s), env.source(s)); }
    }
  }

  /** Rows reach a slice's tables only from an insert that was sent, so the slice is marked or complete. */
  lemma StoreKeeps(env: Env, w: World, s: Slice, events: multiset<Event>, tuples: multiset<Tuple>)
    requires Inv(env, w) && exists c :: c in w.wire && InsertsInto(c, s)
    ensures Inv(env, Store(w, s, events, tuples))
  {
    var w' := Store(w, s, events, tuples);
    forall z ensures SliceComplete(env, w, z) || Guarded(env, w', z) {
      if !SliceComplete(env, w, z) { assert Guarded(env, w, z); }
    }
    KeepsInv(env, w, w');
  }

  /** A marker can only be cleared, and a done key only be set, for a slice that is complete. */
  lemma MarkerKeeps(env: Env, w: World, incomplete: set<Slice>)
    requires Inv(env, w)
    requires forall s :: s in w.incomplete && s !in incomplete ==> SliceComplete(env, w, s)
    ensures Inv(env, w.(incomplete := incomplete))
  {
    var w' := w.(incomplete := incomplete);
    forall s ensures SliceComplete(env, w, s) || Guarded(env, w', s) {
      if !SliceComplete(env, w, s) { assert Guarded(env, w, s); }
    }
    KeepsInv(env, w, w');
  }

  lemma DoneKeeps(env: Env, w: World, done: set<TaskId>)
    requires Inv(env, w)
    requires forall t, s :: t in done && t !in w.done && (t, s) in env.uses ==> SliceComplete(env, w, s)
    ensures Inv(env, w.(done := done))
  {
    var w' := w.(done := done);
    forall s ensures SliceComplete(env, w, s) || Guarded(env, w', s) {
      if !SliceComplete(env, w, s) { assert Guarded(env, w, s); }
    }
    KeepsInv(env, w, w');
  }

  lemma LeaseKeeps(env: Env, w: World, lease: map<Slice, nat>)
    requires Inv(env, w)
    ensures Inv(env, w.(lease := lease))
  {
    var w' := w.(lease := lease);
    forall s ensures SliceComplete(env, w, s) || Guarded(env, w', s) {
      if !SliceComplete(env, w, s) { assert Guarded(env, w, s); }
    }
    KeepsInv(env, w, w');
  }

  lemma RedisKeeps(env: Env, w: World, c: Command, w': World)
    requires Inv(env, w) && c in w.wire && !c.InsertEvents? && !c.InsertTuples? && Executes(w, c, w')
    ensures Inv(env, w')
  {
    match c
    case MarkIncomplete(s) => MarkerKeeps(env, w, w.incomplete + {s});
    case ClearIncomplete(s) => MarkerKeeps(env, w, w.incomplete - {s});
    case MarkDone(t) => DoneKeeps(env, w, w.done + {t});
    case _ => LeaseKeeps(env, w, w'.lease);
  }

  lemma ExecuteKeeps(env: Env, w: World, c: Command, w': World)
    requires Inv(env, w) && c in w.wire && Executes(w, c, w')
    ensures Inv(env, w')
  {
    match c
    case InsertEvents(s, rows) =>
      var part :| part <= multiset(rows) && w' == Store(w, s, part, multiset{});
      StoreKeeps(env, w, s, part, multiset{});
    case InsertTuples(s, rows) =>
      var part :| part <= multiset(rows) && w' == Store(w, s, multiset{}, part);
      StoreKeeps(env, w, s, multiset{}, part);
    case _ => RedisKeeps(env, w, c, w');
  }

  lemma EnvironmentKeeps(env: Env, w: World, w': World)
    requires Inv(env, w) && EnvironmentStep(w, w')
    ensures Inv(env, w')
  {
    if c :| c in w.wire && Executes(w, c, w') {
      ExecuteKeeps(env, w, c, w');
    } else if s :| w' == w.(lease := w.lease - {s}) {
      LeaseKeeps(env, w, w.lease - {s});
    } else {
      var t :| w' == w.(done := w.done - {t});
      DoneKeeps(env, w, w.done - {t});
    }
  }

  lemma SubmitKeeps(env: Env, w: World, a: nat, w': World)
    requires Inv(env, w) && Submits(env, w, a, w')
    ensures Inv(env, w')
  {
    forall s ensures SliceComplete(env, w, s) || Guarded(env, w', s) {
      if !SliceComplete(env, w, s) { assert Guarded(env, w, s); }
    }
    KeepsInv(env, w, w');
  }

  predicate Harmless(c: Command) { c.Acquire? || c.Release? || c.MarkIncomplete? }

  /** A phase change outside the cleaning loop. */
  lemma PhaseKeeps(env: Env, w: World, a: nat, phase: Phase, cmds: set<Command>)
    requires Inv(env, w) && a in w.attempts && !phase.Cleaning?
    requires var s := w.attempts[a].slice;
             && (forall c :: c in cmds ==> Harmless(c) || c == ClearIncomplete(s))
             && (!SliceComplete(env, w, s) ==> !PastWork(phase) && !NeedsMarker(phase) && ClearIncomplete(s) !in cmds)
    ensures Inv(env, Send(SetPhase(w, a, phase), cmds))
  {
    var w' := Send(SetPhase(w, a, phase), cmds);
    assert AttemptOk(env, w, a) && AttemptOk(env, w', a);
    forall s ensures SliceComplete(env, w, s) || Guarded(env, w', s) {
      if !SliceComplete(env, w, s) { GuardedPhase(env, w, a, phase, cmds, s); }
    }
    KeepsInv(env, w, w');
  }

  lemma GuardedPhase(env: Env, w: World, a: nat, phase: Phase, cmds: set<Command>, s: Slice)
    requires Guarded(env, w, s) && a in w.attempts
    requires forall c :: c in cmds ==> Harmless(c) || c == ClearIncomplete(w.attempts[a].slice)
    requires s == w.attempts[a].slice ==> !PastWork(phase) && !NeedsMarker(phase) && ClearIncomplete(s) !in cmds
    ensures Guarded(env, Send(SetPhase(w, a, phase), cmds), s)
  {
  }

  lemma StopKeeps(env: Env, w: World, a: nat, w': World)
    requires Inv(env, w) && a in w.attempts && Stops(w, a, w')
    ensures Inv(env, w')
  {
    var cmds: set<Command> := if w' == SetPhase(w, a, Ended) then {} else {Release(w.attempts[a].slice, a)};
    assert w' == Send(SetPhase(w, a, Ended), cmds);
    PhaseKeeps(env, w, a, Ended, cmds);
  }

  /** An attempt that learns of a done key, or knows of one, does so only for a complete slice. */
  lemma CompletedMeansComplete(env: Env, w: World, a: nat)
    requires Inv(env, w) && a in w.attempts
    requires w.attempts[a].task in w.done || PastWork(w.attempts[a].phase)
    ensures SliceComplete(env, w, w.attempts[a].slice)
  {
    assert AttemptOk(env, w, a);
    assert !Guarded(env, w, w.attempts[a].slice);
  }

  lemma BeginKeeps(env: Env, w: World, a: nat, w': World)
    requires Inv(env, w) && a in w.attempts && w.attempts[a].phase.Asking? && Begins(w, a, w')
    ensures Inv(env, w')
  {
    var Attempt(task, s, Asking(acquired, completed)) := w.attempts[a];
    if task in w.done || completed == Some(true) { CompletedMeansComplete(env, w, a); }
    if acquired.Some? && completed.Some? && w' == Decided(w, a, s, acquired.value, completed.value) {
      var phase := w'.attempts[a].phase;
      var cmd := if phase.Asking? then Acquire(s, a) else if phase.Skipping? then ClearIncomplete(s) else MarkIncomplete(s);
      PhaseKeeps(env, w, a, phase, {cmd});
    } else {
      LeaseKeeps(env, w, w'.lease);
      var m := w.(lease := w'.lease);
      assert SliceComplete(env, w, s) ==> SliceComplete(env, m, s);
      PhaseKeeps(env, m, a, w'.attempts[a].phase, {});
      assert Send(w', {}) == w';
    }
  }

  lemma MarkKeeps(env: Env, w: World, a: nat, w': World)
    requires Inv(env, w) && a in w.attempts && w.attempts[a].phase.Marking? && Marks(env, w, a, w')
    ensures Inv(env, w')
  {
    assert AttemptOk(env, w, a);
    forall s ensures SliceComplete(env, w, s) || Guarded(env, w', s) {
      if !SliceComplete(env, w, s) { assert Guarded(env, w, s); }
    }
    KeepsInv(env, w, w');
  }

  /** Committing relies on ids not being shared: the done key is set for this slice alone. */
  lemma CommitKeeps(env: Env, w: World, a: nat, w': World)
    requires NoSharedIds(env.uses)
    requires Inv(env, w) && a in w.attempts && w.attempts[a].phase.Committing? && Commits(w, a, w')
    ensures Inv(env, w')
  {
    assert AttemptOk(env, w, a);
    forall s ensures SliceComplete(env, w, s) || Guarded(env, w', s) {
      if !SliceComplete(env, w, s) { assert Guarded(env, w, s); }
    }
    KeepsInv(env, w, w');
  }

  // ----- cleaning -----

  lemma ReadKeepsWork(t: Tables, src: seq<Event>, work: Work, work': Work)
    requires WorkOk(t, src, work) && Reads(work, work')
    ensures WorkOk(t, src, work')
  {
    assert work.unread == work'.batch + work'.unread;
  }

  lemma LookupKeepsWork(t: Tables, src: seq<Event>, work: Work, work': Work)
    requires WorkOk(t, src, work) && LooksUp(t, work, work')
    ensures WorkOk(t, src, work')
  {
    var batch, rows := work.batch, AllTuples(work.batch);
    if work.events.Idle? && !work'.events.Idle? {
      var pending := PendingEvents(batch, ExistingIds(t.events, batch));
      assert Outstanding(work'.events) == pending;
      forall e | e in batch ensures HasRow(t, e) || e in pending {
        PendingEventsBag(batch, ExistingIds(t.events, batch), e);
        assert multiset(batch)[e] > 0;
      }
    } else {
      var pending := Deduct(rows, ObservedCounts(t.tuples, rows));
      assert Outstanding(work'.tuples) == pending;
      forall x ensures multiset(rows)[x] <= t.tuples[x] + multiset(pending)[x] {
        DeductBag(rows, ObservedCounts(t.tuples, rows), x);
      }
    }
  }

  lemma AcknowledgeKeepsWork(t: Tables, src: seq<Event>, work: Work, work': Work)
    requires WorkOk(t, src, work) && Acknowledges(work, work')
    ensures WorkOk(t, src, work')
  {
    if work.events.Stored? && work.tuples.Stored? && work'.batch == [] {
      forall e | e in work'.processed ensures Covered(t, e) {
        if e in work.batch { TuplesOfMember(work.batch, e); }
      }
    }
  }

  /** A step inside the cleaning loop: one attempt's work, its own slice's tables, its own inserts. */
  lemma CleaningKeeps(env: Env, w: World, a: nat, work: Work, tables: Tables, cmds: set<Command>)
    requires Inv(env, w) && a in w.attempts && w.attempts[a].phase.Cleaning?
    requires var s := w.attempts[a].slice;
             && Grew(TablesOf(w, s), tables) && WorkOk(tables, env.source(s), work)
             && forall c :: c in cmds ==> InsertsInto(c, s)
    ensures var s := w.attempts[a].slice;
            Inv(env, Send(SetPhase(w.(tables := w.tables[s := tables]), a, Cleaning(work)), cmds))
  {
    var s := w.attempts[a].slice;
    var w' := Send(SetPhase(w.(tables := w.tables[s := tables]), a, Cleaning(work)), cmds);
    assert AttemptOk(env, w, a) && AttemptOk(env, w', a);
    forall z ensures SliceComplete(env, w, z) || Guarded(env, w', z) {
      if !SliceComplete(env, w, z) { GuardedCleaning(env, w, a, work, tables, cmds, z); }
    }
    KeepsInv(env, w, w');
  }

  lemma GuardedCleaning(env: Env, w: World, a: nat, work: Work, tables: Tables, cmds: set<Command>, z: Slice)
    requires Guarded(env, w, z) && a in w.attempts && w.attempts[a].phase.Cleaning?
    requires forall c :: c in cmds ==> InsertsInto(c, w.attempts[a].slice)
    ensures Guarded(env, Send(SetPhase(w.(tables := w.tables[w.attempts[a].slice := tables]), a, Cleaning(work)), cmds), z)
  {
  }

  /** The same when the tables stay as they are, whether or not they have an entry yet. */
  lemma QuietCleaningKeeps(env: Env, w: World, a: nat, work: Work, cmds: set<Command>)
    requires Inv(env, w) && a in w.attempts && w.attempts[a].phase.Cleaning?
    requires var s := w.attempts[a].slice;
             WorkOk(TablesOf(w, s), env.source(s), work) && forall c :: c in cmds ==> InsertsInto(c, s)
    ensures Inv(env, Send(SetPhase(w, a, Cleaning(work)), cmds))
  {
    var w' := Send(SetPhase(w, a, Cleaning(work)), cmds);
    assert AttemptOk(env, w, a) && AttemptOk(env, w', a);
    forall z ensures SliceComplete(env, w, z) || Guarded(env, w', z) {
      if !SliceComplete(env, w, z) { assert Guarded(env, w, z); }
    }
    KeepsInv(env, w, w');
  }

  lemma WorkStepKeeps(env: Env, w: World, a: nat, w': World)
    requires Inv(env, w) && a in w.attempts && w.attempts[a].phase.Cleaning?
    requires Works(w, a, w.attempts[a].slice, w.attempts[a].phase.work, w')
    ensures Inv(env, w')
  {
    assert AttemptOk(env, w, a);
    var s, work := w.attempts[a].slice, w.attempts[a].phase.work;
    var t, src := TablesOf(w, s), env.source(s);
    var work' :| (Reads(work, work') || LooksUp(t, work, work') || Acknowledges(work, work'))
                 && w' == SetPhase(w, a, Cleaning(work'));
    if Reads(work, work') { ReadKeepsWork(t, src, work, work'); }
    else if LooksUp(t, work, work') { LookupKeepsWork(t, src, work, work'); }
    else { AcknowledgeKeepsWork(t, src, work, work'); }
    QuietCleaningKeeps(env, w, a, work', {});
    assert Send(w', {}) == w';
  }

  lemma ChunkKeepsWork<T>(write: Write<T>, k: nat)
    requires write.Sending? && write.landed && k <= |write.rest|
    ensures Outstanding(NextChunk(write, k)) == Outstanding(write)
  {
  }

  lemma SendKeeps(env: Env, w: World, a: nat, w': World)
    requires Inv(env, w) && a in w.attempts && w.attempts[a].phase.Cleaning?
    requires var s, work := w.attempts[a].slice, w.attempts[a].phase.work;
             SendsEvents(w, a, s, work, w') || SendsTuples(w, a, s, work, w')
    ensures Inv(env, w')
  {
    assert AttemptOk(env, w, a);
    var s, work := w.attempts[a].slice, w.attempts[a].phase.work;
    if SendsEvents(w, a, s, work, w') {
      var k :| 0 < k <= |work.events.rest|
               && w' == SendChunk(w, a, work.(events := NextChunk(work.events, k)), InsertEvents(s, work.events.rest[..k]));
      ChunkKeepsWork(work.events, k);
      QuietCleaningKeeps(env, w, a, work.(events := NextChunk(work.events, k)), {InsertEvents(s, work.events.rest[..k])});
    } else {
      var k :| 0 < k <= |work.tuples.rest|
               && w' == SendChunk(w, a, work.(tuples := NextChunk(work.tuples, k)), InsertTuples(s, work.tuples.rest[..k]));
      ChunkKeepsWork(work.tuples, k);
      QuietCleaningKeeps(env, w, a, work.(tuples := NextChunk(work.tuples, k)), {InsertTuples(s, work.tuples.rest[..k])});
    }
  }

  lemma LandEventsKeepsWork(t: Tables, src: seq<Event>, work: Work)
    requires WorkOk(t, src, work) && work.events.Sending?
    ensures WorkOk(Tables(t.events + multiset(work.events.sent), t.tuples), src, work.(events := work.events.(landed := true)))
  {
    var t' := Tables(t.events + multiset(work.events.sent), t.tuples);
    WorkOkStays(t, t', src, work);
    forall e | e in work.batch ensures HasRow(t', e) || e in work.events.rest {
      if e in work.events.sent { assert e in t'.events; }
    }
  }

  lemma LandTuplesKeepsWork(t: Tables, src: seq<Event>, work: Work)
    requires WorkOk(t, src, work) && work.tuples.Sending?
    ensures WorkOk(Tables(t.events, t.tuples + multiset(work.tuples.sent)), src, work.(tuples := work.tuples.(landed := true)))
  {
    WorkOkStays(t, Tables(t.events, t.tuples + multiset(work.tuples.sent)), src, work);
  }

  lemma LandKeeps(env: Env, w: World, a: nat, events: multiset<Event>, tuples: multiset<Tuple>, work': Work)
    requires Inv(env, w) && a in w.attempts && w.attempts[a].phase.Cleaning?
    requires var s := w.attempts[a].slice;
             WorkOk(TablesOf(Store(w, s, events, tuples), s), env.source(s), work')
    ensures Inv(env, SetPhase(Store(w, w.attempts[a].slice, events, tuples), a, Cleaning(work')))
  {
    var s := w.attempts[a].slice;
    var t' := TablesOf(Store(w, s, events, tuples), s);
    CleaningKeeps(env, w, a, work', t', {});
    var w' := SetPhase(w.(tables := w.tables[s := t']), a, Cleaning(work'));
    assert Send(w', {}) == w';
  }

  lemma LandStepKeeps(env: Env, w: World, a: nat, w': World)
    requires Inv(env, w) && a in w.attempts && w.attempts[a].phase.Cleaning?
    requires Lands(w, a, w.attempts[a].slice, w.attempts[a].phase.work, w')
    ensures Inv(env, w')
  {
    assert AttemptOk(env, w, a);
    var s, work := w.attempts[a].slice, w.attempts[a].phase.work;
    var t := TablesOf(w, s);
    var sent := if work.events.Sending? then multiset(work.events.sent) else multiset{};
    if work.events.Sending? && w' == SetPhase(Store(w, s, sent, multiset{}), a, Cleaning(work.(events := work.events.(landed := true)))) {
      LandEventsKeepsWork(t, env.source(s), work);
      assert t.tuples + multiset{} == t.tuples;
      LandKeeps(env, w, a, sent, multiset{}, work.(events := work.events.(landed := true)));
    } else {
      LandTuplesKeepsWork(t, env.source(s), work);
      assert t.events + multiset{} == t.events;
      LandKeeps(env, w, a, multiset{}, multiset(work.tuples.sent), work.(tuples := work.tuples.(landed := true)));
    }
  }

  /** The row count check: everything read and covered, and as much as the source holds. */
  lemma FinishMeansComplete(env: Env, w: World, a: nat, w': World)
    requires Inv(env, w) && a in w.attempts && w.attempts[a].phase.Cleaning?
    requires Finishes(env, w, a, w.attempts[a].phase.work, w')
    ensures SliceComplete(env, w, w.attempts[a].slice)
  {
    assert AttemptOk(env, w, a);
    var s, work := w.attempts[a].slice, w.attempts[a].phase.work;
    var src := env.source(s);
    assert multiset(work.processed) <= multiset(src);
    SameBag(work.processed, src);
    forall e | e in src ensures Covered(TablesOf(w, s), e) {
      assert multiset(src)[e] > 0;
    }
  }

  lemma FinishKeeps(env: Env, w: World, a: nat, w': World)
    requires NoSharedIds(env.uses)
    requires Inv(env, w) && a in w.attempts && w.attempts[a].phase.Cleaning?
    requires Finishes(env, w, a, w.attempts[a].phase.work, w')
    ensures Inv(env, w')
  {
    assert AttemptOk(env, w, a);
    FinishMeansComplete(env, w, a, w');
    forall z ensures SliceComplete(env, w, z) || Guarded(env, w', z) {
      if !SliceComplete(env, w, z) { assert Guarded(env, w, z); }
    }
    KeepsInv(env, w, w');
  }

  lemma NextKeeps(env: Env, w: World, w': World)
    requires NoSharedIds(env.uses) && Inv(env, w) && Next(env, w, w')
    ensures Inv(env, w')
  {
    if EnvironmentStep(w, w') {
      EnvironmentKeeps(env, w, w');
    } else {
      var a :| AttemptStep(env, w, a, w');
      if a !in w.attempts { SubmitKeeps(env, w, a, w'); }
      else if Stops(w, a, w') { StopKeeps(env, w, a, w'); }
      else {
        var phase := w.attempts[a].phase;
        if phase.Asking? { BeginKeeps(env, w, a, w'); }
        else if phase.Marking? { MarkKeeps(env, w, a, w'); }
        else if phase.Committing? { CommitKeeps(env, w, a, w'); }
        else {
          var s, work := w.attempts[a].slice, phase.work;
          if Works(w, a, s, work, w') { WorkStepKeeps(env, w, a, w'); }
          else if Lands(w, a, s, work, w') { LandStepKeeps(env, w, a, w'); }
          else if Finishes(env, w, a, work, w') { FinishKeeps(env, w, a, w'); }
          else { SendKeeps(env, w, a, w'); }
        }
      }
    }
  }

  // ----- over whole runs -----

  lemma {:induction false} RunInv(env: Env, ws: seq<World>, i: nat)
    requires NoSharedIds(env.uses) && Run(env, ws) && i < |ws|
    ensures Inv(env, ws[i])
  {
    if i > 0 {
      RunInv(env, ws, i - 1);
      NextKeeps(env, ws[i - 1], ws[i]);
    }
  }

  lemma ExecuteGrows(w: World, c: Command, w': World)
    requires Executes(w, c, w')
    ensures TablesGrew(w, w')
  {
  }

  lemma EnvironmentGrows(w: World, w': World)
    requires EnvironmentStep(w, w')
    ensures TablesGrew(w, w')
  {
    if c :| c in w.wire && Executes(w, c, w') { ExecuteGrows(w, c, w'); } else { assert w'.tables == w.tables; }
  }

  lemma CleanGrows(env: Env, w: World, a: nat, w': World)
    requires a in w.attempts && w.attempts[a].phase.Cleaning? && Cleans(env, w, a, w')
    ensures TablesGrew(w, w')
  {
    var s, work := w.attempts[a].slice, w.attempts[a].phase.work;
    if !Lands(w, a, s, work, w') { assert w'.tables == w.tables; }
  }

  lemma NextGrows(env: Env, w: World, w': World)
    requires Next(env, w, w')
    ensures TablesGrew(w, w')
  {
    if EnvironmentStep(w, w') {
      EnvironmentGrows(w, w');
    } else {
      var a :| AttemptStep(env, w, a, w');
      if a in w.attempts && w.attempts[a].phase.Cleaning? && Cleans(env, w, a, w') { CleanGrows(env, w, a, w'); }
      else { ControlLeavesTables(env, w, a, w'); }
    }
  }

  lemma ControlLeavesTables(env: Env, w: World, a: nat, w': World)
    requires AttemptStep(env, w, a, w')
    requires !(a in w.attempts && w.attempts[a].phase.Cleaning? && Cleans(env, w, a, w'))
    ensures w'.tables == w.tables
  {
  }

  ghost predicate Growing(ws: seq<World>, s: Slice) {
    forall i :: 0 <= i < |ws| - 1 ==> Grew(TablesOf(ws[i], s), TablesOf(ws[i + 1], s))
  }

  lemma {:induction false} GrowsBetween(ws: seq<World>, i: nat, j: nat, s: Slice)
    requires Growing(ws, s) && i <= j < |ws|
    ensures Grew(TablesOf(ws[i], s), TablesOf(ws[j], s))
  {
    if i < j {
      GrowsBetween(ws, i, j - 1, s);
      assert Grew(TablesOf(ws[j - 1], s), TablesOf(ws[j - 1 + 1], s));
    }
  }

  /** A run only ever adds rows. */
  lemma RunGrows(env: Env, ws: seq<World>, i: nat, j: nat, s: Slice)
    requires Run(env, ws) && i <= j < |ws|
    ensures Grew(TablesOf(ws[i], s), TablesOf(ws[j], s))
  {
    forall k | 0 <= k < |ws| - 1 ensures Grew(TablesOf(ws[k], s), TablesOf(ws[k + 1], s)) {
      NextGrows(env, ws[k], ws[k + 1]);
    }
    GrowsBetween(ws, i, j, s);
  }

  /** At every moment of every run a slice has no output, or is marked incomplete, or is complete. */
  lemma CommitSafety(env: Env, ws: seq<World>, i: nat, s: Slice)
    requires NoSharedIds(env.uses) && Run(env, ws) && i < |ws|
    ensures TablesOf(ws[i], s) == EMPTY || s in ws[i].incomplete || SliceComplete(env, ws[i], s)
  {
    RunInv(env, ws, i);
  }

  /** A task reported done, or an attempt that skips or finishes, only ever speaks of a complete slice. */
  lemma DoneMeansComplete(env: Env, ws: seq<World>, i: nat, task: TaskId, s: Slice)
    requires NoSharedIds(env.uses) && Run(env, ws) && i < |ws| && (task, s) in env.uses
    requires task in ws[i].done || exists a :: a in ws[i].attempts && ws[i].attempts[a].slice == s && PastWork(ws[i].attempts[a].phase)
    ensures SliceComplete(env, ws[i], s)
  {
    RunInv(env, ws, i);
  }

  /**
   * A reader that sees final rows first and only then finds no marker hides the slice. At that second
   * look, and ever after, the slice is complete.
   */
  lemma HiddenSliceIsComplete(env: Env, ws: seq<World>, rowsSeen: nat, markerRead: nat, later: nat, s: Slice)
    requires NoSharedIds(env.uses) && Run(env, ws) && rowsSeen <= markerRead <= later < |ws|
    requires TablesOf(ws[rowsSeen], s).events != multiset{} && s !in ws[markerRead].incomplete
    ensures SliceComplete(env, ws[later], s)
  {
    RunGrows(env, ws, rowsSeen, markerRead, s);
    CommitSafety(env, ws, markerRead, s);
    RunGrows(env, ws, markerRead, later, s);
    CompleteStays(TablesOf(ws[markerRead], s), TablesOf(ws[later], s), env.source(s));
  }
}
