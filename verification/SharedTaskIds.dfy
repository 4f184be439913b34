/** Commit safety needs task ids that belong to one slice each: without that a concrete run breaks it. */
module SharedTaskIds {
  import opened Options
  import opened OutputTables
  import opened RetryConvergence
  import opened SliceCommit

  ghost predicate CommitSafe(env: Env, w: World) {
    forall s :: TablesOf(w, s) == EMPTY || s in w.incomplete || SliceComplete(env, w, s)
  }

  /** Whatever the event log holds, no run ever leaves unmarked partial output. */
  ghost predicate AlwaysSafe(uses: set<(TaskId, Slice)>) {
    forall source: Slice -> seq<Event>, ws: seq<World>, i ::
      Run(Env(source, uses), ws) && 0 <= i < |ws| ==> CommitSafe(Env(source, uses), ws[i])
  }

  ghost predicate Path(env: Env, ws: seq<World>, w: World, w': World) {
    && ws != [] && ws[0] == w && ws[|ws| - 1] == w'
    && forall i :: 0 <= i < |ws| - 1 ==> Next(env, ws[i], ws[i + 1])
  }

  ghost predicate Reaches(env: Env, w: World, w': World) { exists ws :: Path(env, ws, w, w') }

  lemma OneStep(env: Env, w: World, w': World)
    requires Next(env, w, w')
    ensures Reaches(env, w, w')
  {
    assert Path(env, [w, w'], w, w');
  }

  lemma Join(env: Env, a: World, b: World, c: World)
    requires Reaches(env, a, b) && Reaches(env, b, c)
    ensures Reaches(env, a, c)
  {
    hide Next;
    var p :| Path(env, p, a, b);
    var q :| Path(env, q, b, c);
    var r := p + q[1..];
    forall i | 0 <= i < |r| - 1 ensures Next(env, r[i], r[i + 1]) {
      if i >= |p| - 1 { assert r[i] == q[i - (|p| - 1)] && r[i + 1] == q[i + 1 - (|p| - 1)]; }
    }
    assert Path(env, r, a, c);
  }

  lemma Acts(env: Env, w: World, a: nat, w': World)
    requires AttemptStep(env, w, a, w')
    ensures Reaches(env, w, w')
  {
    OneStep(env, w, w');
  }

  // ----- one attempt, step by step -----

  function Submitted(w: World, a: nat, task: TaskId, s: Slice): World {
    Send(w.(attempts := w.attempts[a := Attempt(task, s, Asking(None, None))]), {Command.Acquire(s, a)})
  }

  /** Submitted, lease granted, done key looked up. */
  function Asked(w: World, a: nat, task: TaskId, s: Slice): World {
    var m := Submitted(w, a, task, s);
    SetPhase(m.(lease := m.lease[s := a]), a, Asking(Some(true), Some(task in w.done)))
  }

  lemma Asks(env: Env, w: World, a: nat, task: TaskId, s: Slice)
    requires (task, s) in env.uses && a !in w.attempts && s !in w.lease
    ensures Reaches(env, w, Asked(w, a, task, s))
  {
    var m := Submitted(w, a, task, s);
    assert Submits(env, w, a, m);
    Acts(env, w, a, m);
    var n := SetPhase(m.(lease := m.lease[s := a]), a, Asking(Some(true), None));
    assert Begins(m, a, n);
    Acts(env, m, a, n);
    var r := SetPhase(n, a, Asking(Some(true), Some(task in n.done)));
    assert Begins(n, a, r);
    Acts(env, n, a, r);
    assert r == Asked(w, a, task, s);
    Join(env, w, m, n);
    Join(env, w, n, r);
  }

  /** From there, when the task is not done, to the cleaning loop with everything to read. */
  function Opened(w: World, a: nat, s: Slice, unread: seq<Event>): World
    requires a in w.attempts
  {
    SetPhase(Send(w, {MarkIncomplete(s)}).(incomplete := w.incomplete + {s}), a, Cleaning(Work(unread, [], [], Idle, Idle)))
  }

  lemma Opens(env: Env, w: World, a: nat, s: Slice)
    requires a in w.attempts && w.attempts[a].slice == s
    requires w.attempts[a].phase == Asking(Some(true), Some(false))
    ensures Reaches(env, w, Opened(w, a, s, env.source(s)))
  {
    var m := Send(SetPhase(w, a, Marking(false)), {MarkIncomplete(s)});
    assert Begins(w, a, m);
    Acts(env, w, a, m);
    var n := SetPhase(m.(incomplete := m.incomplete + {s}), a, Marking(true));
    assert Marks(env, m, a, n);
    Acts(env, m, a, n);
    var r := SetPhase(n, a, Cleaning(Work(env.source(s), [], [], Idle, Idle)));
    assert Marks(env, n, a, r);
    Acts(env, n, a, r);
    assert r == Opened(w, a, s, env.source(s));
    Join(env, w, m, n);
    Join(env, w, n, r);
  }

  /** The only row of the slice is sent and stored; nothing else is. */
  function HalfWritten(w: World, a: nat, s: Slice, e: Event): World
    requires a in w.attempts
  {
    var work := Work([], [], [e], Sending([e], true, []), Idle);
    SetPhase(Store(Send(w, {InsertEvents(s, [e])}), s, multiset{e}, multiset{}), a, Cleaning(work))
  }

  lemma WritesHalf(env: Env, w: World, a: nat, s: Slice, e: Event)
    requires a in w.attempts && w.attempts[a].slice == s && TablesOf(w, s) == EMPTY
    requires w.attempts[a].phase == Cleaning(Work([e], [], [], Idle, Idle))
    ensures Reaches(env, w, HalfWritten(w, a, s, e))
  {
    var work0, work1 := Work([e], [], [], Idle, Idle), Work([], [], [e], Idle, Idle);
    var m := SetPhase(w, a, Cleaning(work1));
    assert Reads(work0, work1) by { assert [e][..1] == [e] && [e][1..] == []; }
    assert Works(w, a, s, work0, m);
    Acts(env, w, a, m);
    NothingStored(e);
    var work2 := work1.(events := Sending([], true, [e]));
    var n := SetPhase(m, a, Cleaning(work2));
    assert LooksUp(TablesOf(m, s), work1, work2);
    assert Works(m, a, s, work1, n);
    Acts(env, m, a, n);
    Join(env, w, m, n);
    SendsAndLands(env, n, a, s, e);
    var r := HalfWritten(n, a, s, e);
    assert r == HalfWritten(w, a, s, e);
    Join(env, w, n, r);
  }

  lemma NothingStored(e: Event)
    ensures PendingEvents([e], ExistingIds(EMPTY.events, [e])) == [e]
  {
    assert ExistingIds(EMPTY.events, [e]) == {};
    assert [e][1..] == [];
    assert PendingEvents([e][1..], {}) == [];
  }

  lemma SendsAndLands(env: Env, w: World, a: nat, s: Slice, e: Event)
    requires a in w.attempts && w.attempts[a].slice == s
    requires w.attempts[a].phase == Cleaning(Work([], [], [e], Sending([], true, [e]), Idle))
    ensures Reaches(env, w, HalfWritten(w, a, s, e))
  {
    var work := Work([], [], [e], Sending([], true, [e]), Idle);
    assert [e][..1] == [e] && [e][1..] == [];
    var work' := work.(events := NextChunk(work.events, 1));
    var m := SendChunk(w, a, work', InsertEvents(s, [e]));
    assert SendsEvents(w, a, s, work, m);
    Acts(env, w, a, m);
    var n := SetPhase(Store(m, s, multiset([e]), multiset{}), a, Cleaning(work'.(events := work'.events.(landed := true))));
    assert Lands(m, a, s, work', n);
    Acts(env, m, a, n);
    assert n == HalfWritten(w, a, s, e);
    Join(env, w, m, n);
  }

  /** A slice without rows is finished at once, and its task is done. */
  lemma FinishesEmpty(env: Env, w: World, a: nat, s: Slice) returns (w': World)
    requires a in w.attempts && w.attempts[a].slice == s && env.source(s) == []
    requires w.attempts[a].phase == Cleaning(Work([], [], [], Idle, Idle))
    ensures Reaches(env, w, w')
    ensures w' == SetPhase(Send(w, {MarkDone(w.attempts[a].task)}).(done := w.done + {w.attempts[a].task}), a, Committing(true))
  {
    var task := w.attempts[a].task;
    var m := Send(SetPhase(w, a, Committing(false)), {MarkDone(task)});
    assert Finishes(env, w, a, w.attempts[a].phase.work, m);
    Acts(env, w, a, m);
    w' := SetPhase(m.(done := m.done + {task}), a, Committing(true));
    assert Commits(m, a, w');
    Acts(env, m, a, w');
    Join(env, w, m, w');
  }

  /** The task is done, so this attempt clears the marker of a slice it never looked at. */
  lemma Skips(env: Env, w: World, a: nat, s: Slice) returns (w': World)
    requires a in w.attempts && w.attempts[a].slice == s
    requires w.attempts[a].phase == Asking(Some(true), Some(true))
    ensures Reaches(env, w, w')
    ensures w'.incomplete == w.incomplete - {s} && w'.tables == w.tables
  {
    var m := Send(SetPhase(w, a, Skipping), {ClearIncomplete(s)});
    assert Begins(w, a, m);
    Acts(env, w, a, m);
    w' := m.(incomplete := m.incomplete - {s});
    assert Executes(m, ClearIncomplete(s), w');
    OneStep(env, m, w');
    Join(env, w, m, w');
  }

  lemma Expires(env: Env, w: World, s: Slice)
    ensures Reaches(env, w, w.(lease := w.lease - {s}))
  {
    OneStep(env, w, w.(lease := w.lease - {s}));
  }

  // ----- the run -----

  function OneAttribute(): Event { Event("e", 0, true, [Attribute("k", "v")], "") }

  function Sources(b: Slice): Slice -> seq<Event> { s => if s == b then [OneAttribute()] else [] }

  /** The first attempt at slice `b` writes the event and not yet its attribute. */
  lemma WritesOneRow(env: Env, task: TaskId, b: Slice) returns (w: World)
    requires (task, b) in env.uses && env.source == Sources(b)
    ensures Reaches(env, INIT, w) && TablesOf(w, b) == Tables(multiset{OneAttribute()}, multiset{})
    ensures w.attempts.Keys == {0} && w.lease.Keys == {b} && w.done == {}
  {
    var w1 := Asked(INIT, 0, task, b);
    Asks(env, INIT, 0, task, b);
    var w2 := Opened(w1, 0, b, [OneAttribute()]);
    Opens(env, w1, 0, b);
    w := HalfWritten(w2, 0, b, OneAttribute());
    WritesHalf(env, w2, 0, b, OneAttribute());
    Join(env, INIT, w1, w2);
    Join(env, INIT, w2, w);
  }

  lemma HalfIsPartial(env: Env, w: World, b: Slice)
    requires env.source(b) == [OneAttribute()] && TablesOf(w, b) == Tables(multiset{OneAttribute()}, multiset{})
    ensures !SliceComplete(env, w, b) && TablesOf(w, b).events != multiset{}
  {
    var e := OneAttribute();
    assert e in env.source(b);
    assert e.attributes[0] == Attribute("k", "v");
    assert Tuple("e", "k", "v") in TuplesOf(e);
    assert multiset(TuplesOf(e))[Tuple("e", "k", "v")] > 0;
    assert !Covered(TablesOf(w, b), e);
    assert e in TablesOf(w, b).events;
  }

  /** Slice `b` is half written, then a task of slice `a` with the same id succeeds, then `b` is retried. */
  lemma BrokenRun(uses: set<(TaskId, Slice)>, task: TaskId, a: Slice, b: Slice) returns (w: World)
    requires (task, a) in uses && (task, b) in uses && a != b
    ensures Reaches(Env(Sources(b), uses), INIT, w) && !CommitSafe(Env(Sources(b), uses), w)
  {
    var env := Env(Sources(b), uses);
    var w3 := WritesOneRow(env, task, b);
    var w5 := OtherSliceFinishes(env, w3, task, a);
    Join(env, INIT, w3, w5);
    w := RetryForgets(env, w5, task, b);
    Join(env, INIT, w5, w);
    HalfIsPartial(env, w, b);
  }

  lemma OtherSliceFinishes(env: Env, w: World, task: TaskId, a: Slice) returns (w': World)
    requires (task, a) in env.uses && env.source(a) == []
    requires w.attempts.Keys == {0} && a !in w.lease && task !in w.done
    ensures Reaches(env, w, w')
    ensures task in w'.done && w'.tables == w.tables && w'.attempts.Keys == {0, 1}
  {
    var m := Asked(w, 1, task, a);
    Asks(env, w, 1, task, a);
    var n := Opened(m, 1, a, []);
    Opens(env, m, 1, a);
    w' := FinishesEmpty(env, n, 1, a);
    Join(env, w, m, n);
    Join(env, w, n, w');
  }

  lemma RetryForgets(env: Env, w: World, task: TaskId, b: Slice) returns (w': World)
    requires (task, b) in env.uses && w.attempts.Keys == {0, 1} && task in w.done
    ensures Reaches(env, w, w')
    ensures b !in w'.incomplete && w'.tables == w.tables
  {
    var m := w.(lease := w.lease - {b});
    Expires(env, w, b);
    var n := Asked(m, 2, task, b);
    Asks(env, m, 2, task, b);
    w' := Skips(env, n, 2, b);
    Join(env, w, m, n);
    Join(env, w, n, w');
  }

  /** Commit safety holds, for every event log and every run, exactly when no task id names two slices. */
  lemma SafeExactlyWithoutSharedIds(uses: set<(TaskId, Slice)>)
    ensures AlwaysSafe(uses) <==> NoSharedIds(uses)
  {
    if NoSharedIds(uses) {
      forall source: Slice -> seq<Event>, ws: seq<World>, i | Run(Env(source, uses), ws) && 0 <= i < |ws|
        ensures CommitSafe(Env(source, uses), ws[i])
      {
        var env := Env(source, uses);
        forall s ensures TablesOf(ws[i], s) == EMPTY || s in ws[i].incomplete || SliceComplete(env, ws[i], s) {
          CommitSafety(env, ws, i, s);
        }
      }
    } else {
      var task, a, b :| (task, a) in uses && (task, b) in uses && a != b;
      var w := BrokenRun(uses, task, a, b);
      var env := Env(Sources(b), uses);
      var ws :| Path(env, ws, INIT, w);
      assert Run(env, ws) && ws[|ws| - 1] == w;
    }
  }
}
