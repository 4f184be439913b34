/** Runs of the commit protocol in which any attempts wanted are carried through, one after the other. */
module FinishedRuns {
  import opened OutputTables
  import opened RetryConvergence
  import opened SharedTaskIds
  import opened SliceCommit

  /** An event that no attribution is derived from. */
  function Plain(): Event { Event("e", 0, true, [], "") }

  const WRITTEN := Tables(multiset{Plain()}, multiset{})

  /** One plain event in every slice but one. */
  function PlainSources(open: Slice): Slice -> seq<Event> { s => if s == open then [OneAttribute()] else [Plain()] }

  lemma PlainHasNoTuples()
    ensures AllTuples([Plain()]) == []
  {
    assert [Plain()][1..] == [];
    assert AllTuples([Plain()][1..]) == [];
  }

  // ----- one attempt, from its lookup to its end -----

  lemma Goes(env: Env, w: World, a: nat, work: Work, work': Work)
    requires a in w.attempts && w.attempts[a].phase == Cleaning(work)
    requires Reads(work, work') || LooksUp(TablesOf(w, w.attempts[a].slice), work, work') || Acknowledges(work, work')
    ensures Reaches(env, w, SetPhase(w, a, Cleaning(work')))
  {
    var w' := SetPhase(w, a, Cleaning(work'));
    assert Works(w, a, w.attempts[a].slice, work, w');
    Acts(env, w, a, w');
  }

  lemma GoesOn(env: Env, w: World, a: nat, work: Work, work': Work)
    requires a in w.attempts && Reaches(env, w, SetPhase(w, a, Cleaning(work)))
    requires Reads(work, work') || LooksUp(TablesOf(w, w.attempts[a].slice), work, work') || Acknowledges(work, work')
    ensures Reaches(env, w, SetPhase(w, a, Cleaning(work')))
  {
    var m := SetPhase(w, a, Cleaning(work));
    Goes(env, m, a, work, work');
    assert SetPhase(m, a, Cleaning(work')) == SetPhase(w, a, Cleaning(work'));
    Join(env, w, m, SetPhase(w, a, Cleaning(work')));
  }

  /** Apart from its own phase and its own slice's tables an attempt at work changes nothing that matters here. */
  ghost predicate OnlyWorked(w: World, a: nat, x: Slice, phase: Phase, w': World) {
    && a in w.attempts && w'.attempts == w.attempts[a := w.attempts[a].(phase := phase)]
    && w'.lease == w.lease && w'.done == w.done && w'.incomplete == w.incomplete
    && forall y :: y != x ==> TablesOf(w', y) == TablesOf(w, y)
  }

  /** The event is looked up and stored if it is missing. */
  lemma Stores(env: Env, w: World, a: nat, x: Slice) returns (w': World, sent: seq<Event>)
    requires a in w.attempts && w.attempts[a].slice == x && w.attempts[a].phase == Cleaning(Work([Plain()], [], [], Idle, Idle))
    requires TablesOf(w, x) == EMPTY || TablesOf(w, x) == WRITTEN
    ensures Reaches(env, w, w') && TablesOf(w', x) == WRITTEN
    ensures OnlyWorked(w, a, x, Cleaning(Work([], [], [Plain()], Sending(sent, true, []), Idle)), w')
  {
    var e := Plain();
    if TablesOf(w, x) == EMPTY {
      WritesHalf(env, w, a, x, e);
      w', sent := HalfWritten(w, a, x, e), [e];
    } else {
      var work0, work1 := Work([e], [], [], Idle, Idle), Work([], [], [e], Idle, Idle);
      assert Reads(work0, work1) by { assert [e][..1] == [e] && [e][1..] == []; }
      Goes(env, w, a, work0, work1);
      AlreadyStored();
      var work2 := work1.(events := Sending([], true, []));
      GoesOn(env, w, a, work1, work2);
      w', sent := SetPhase(w, a, Cleaning(work2)), [];
    }
  }

  lemma AlreadyStored()
    ensures PendingEvents([Plain()], ExistingIds(WRITTEN.events, [Plain()])) == []
  {
    var e := Plain();
    assert Ids([e])[0] == "e" && "e" in Ids([e]);
    assert InSpan([e], e.time);
    assert e in WRITTEN.events && e.id in ExistingIds(WRITTEN.events, [e]);
    assert [e][1..] == [] && PendingEvents([e][1..], ExistingIds(WRITTEN.events, [e])) == [];
  }

  /** With the event stored and no attributions to store the batch is behind the attempt. */
  lemma Drains(env: Env, w: World, a: nat, sent: seq<Event>)
    requires a in w.attempts && w.attempts[a].phase == Cleaning(Work([], [], [Plain()], Sending(sent, true, []), Idle))
    ensures Reaches(env, w, SetPhase(w, a, Cleaning(Work([], [Plain()], [], Idle, Idle))))
  {
    hide Reaches;
    var e, t := Plain(), TablesOf(w, w.attempts[a].slice);
    PlainHasNoTuples();
    var work1 := Work([], [], [e], Sending(sent, true, []), Idle);
    var work2 := work1.(events := Stored);
    Goes(env, w, a, work1, work2);
    var work3 := work2.(tuples := Sending([], true, Deduct([], ObservedCounts(t.tuples, []))));
    GoesOn(env, w, a, work2, work3);
    var work4 := work3.(tuples := Stored);
    GoesOn(env, w, a, work3, work4);
    assert [] + [e] == [e];
    GoesOn(env, w, a, work4, Work([], [e], [], Idle, Idle));
  }

  /** The count is met: the task is done, the marker is cleared and the lease given back. */
  lemma Closes(env: Env, w: World, a: nat, x: Slice) returns (w': World)
    requires a in w.attempts && w.attempts[a].slice == x && |env.source(x)| == 1
    requires w.attempts[a].phase == Cleaning(Work([], [Plain()], [], Idle, Idle)) && x in w.lease && w.lease[x] == a
    ensures Reaches(env, w, w') && w'.tables == w.tables && w'.lease == w.lease - {x}
    ensures w'.attempts == w.attempts[a := w.attempts[a].(phase := Clearing)]
    ensures w'.done == w.done + {w.attempts[a].task} && w'.incomplete == w.incomplete - {x}
  {
    var task := w.attempts[a].task;
    var m := Send(SetPhase(w, a, Committing(false)), {MarkDone(task)});
    assert Finishes(env, w, a, w.attempts[a].phase.work, m);
    Acts(env, w, a, m);
    var n := SetPhase(m.(done := m.done + {task}), a, Committing(true));
    assert Commits(m, a, n);
    Acts(env, m, a, n);
    Join(env, w, m, n);
    var o := Send(SetPhase(n, a, Clearing), {ClearIncomplete(x), Command.Release(x, a)});
    assert Commits(n, a, o);
    Acts(env, n, a, o);
    Join(env, w, n, o);
    w' := Clears(env, o, a, x);
    Join(env, w, o, w');
  }

  lemma Clears(env: Env, w: World, a: nat, x: Slice) returns (w': World)
    requires {ClearIncomplete(x), Command.Release(x, a)} <= w.wire && x in w.lease && w.lease[x] == a
    ensures Reaches(env, w, w')
    ensures w' == w.(incomplete := w.incomplete - {x}, lease := w.lease - {x})
  {
    var m := w.(incomplete := w.incomplete - {x});
    assert ClearIncomplete(x) in w.wire && Executes(w, ClearIncomplete(x), m);
    OneStep(env, w, m);
    w' := m.(lease := m.lease - {x});
    assert Command.Release(x, a) in m.wire && Executes(m, Command.Release(x, a), w');
    OneStep(env, m, w');
    Join(env, w, m, w');
  }

  /** From the submission to the opened stream. */
  lemma Enters(env: Env, w: World, a: nat, task: TaskId, x: Slice) returns (w': World)
    requires (task, x) in env.uses && env.source(x) == [Plain()] && a !in w.attempts && w.lease == map[] && task !in w.done
    ensures Reaches(env, w, w') && w'.tables == w.tables && w'.done == w.done && w'.lease == map[x := a]
    ensures w'.incomplete == w.incomplete + {x}
    ensures w'.attempts == w.attempts[a := Attempt(task, x, Cleaning(Work([Plain()], [], [], Idle, Idle)))]
  {
    var w1 := Asked(w, a, task, x);
    Asks(env, w, a, task, x);
    w' := Opened(w1, a, x, [Plain()]);
    Opens(env, w1, a, x);
    Join(env, w, w1, w');
  }

  /** A whole attempt, in a world where nobody else holds the slice. */
  lemma Completes(env: Env, w: World, a: nat, task: TaskId, x: Slice) returns (w': World)
    requires (task, x) in env.uses && env.source(x) == [Plain()] && a !in w.attempts && w.lease == map[] && task !in w.done
    requires TablesOf(w, x) == EMPTY || TablesOf(w, x) == WRITTEN
    ensures Reaches(env, w, w') && w'.lease == map[] && w'.done == w.done + {task} && w'.incomplete == w.incomplete - {x}
    ensures w'.attempts == w.attempts[a := Attempt(task, x, Clearing)]
    ensures TablesOf(w', x) == WRITTEN && forall y :: y != x ==> TablesOf(w', y) == TablesOf(w, y)
  {
    hide Reaches;
    var w2 := Enters(env, w, a, task, x);
    var w3, sent := Stores(env, w2, a, x);
    Join(env, w, w2, w3);
    Drains(env, w3, a, sent);
    var w4 := SetPhase(w3, a, Cleaning(Work([], [Plain()], [], Idle, Idle)));
    Join(env, w, w3, w4);
    w' := Closes(env, w4, a, x);
    Join(env, w, w4, w');
    forall y | y != x ensures TablesOf(w', y) == TablesOf(w, y) { assert TablesOf(w3, y) == TablesOf(w2, y); }
  }

  // ----- many attempts -----

  ghost predicate Carried(w: World, use: (TaskId, Slice)) { exists a :: a in w.attempts && w.attempts[a] == Attempt(use.0, use.1, Clearing) }

  /** What the world looks like when exactly these attempts have been carried through. */
  ghost predicate AllCarried(w: World, uses: set<(TaskId, Slice)>) {
    && w.lease == map[] && w.incomplete == {} && (forall a :: a in w.attempts ==> a < |uses|)
    && (forall t :: t in w.done ==> exists use :: use in uses && use.0 == t)
    && (forall use :: use in uses ==> Carried(w, use) && TablesOf(w, use.1) == WRITTEN)
    && (forall x :: TablesOf(w, x) == EMPTY || (TablesOf(w, x) == WRITTEN && exists use :: use in uses && use.1 == x))
  }

  /** Whatever attempts are wanted, under ids of one slice each, some run carries them all through. */
  lemma {:induction false} CarriesAll(env: Env, uses: set<(TaskId, Slice)>) returns (w: World)
    requires uses <= env.uses && NoSharedIds(env.uses) && forall use :: use in uses ==> env.source(use.1) == [Plain()]
    ensures Reaches(env, INIT, w) && AllCarried(w, uses)
    decreases |uses|
  {
    hide Reaches, AllCarried;
    if uses == {} {
      w := INIT;
      NothingCarried(env);
    } else {
      var use :| use in uses;
      var rest := uses - {use};
      var m := CarriesAll(env, rest);
      assert |rest| == |uses| - 1;
      StillFree(env, m, rest, use);
      w := Completes(env, m, |rest|, use.0, use.1);
      Join(env, INIT, m, w);
      OneMoreCarried(m, rest, use, w);
      assert rest + {use} == uses;
    }
  }

  lemma NothingCarried(env: Env)
    ensures Reaches(env, INIT, INIT) && AllCarried(INIT, {})
  {
    assert Path(env, [INIT], INIT, INIT);
  }

  lemma StillFree(env: Env, m: World, rest: set<(TaskId, Slice)>, use: (TaskId, Slice))
    requires NoSharedIds(env.uses) && rest <= env.uses && use in env.uses && use !in rest && AllCarried(m, rest)
    ensures use.0 !in m.done && |rest| !in m.attempts && m.lease == map[] && m.incomplete == {}
    ensures TablesOf(m, use.1) == EMPTY || TablesOf(m, use.1) == WRITTEN
  {
    forall other | other in rest ensures other.0 != use.0 {
      assert (use.0, use.1) in env.uses && (other.0, other.1) in env.uses;
      assert other.0 == use.0 ==> other.1 == use.1;
    }
  }

  lemma OneMoreCarried(m: World, rest: set<(TaskId, Slice)>, use: (TaskId, Slice), w: World)
    requires AllCarried(m, rest) && use !in rest && w.lease == map[] && w.incomplete == m.incomplete - {use.1}
    requires w.done == m.done + {use.0} && w.attempts == m.attempts[|rest| := Attempt(use.0, use.1, Clearing)]
    requires TablesOf(w, use.1) == WRITTEN && forall y :: y != use.1 ==> TablesOf(w, y) == TablesOf(m, y)
    ensures AllCarried(w, rest + {use})
  {
    hide TablesOf;
    hide TablesOf, Carried;
    var uses := rest + {use};
    assert |uses| == |rest| + 1;
    forall u | u in uses ensures Carried(w, u) && TablesOf(w, u.1) == WRITTEN {
      StillCarried(m, |rest|, use, w, u);
    }
    forall t | t in w.done ensures exists u :: u in uses && u.0 == t {
      if t == use.0 { assert use in uses; } else { var u :| u in rest && u.0 == t; assert u in uses; }
    }
    forall x ensures TablesOf(w, x) == EMPTY || (TablesOf(w, x) == WRITTEN && exists u :: u in uses && u.1 == x) {
      if x == use.1 { assert use in uses; }
      else if TablesOf(m, x) != EMPTY { var u :| u in rest && u.1 == x; assert u in uses; }
    }
  }

  lemma StillCarried(m: World, a: nat, use: (TaskId, Slice), w: World, u: (TaskId, Slice))
    requires a !in m.attempts && w.attempts == m.attempts[a := Attempt(use.0, use.1, Clearing)]
    requires u == use || Carried(m, u)
    ensures Carried(w, u)
  {
    if u == use {
      assert w.attempts[a] == Attempt(use.0, use.1, Clearing);
    } else {
      var k :| k in m.attempts && m.attempts[k] == Attempt(u.0, u.1, Clearing);
      assert k in w.attempts && w.attempts[k] == m.attempts[k];
    }
  }

  // ----- a slice no id was submitted for -----

  ghost predicate Unused(env: Env, x: Slice) { forall t :: (t, x) !in env.uses }

  /** Nobody works on the slice, nothing is under way to it and nothing was stored. */
  ghost predicate Untouched(w: World, x: Slice) {
    && (forall a :: a in w.attempts ==> w.attempts[a].slice != x)
    && (forall c :: c in w.wire ==> !InsertsInto(c, x))
    && TablesOf(w, x) == EMPTY
  }

  /** A step of an attempt at slice `y` sends commands for `y` only and stores rows there only. */
  ghost predicate Local(w: World, a: nat, y: Slice, w': World) {
    && (forall b :: b in w'.attempts ==> (b in w.attempts && w'.attempts[b].slice == w.attempts[b].slice) || (b == a && w'.attempts[b].slice == y))
    && (forall c, x :: c in w'.wire && InsertsInto(c, x) ==> c in w.wire || x == y)
    && (forall x :: x != y ==> TablesOf(w', x) == TablesOf(w, x))
  }

  lemma LocalKeeps(w: World, a: nat, y: Slice, w': World, x: Slice)
    requires Untouched(w, x) && Local(w, a, y, w') && x != y
    ensures Untouched(w', x)
  {
  }

  lemma PhaseIsLocal(w: World, a: nat, phase: Phase, cmds: set<Command>, w': World)
    requires a in w.attempts && w'.attempts == w.attempts[a := w.attempts[a].(phase := phase)]
    requires w'.wire == w.wire + cmds && w'.tables == w.tables
    requires forall c, x :: c in cmds && InsertsInto(c, x) ==> x == w.attempts[a].slice
    ensures Local(w, a, w.attempts[a].slice, w')
  {
  }

  lemma CleansIsLocal(env: Env, w: World, a: nat, w': World)
    requires a in w.attempts && w.attempts[a].phase.Cleaning? && Cleans(env, w, a, w')
    ensures Local(w, a, w.attempts[a].slice, w')
  {
  }

  lemma StepIsLocal(env: Env, w: World, a: nat, w': World)
    requires a in w.attempts && AttemptStep(env, w, a, w')
    ensures Local(w, a, w.attempts[a].slice, w')
  {
    hide Cleans, Local;
    if w.attempts[a].phase.Cleaning? && Cleans(env, w, a, w') {
      CleansIsLocal(env, w, a, w');
    } else {
      PhaseIsLocal(w, a, w'.attempts[a].phase, w'.wire - w.wire, w');
    }
  }

  lemma ExecuteKeepsUntouched(w: World, c: Command, w': World, x: Slice)
    requires Untouched(w, x) && c in w.wire && Executes(w, c, w')
    ensures Untouched(w', x)
  {
  }

  lemma NextKeepsUntouched(env: Env, w: World, w': World, x: Slice)
    requires Unused(env, x) && Untouched(w, x) && Next(env, w, w')
    ensures Untouched(w', x)
  {
    hide Executes, AttemptStep;
    if EnvironmentStep(w, w') {
      if c :| c in w.wire && Executes(w, c, w') { ExecuteKeepsUntouched(w, c, w', x); }
    } else {
      var a :| AttemptStep(env, w, a, w');
      ActKeepsUntouched(env, w, a, w', x);
    }
  }

  lemma ActKeepsUntouched(env: Env, w: World, a: nat, w': World, x: Slice)
    requires Unused(env, x) && Untouched(w, x) && AttemptStep(env, w, a, w')
    ensures Untouched(w', x)
  {
    if a in w.attempts {
      hide AttemptStep, Local, Untouched;
      StepIsLocal(env, w, a, w');
      OthersOnly(w, a, x);
      LocalKeeps(w, a, w.attempts[a].slice, w', x);
    }
  }

  lemma OthersOnly(w: World, a: nat, x: Slice)
    requires a in w.attempts && Untouched(w, x)
    ensures w.attempts[a].slice != x
  {
  }

  /** Along any run nothing is ever stored for a slice that no id was submitted for. */
  lemma {:induction false} UnusedStaysEmpty(env: Env, ws: seq<World>, k: nat, x: Slice)
    requires Run(env, ws) && k < |ws| && Unused(env, x)
    ensures Untouched(ws[k], x)
  {
    hide Next, Untouched;
    if k > 0 {
      UnusedStaysEmpty(env, ws, k - 1, x);
      NextKeepsUntouched(env, ws[k - 1], ws[k], x);
    } else {
      NothingTouched(x);
    }
  }

  lemma NothingTouched(x: Slice)
    ensures Untouched(INIT, x)
  {
  }
}
