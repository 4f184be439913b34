/** What the lease of a slice is for: one attempt at work at a time, and no row stored more often than asked for. */
module ExactlyOnce {
  import opened Options
  import opened OutputTables
  import opened RetryConvergence
  import opened SliceCommit
  import opened SharedTaskIds
  import opened FinishedRuns

  // ----- one attempt at a time -----

  /** From asking for the marker to the done key: the phases in which an attempt reads and writes. */
  predicate AtWork(phase: Phase) { phase.Marking? || phase.Cleaning? || phase.Committing? }

  /** A lease goes only when its holder has asked for it to be released: none expires or is taken away. */
  ghost predicate KeepsLeases(w: World, w': World) {
    forall s :: s in w.lease ==> (s in w'.lease && w'.lease[s] == w.lease[s]) || Release(s, w.lease[s]) in w.wire
  }

  ghost predicate LeasesKept(ws: seq<World>) { forall i :: 0 <= i < |ws| - 1 ==> KeepsLeases(ws[i], ws[i + 1]) }

  ghost predicate Owns(w: World, a: nat)
    requires a in w.attempts
  {
    w.attempts[a].slice in w.lease && w.lease[w.attempts[a].slice] == a
  }

  predicate MayWork(phase: Phase) { AtWork(phase) || (phase.Asking? && phase.acquired == Some(true)) }

  /** Who was granted the lease owns it until it is done, and only who is done has asked for its release. */
  ghost predicate Leased(w: World) {
    && (forall a :: a in w.attempts && MayWork(w.attempts[a].phase) ==> Owns(w, a))
    && (forall c :: c in w.wire && c.Release? ==> c.owner in w.attempts && !MayWork(w.attempts[c.owner].phase) && !w.attempts[c.owner].phase.Asking?)
  }

  lemma EnvironmentKeepsLeased(w: World, w': World)
    requires Leased(w) && EnvironmentStep(w, w') && KeepsLeases(w, w')
    ensures Leased(w')
  {
    assert w'.attempts == w.attempts && w'.wire == w.wire by { SameAttempts(w, w'); }
  }

  lemma SameAttempts(w: World, w': World)
    requires EnvironmentStep(w, w')
    ensures w'.attempts == w.attempts && w'.wire == w.wire
  {
    if c :| c in w.wire && Executes(w, c, w') {} else {}
  }

  lemma BeginKeepsLeased(w: World, a: nat, w': World)
    requires Leased(w) && KeepsLeases(w, w') && a in w.attempts && w.attempts[a].phase.Asking? && Begins(w, a, w')
    ensures Leased(w')
  {
  }

  lemma WorkKeepsLeased(env: Env, w: World, a: nat, w': World)
    requires Leased(w) && a in w.attempts && w.attempts[a].phase.Cleaning? && Cleans(env, w, a, w')
    ensures Leased(w')
  {
  }

  lemma AttemptKeepsLeased(env: Env, w: World, a: nat, w': World)
    requires Leased(w) && AttemptStep(env, w, a, w') && KeepsLeases(w, w')
    ensures Leased(w')
  {
    hide Begins, Cleans, Leased;
    if a in w.attempts && w.attempts[a].phase.Asking? && Begins(w, a, w') {
      BeginKeepsLeased(w, a, w');
    } else if a in w.attempts && w.attempts[a].phase.Cleaning? && Cleans(env, w, a, w') {
      WorkKeepsLeased(env, w, a, w');
    } else {
      OtherKeepsLeased(env, w, a, w');
    }
  }

  lemma OtherKeepsLeased(env: Env, w: World, a: nat, w': World)
    requires Leased(w) && AttemptStep(env, w, a, w')
    requires !(a in w.attempts && w.attempts[a].phase.Asking? && Begins(w, a, w'))
    requires !(a in w.attempts && w.attempts[a].phase.Cleaning? && Cleans(env, w, a, w'))
    ensures Leased(w')
  {
    hide Begins, Cleans, Stops, Marks;
    if a in w.attempts && Stops(w, a, w') {
      StopKeepsLeased(w, a, w');
    } else if a in w.attempts && w.attempts[a].phase.Marking? {
      MarkKeepsLeased(env, w, a, w');
    }
  }

  lemma StopKeepsLeased(w: World, a: nat, w': World)
    requires Leased(w) && a in w.attempts && Stops(w, a, w')
    ensures Leased(w')
  {
  }

  lemma MarkKeepsLeased(env: Env, w: World, a: nat, w': World)
    requires Leased(w) && a in w.attempts && w.attempts[a].phase.Marking? && Marks(env, w, a, w')
    ensures Leased(w')
  {
  }

  lemma {:induction false} RunIsLeased(env: Env, ws: seq<World>, i: nat)
    requires Run(env, ws) && LeasesKept(ws) && i < |ws|
    ensures Leased(ws[i])
  {
    hide Leased, EnvironmentStep, AttemptStep;
    if i > 0 {
      RunIsLeased(env, ws, i - 1);
      var w, w' := ws[i - 1], ws[i - 1 + 1];
      assert Next(env, w, w') && KeepsLeases(w, w');
      if EnvironmentStep(w, w') {
        EnvironmentKeepsLeased(w, w');
      } else {
        var a :| AttemptStep(env, w, a, w');
        AttemptKeepsLeased(env, w, a, w');
      }
    } else {
      StartsLeased();
    }
  }

  lemma StartsLeased()
    ensures Leased(INIT)
  {
  }

  /** Nobody but its holder and time takes a lease away: any step keeps all leases, or is the expiry of one. */
  lemma OnlyExpiryTakesLeases(env: Env, w: World, w': World)
    requires Next(env, w, w')
    ensures KeepsLeases(w, w') || exists s :: s in w.lease && w' == w.(lease := w.lease - {s})
  {
    if EnvironmentStep(w, w') {
      if c :| c in w.wire && Executes(w, c, w') { CommandTakesNone(w, c, w'); }
    } else {
      var a :| AttemptStep(env, w, a, w');
      ActTakesNone(env, w, a, w');
    }
  }

  lemma CommandTakesNone(w: World, c: Command, w': World)
    requires c in w.wire && Executes(w, c, w')
    ensures KeepsLeases(w, w')
  {
  }

  lemma ActTakesNone(env: Env, w: World, a: nat, w': World)
    requires AttemptStep(env, w, a, w')
    ensures forall s :: s in w.lease ==> s in w'.lease && w'.lease[s] == w.lease[s]
  {
    hide Begins, Cleans;
    if a in w.attempts && w.attempts[a].phase.Asking? && Begins(w, a, w') { BeginTakesNone(w, a, w'); }
    else if a in w.attempts && w.attempts[a].phase.Cleaning? && Cleans(env, w, a, w') { CleanTakesNone(env, w, a, w'); }
  }

  lemma BeginTakesNone(w: World, a: nat, w': World)
    requires a in w.attempts && w.attempts[a].phase.Asking? && Begins(w, a, w')
    ensures forall s :: s in w.lease ==> s in w'.lease && w'.lease[s] == w.lease[s]
  {
  }

  lemma CleanTakesNone(env: Env, w: World, a: nat, w': World)
    requires a in w.attempts && w.attempts[a].phase.Cleaning? && Cleans(env, w, a, w')
    ensures w'.lease == w.lease
  {
  }

  /** While leases are kept no two attempts at a slice are at work at once, and the one at work holds the lease. */
  lemma MutualExclusion(env: Env, ws: seq<World>, i: nat, a: nat, b: nat)
    requires Run(env, ws) && LeasesKept(ws) && i < |ws| && a in ws[i].attempts && b in ws[i].attempts
    requires ws[i].attempts[a].slice == ws[i].attempts[b].slice && AtWork(ws[i].attempts[a].phase) && AtWork(ws[i].attempts[b].phase)
    ensures a == b && ws[i].attempts[a].slice in ws[i].lease && ws[i].lease[ws[i].attempts[a].slice] == a
  {
    RunIsLeased(env, ws, i);
    assert Owns(ws[i], a) && Owns(ws[i], b);
  }

  // ----- no row twice -----

  predicate InFlight<T>(write: Write<T>) { write.Sending? && !write.landed }

  /** The rows of the request in flight, if there is one. */
  ghost function RowsAsked<T>(write: Write<T>): multiset<T> { if InFlight(write) then multiset(write.sent) else multiset{} }

  ghost function WorkOf(w: World, a: nat): Work
    requires a in w.attempts
  {
    if w.attempts[a].phase.Cleaning? then w.attempts[a].phase.work else Work([], [], [], Idle, Idle)
  }

  /** What reaches a slice's tables are rows of a request in flight, of an attempt that still waits for it. */
  ghost predicate Prompt(w: World, w': World) {
    forall x :: TablesOf(w', x) != TablesOf(w, x) ==>
      exists a :: a in w.attempts && w.attempts[a].slice == x && w.attempts[a].phase.Cleaning?
        && TablesOf(w', x).events <= TablesOf(w, x).events + RowsAsked(WorkOf(w, a).events)
        && TablesOf(w', x).tuples <= TablesOf(w, x).tuples + RowsAsked(WorkOf(w, a).tuples)
  }

  /** The step stored rows of the attempt's event request, and the request stayed unanswered. */
  ghost predicate LosesEvents(w: World, w': World, a: nat) {
    && a in w.attempts && a in w'.attempts && InFlight(WorkOf(w, a).events) && InFlight(WorkOf(w', a).events)
    && TablesOf(w', w.attempts[a].slice).events != TablesOf(w, w.attempts[a].slice).events
  }

  ghost predicate LosesTuples(w: World, w': World, a: nat) {
    && a in w.attempts && a in w'.attempts && InFlight(WorkOf(w, a).tuples) && InFlight(WorkOf(w', a).tuples)
    && TablesOf(w', w.attempts[a].slice).tuples != TablesOf(w, w.attempts[a].slice).tuples
  }

  ghost predicate LostEvents(ws: seq<World>, k: int, a: nat) { exists i :: 0 <= i < k < |ws| && LosesEvents(ws[i], ws[i + 1], a) }

  ghost predicate LostTuples(ws: seq<World>, k: int, a: nat) { exists i :: 0 <= i < k < |ws| && LosesTuples(ws[i], ws[i + 1], a) }

  ghost predicate QuietEvents(w: World, w': World, a: nat) {
    a in w'.attempts && w'.attempts[a].phase.Cleaning? ==>
      && InFlight(WorkOf(w', a).events)
      && TablesOf(w', w'.attempts[a].slice).events == TablesOf(w, w'.attempts[a].slice).events
  }

  ghost predicate QuietTuples(w: World, w': World, a: nat) {
    a in w'.attempts && w'.attempts[a].phase.Cleaning? ==>
      && InFlight(WorkOf(w', a).tuples)
      && TablesOf(w', w'.attempts[a].slice).tuples == TablesOf(w, w'.attempts[a].slice).tuples
  }

  /**
   * No insert is carried out late or twice: rows arrive only while the attempt waits for them, and a request
   * that stored rows and was not answered stays unanswered and stores no more. It may still have been
   * carried out in part, and its answer be lost.
   */
  ghost predicate InsertsOnce(ws: seq<World>) {
    forall k :: 0 <= k < |ws| - 1 ==>
      && Prompt(ws[k], ws[k + 1])
      && (forall a :: LostEvents(ws, k, a) ==> QuietEvents(ws[k], ws[k + 1], a))
      && (forall a :: LostTuples(ws, k, a) ==> QuietTuples(ws[k], ws[k + 1], a))
  }

  /** What is stored and what is still to be stored are together no more than the source asks for. */
  ghost predicate FitsWork(t: Tables, src: seq<Event>, work: Work, lostEvents: bool, lostTuples: bool) {
    && multiset(work.processed) + multiset(work.batch) + multiset(work.unread) <= multiset(src)
    && (if lostEvents then InFlight(work.events) else t.events + multiset(Outstanding(work.events)) <= multiset(src))
    && (if lostTuples then InFlight(work.tuples) else t.tuples + multiset(Outstanding(work.tuples)) <= multiset(AllTuples(src)))
  }

  ghost predicate FitsAttempt(env: Env, w: World, a: nat, lostEvents: bool, lostTuples: bool) {
    a in w.attempts && w.attempts[a].phase.Cleaning? ==>
      FitsWork(TablesOf(w, w.attempts[a].slice), env.source(w.attempts[a].slice), w.attempts[a].phase.work, lostEvents, lostTuples)
  }

  ghost predicate AllWithin(env: Env, w: World) { forall x :: Within(TablesOf(w, x), env.source(x)) }

  // ----- every step keeps it -----

  lemma LooksUpFits(t: Tables, src: seq<Event>, work: Work, work': Work, e: bool, d: bool)
    requires Within(t, src) && FitsWork(t, src, work, e, d) && LooksUp(t, work, work') && (e ==> InFlight(work'.events)) && (d ==> InFlight(work'.tuples))
    ensures FitsWork(t, src, work', e, d)
  {
    hide InFlight, Within;
    var batch, rows := work.batch, AllTuples(work.batch);
    if work.events.Idle? && !work'.events.Idle? {
      PendingFits(t, batch, src);
    } else {
      MissingFits(t, batch, src);
    }
  }

  lemma PendingFits(t: Tables, batch: seq<Event>, src: seq<Event>)
    requires Within(t, src) && multiset(batch) <= multiset(src)
    ensures t.events + multiset([] + PendingEvents(batch, ExistingIds(t.events, batch))) <= multiset(src)
  {
    var pending := PendingEvents(batch, ExistingIds(t.events, batch));
    assert [] + pending == pending;
    forall x ensures t.events[x] + multiset(pending)[x] <= multiset(src)[x] { PendingIsNew(t, batch, src, x); }
  }

  lemma MissingFits(t: Tables, batch: seq<Event>, src: seq<Event>)
    requires Within(t, src) && multiset(batch) <= multiset(src)
    ensures var rows := AllTuples(batch);
            t.tuples + multiset([] + Deduct(rows, ObservedCounts(t.tuples, rows))) <= multiset(AllTuples(src))
  {
    var rows := AllTuples(batch);
    var pending := Deduct(rows, ObservedCounts(t.tuples, rows));
    assert [] + pending == pending;
    AllTuplesMonotone(batch, src);
    forall x ensures t.tuples[x] + multiset(pending)[x] <= multiset(AllTuples(src))[x] {
      DeductBag(rows, ObservedCounts(t.tuples, rows), x);
      if x !in rows { assert multiset(rows)[x] == 0; }
    }
  }

  /** What is pending has no row yet. */
  lemma PendingIsNew(t: Tables, batch: seq<Event>, src: seq<Event>, x: Event)
    requires t.events <= multiset(src) && multiset(batch) <= multiset(src)
    ensures t.events[x] + multiset(PendingEvents(batch, ExistingIds(t.events, batch)))[x] <= multiset(src)[x]
  {
    PendingEventsBag(batch, ExistingIds(t.events, batch), x);
    if multiset(batch)[x] > 0 && t.events[x] > 0 {
      assert x in batch && InSpan(batch, x.time);
      assert Ids(batch)[IndexOf(batch, x)] == x.id;
    }
  }

  lemma ReadsFits(t: Tables, src: seq<Event>, work: Work, work': Work, e: bool, d: bool)
    requires Within(t, src) && FitsWork(t, src, work, e, d) && (e ==> InFlight(work'.events)) && (d ==> InFlight(work'.tuples))
    requires Reads(work, work')
    ensures FitsWork(t, src, work', e, d)
  {
    hide InFlight;
    assert work.unread == work'.batch + work'.unread;
    assert multiset(work.batch) == multiset{};
    NothingOutstanding(t);
  }

  lemma NothingOutstanding(t: Tables)
    ensures t.events + multiset([]) == t.events && t.tuples + multiset([]) == t.tuples
  {
  }

  lemma AcknowledgesFits(t: Tables, src: seq<Event>, work: Work, work': Work, e: bool, d: bool)
    requires Within(t, src) && FitsWork(t, src, work, e, d) && (e ==> InFlight(work'.events)) && (d ==> InFlight(work'.tuples))
    requires Acknowledges(work, work')
    ensures FitsWork(t, src, work', e, d)
  {
    assert t.events + multiset([]) == t.events && t.tuples + multiset([]) == t.tuples;
    assert multiset(work'.processed) + multiset(work'.batch) == multiset(work.processed) + multiset(work.batch);
  }

  lemma NextChunkFits<T>(stored: multiset<T>, bound: multiset<T>, write: Write<T>, k: nat)
    requires write.Sending? && write.landed && k <= |write.rest| && stored + multiset(Outstanding(write)) <= bound
    ensures stored + multiset(Outstanding(NextChunk(write, k))) <= bound
  {
    ChunkKeepsWork(write, k);
  }

  lemma SendsFits(t: Tables, src: seq<Event>, w: World, a: nat, w': World, e: bool, d: bool)
    requires a in w.attempts && w.attempts[a].phase.Cleaning? && FitsWork(t, src, WorkOf(w, a), e, d)
    requires SendsEvents(w, a, w.attempts[a].slice, WorkOf(w, a), w') || SendsTuples(w, a, w.attempts[a].slice, WorkOf(w, a), w')
    ensures w'.tables == w.tables && a in w'.attempts && w'.attempts[a].slice == w.attempts[a].slice
    ensures w'.attempts[a].phase.Cleaning? && FitsWork(t, src, WorkOf(w', a), e, d)
  {
    var s, work := w.attempts[a].slice, WorkOf(w, a);
    if SendsEvents(w, a, s, work, w') {
      var k :| 0 < k <= |work.events.rest|
               && w' == SendChunk(w, a, work.(events := NextChunk(work.events, k)), InsertEvents(s, work.events.rest[..k]));
      NextChunkFits(t.events, multiset(src), work.events, k);
    } else {
      var k :| 0 < k <= |work.tuples.rest|
               && w' == SendChunk(w, a, work.(tuples := NextChunk(work.tuples, k)), InsertTuples(s, work.tuples.rest[..k]));
      NextChunkFits(t.tuples, multiset(AllTuples(src)), work.tuples, k);
    }
  }

  lemma LandsFits<T>(stored: multiset<T>, bound: multiset<T>, write: Write<T>)
    requires write.Sending? && stored + multiset(Outstanding(write)) <= bound
    requires stored + multiset(write.sent) <= stored + RowsAsked(write)
    ensures stored + multiset(write.sent) + multiset(Outstanding(write.(landed := true))) <= bound
  {
    var sent, rest, before := multiset(write.sent), multiset(Outstanding(write.(landed := true))), multiset(Outstanding(write));
    if !write.landed {
      assert Outstanding(write) == write.sent + Outstanding(write.(landed := true));
      assert before == sent + rest;
    }
    forall x ensures stored[x] + sent[x] + rest[x] <= bound[x] {
      assert (stored + before)[x] <= bound[x];
      if write.landed { assert (stored + sent)[x] <= (stored + RowsAsked(write))[x]; }
    }
  }

  /** The attempt waits on; what was stored meanwhile was part of its request, which is lost unless nothing was. */
  lemma WaitingFits(t: Tables, t': Tables, src: seq<Event>, work: Work, e: bool, d: bool, e': bool, d': bool)
    requires FitsWork(t, src, work, e, d) && Grew(t, t')
    requires t'.events <= t.events + RowsAsked(work.events) && t'.tuples <= t.tuples + RowsAsked(work.tuples)
    requires e' <==> e || (InFlight(work.events) && t'.events != t.events)
    requires d' <==> d || (InFlight(work.tuples) && t'.tuples != t.tuples)
    ensures FitsWork(t', src, work, e', d')
  {
    if !InFlight(work.events) { assert t'.events == t.events; }
    if !InFlight(work.tuples) { assert t'.tuples == t.tuples; }
  }

  // ----- one step of a run -----

  /** Only one attempt at a slice can have a request in flight. */
  lemma OneCleaner(w: World, a: nat, b: nat)
    requires Leased(w) && a in w.attempts && b in w.attempts && w.attempts[a].slice == w.attempts[b].slice
    requires w.attempts[a].phase.Cleaning? && w.attempts[b].phase.Cleaning?
    ensures a == b
  {
    assert Owns(w, a) && Owns(w, b);
  }

  /** What came to the slice of an attempt that cleans it was part of its own request. */
  lemma OwnRequest(w: World, w': World, a: nat)
    requires Leased(w) && Prompt(w, w') && a in w.attempts && w.attempts[a].phase.Cleaning?
    ensures var x := w.attempts[a].slice;
            && TablesOf(w', x).events <= TablesOf(w, x).events + RowsAsked(WorkOf(w, a).events)
            && TablesOf(w', x).tuples <= TablesOf(w, x).tuples + RowsAsked(WorkOf(w, a).tuples)
  {
    hide Leased, RowsAsked;
    var x := w.attempts[a].slice;
    if TablesOf(w', x) != TablesOf(w, x) {
      var b :| b in w.attempts && w.attempts[b].slice == x && w.attempts[b].phase.Cleaning?
        && TablesOf(w', x).events <= TablesOf(w, x).events + RowsAsked(WorkOf(w, b).events)
        && TablesOf(w', x).tuples <= TablesOf(w, x).tuples + RowsAsked(WorkOf(w, b).tuples);
      OneCleaner(w, a, b);
    }
  }

  /** A step changes one attempt at most, and that one by a step of its own. */
  lemma OthersStay(env: Env, w: World, w': World, a: nat)
    requires Next(env, w, w') && a in w'.attempts
    ensures (a in w.attempts && w'.attempts[a] == w.attempts[a]) || AttemptStep(env, w, a, w')
  {
    if EnvironmentStep(w, w') {
      SameAttempts(w, w');
    } else {
      var b :| AttemptStep(env, w, b, w');
      if b != a { StepsAlone(env, w, b, w', a); }
    }
  }

  lemma StepsAlone(env: Env, w: World, b: nat, w': World, a: nat)
    requires AttemptStep(env, w, b, w') && a != b && a in w'.attempts
    ensures a in w.attempts && w'.attempts[a] == w.attempts[a]
  {
    hide Begins, Cleans;
    if b in w.attempts && w.attempts[b].phase.Asking? && Begins(w, b, w') { BeginsAlone(w, b, w', a); }
    else if b in w.attempts && w.attempts[b].phase.Cleaning? && Cleans(env, w, b, w') { CleansAlone(env, w, b, w', a); }
  }

  lemma BeginsAlone(w: World, b: nat, w': World, a: nat)
    requires b in w.attempts && w.attempts[b].phase.Asking? && Begins(w, b, w') && a != b && a in w'.attempts
    ensures a in w.attempts && w'.attempts[a] == w.attempts[a]
  {
  }

  lemma CleansAlone(env: Env, w: World, b: nat, w': World, a: nat)
    requires b in w.attempts && w.attempts[b].phase.Cleaning? && Cleans(env, w, b, w') && a != b && a in w'.attempts
    ensures a in w.attempts && w'.attempts[a] == w.attempts[a]
  {
  }

  /** Whoever stores rows goes on cleaning, and so does everybody else. */
  lemma StoringGoesOn(env: Env, w: World, w': World, a: nat)
    requires Next(env, w, w') && w'.tables != w.tables && a in w.attempts && w.attempts[a].phase.Cleaning?
    ensures a in w'.attempts && w'.attempts[a].phase.Cleaning? && w'.attempts[a].slice == w.attempts[a].slice
  {
    if EnvironmentStep(w, w') {
      SameAttempts(w, w');
    } else {
      var b :| AttemptStep(env, w, b, w');
      if !(b in w.attempts && w.attempts[b].phase.Cleaning? && Cleans(env, w, b, w')) {
        ControlLeavesTables(env, w, b, w');
      } else {
        CleansOn(env, w, b, w');
      }
    }
  }

  lemma CleansOn(env: Env, w: World, b: nat, w': World)
    requires b in w.attempts && w.attempts[b].phase.Cleaning? && Cleans(env, w, b, w') && w'.tables != w.tables
    ensures forall a :: a in w.attempts && w.attempts[a].phase.Cleaning? ==>
      a in w'.attempts && w'.attempts[a].phase.Cleaning? && w'.attempts[a].slice == w.attempts[a].slice
  {
  }

  lemma StaysWithin(env: Env, w: World, w': World, x: Slice, a: nat, e: bool, d: bool)
    requires Leased(w) && Next(env, w, w') && Prompt(w, w') && Within(TablesOf(w, x), env.source(x))
    requires a in w.attempts && w.attempts[a].slice == x && w.attempts[a].phase.Cleaning? && TablesOf(w', x) != TablesOf(w, x)
    requires FitsAttempt(env, w, a, e, d) && (e ==> QuietEvents(w, w', a)) && (d ==> QuietTuples(w, w', a))
    ensures Within(TablesOf(w', x), env.source(x))
  {
    hide Next, Prompt, Leased, RowsAsked, Outstanding, InFlight;
    OwnRequest(w, w', a);
    StoringGoesOn(env, w, w', a);
    var t, t', src, work := TablesOf(w, x), TablesOf(w', x), env.source(x), w.attempts[a].phase.work;
    StoresWithin(t.events, t'.events, multiset(src), work.events, e);
    StoresWithin(t.tuples, t'.tuples, multiset(AllTuples(src)), work.tuples, d);
  }

  lemma StoresWithin<T>(stored: multiset<T>, stored': multiset<T>, bound: multiset<T>, write: Write<T>, lost: bool)
    requires stored <= bound && stored' <= stored + RowsAsked(write)
    requires if lost then stored' == stored else stored + multiset(Outstanding(write)) <= bound
    ensures stored' <= bound
  {
    if !lost && InFlight(write) { assert Outstanding(write) == write.sent + write.rest; }
  }

  lemma StepFits(env: Env, w: World, w': World, a: nat, e: bool, d: bool, e': bool, d': bool)
    requires Leased(w) && Next(env, w, w') && Prompt(w, w') && AllWithin(env, w) && FitsAttempt(env, w, a, e, d)
    requires (e ==> QuietEvents(w, w', a)) && (d ==> QuietTuples(w, w', a))
    requires (e' <==> e || LosesEvents(w, w', a)) && (d' <==> d || LosesTuples(w, w', a))
    ensures FitsAttempt(env, w', a, e', d')
  {
    hide Next, Prompt, Leased, AttemptStep, FitsWork, Within;
    if a in w'.attempts && w'.attempts[a].phase.Cleaning? {
      OthersStay(env, w, w', a);
      if a in w.attempts && w'.attempts[a] == w.attempts[a] {
        var x := w.attempts[a].slice;
        OwnRequest(w, w', a);
        NextGrows(env, w, w');
        WaitingFits(TablesOf(w, x), TablesOf(w', x), env.source(x), WorkOf(w, a), e, d, e', d');
      } else {
        ActFits(env, w, w', a, e, d, e', d');
      }
    }
  }

  lemma ActFits(env: Env, w: World, w': World, a: nat, e: bool, d: bool, e': bool, d': bool)
    requires Leased(w) && AttemptStep(env, w, a, w') && Prompt(w, w') && AllWithin(env, w) && FitsAttempt(env, w, a, e, d)
    requires (e ==> QuietEvents(w, w', a)) && (d ==> QuietTuples(w, w', a))
    requires (e' <==> e || LosesEvents(w, w', a)) && (d' <==> d || LosesTuples(w, w', a))
    requires a in w'.attempts && w'.attempts[a].phase.Cleaning?
    ensures FitsAttempt(env, w', a, e', d')
  {
    hide Leased, Prompt, FitsWork, AttemptStep, AllWithin, Within;
    if a in w.attempts && w.attempts[a].phase.Cleaning? {
      CleanFits(env, w, w', a, e, d, e', d');
    } else {
      MarksHere(env, w, a, w');
      WithinAt(env, w, w'.attempts[a].slice);
      FreshFits(TablesOf(w', w'.attempts[a].slice), env.source(w'.attempts[a].slice), w'.attempts[a].phase.work);
    }
  }

  /** The cleaning loop is entered from the marker's reply, with nothing done yet. */
  lemma MarksHere(env: Env, w: World, a: nat, w': World)
    requires AttemptStep(env, w, a, w') && a in w'.attempts && w'.attempts[a].phase.Cleaning?
    requires !(a in w.attempts && w.attempts[a].phase.Cleaning?)
    ensures w'.tables == w.tables && a in w.attempts && w'.attempts[a].slice == w.attempts[a].slice
    ensures multiset(w'.attempts[a].phase.work.unread) <= multiset(env.source(w'.attempts[a].slice))
    ensures w'.attempts[a].phase.work == Work(w'.attempts[a].phase.work.unread, [], [], Idle, Idle)
  {
  }

  lemma FreshFits(t: Tables, src: seq<Event>, work: Work)
    requires Within(t, src) && multiset(work.unread) <= multiset(src) && work == Work(work.unread, [], [], Idle, Idle)
    ensures FitsWork(t, src, work, false, false)
  {
    assert t.events + multiset([]) == t.events && t.tuples + multiset([]) == t.tuples;
  }

  lemma CleanFits(env: Env, w: World, w': World, a: nat, e: bool, d: bool, e': bool, d': bool)
    requires Leased(w) && a in w.attempts && w.attempts[a].phase.Cleaning? && AttemptStep(env, w, a, w') && Prompt(w, w')
    requires AllWithin(env, w) && FitsAttempt(env, w, a, e, d)
    requires (e ==> QuietEvents(w, w', a)) && (d ==> QuietTuples(w, w', a))
    requires (e' <==> e || LosesEvents(w, w', a)) && (d' <==> d || LosesTuples(w, w', a))
    requires a in w'.attempts && w'.attempts[a].phase.Cleaning?
    ensures FitsAttempt(env, w', a, e', d')
  {
    hide Leased, Prompt, FitsWork, AttemptStep, AllWithin, Within, Reads, LooksUp, Acknowledges, SendsEvents, SendsTuples, Lands, Works;
    var x, work := w.attempts[a].slice, w.attempts[a].phase.work;
    assert Cleans(env, w, a, w') by { CleansHere(env, w, a, w'); }
    if SendsEvents(w, a, x, work, w') || SendsTuples(w, a, x, work, w') {
      SendsFits(TablesOf(w, x), env.source(x), w, a, w', e, d);
      assert e' == e && d' == d && TablesOf(w', x) == TablesOf(w, x);
    } else if Lands(w, a, x, work, w') {
      OwnRequest(w, w', a);
      LandFits(env, w, w', a, e, d);
    } else if Works(w, a, x, work, w') {
      assert Within(TablesOf(w, x), env.source(x)) by { WithinAt(env, w, x); }
      WorksFits(env, w, w', a, e, d);
    }
  }

  lemma WithinAt(env: Env, w: World, x: Slice)
    requires AllWithin(env, w)
    ensures Within(TablesOf(w, x), env.source(x))
  {
  }

  /** An attempt that cleans before and after a step of its own took a step of the cleaning loop. */
  lemma CleansHere(env: Env, w: World, a: nat, w': World)
    requires a in w.attempts && w.attempts[a].phase.Cleaning? && AttemptStep(env, w, a, w') && a in w'.attempts && w'.attempts[a].phase.Cleaning?
    ensures Cleans(env, w, a, w')
  {
    hide Cleans;
  }

  lemma WorksFits(env: Env, w: World, w': World, a: nat, e: bool, d: bool)
    requires a in w.attempts && w.attempts[a].phase.Cleaning? && Works(w, a, w.attempts[a].slice, w.attempts[a].phase.work, w')
    requires Within(TablesOf(w, w.attempts[a].slice), env.source(w.attempts[a].slice)) && FitsAttempt(env, w, a, e, d)
    requires (e ==> QuietEvents(w, w', a)) && (d ==> QuietTuples(w, w', a))
    ensures w'.tables == w.tables && FitsAttempt(env, w', a, e, d)
  {
    hide Reads, LooksUp, Acknowledges, FitsWork, Within;
    var x, work := w.attempts[a].slice, w.attempts[a].phase.work;
    var t, src := TablesOf(w, x), env.source(x);
    var work' :| (Reads(work, work') || LooksUp(t, work, work') || Acknowledges(work, work')) && w' == SetPhase(w, a, Cleaning(work'));
    if Reads(work, work') { ReadsFits(t, src, work, work', e, d); }
    else if LooksUp(t, work, work') { LooksUpFits(t, src, work, work', e, d); }
    else { AcknowledgesFits(t, src, work, work', e, d); }
  }

  lemma LandFits(env: Env, w: World, w': World, a: nat, e: bool, d: bool)
    requires a in w.attempts && w.attempts[a].phase.Cleaning? && Lands(w, a, w.attempts[a].slice, w.attempts[a].phase.work, w')
    requires FitsAttempt(env, w, a, e, d) && (e ==> QuietEvents(w, w', a)) && (d ==> QuietTuples(w, w', a))
    requires var x := w.attempts[a].slice;
             && TablesOf(w', x).events <= TablesOf(w, x).events + RowsAsked(WorkOf(w, a).events)
             && TablesOf(w', x).tuples <= TablesOf(w, x).tuples + RowsAsked(WorkOf(w, a).tuples)
    ensures FitsAttempt(env, w', a, e, d) && !LosesEvents(w, w', a) && !LosesTuples(w, w', a)
  {
    hide RowsAsked, Outstanding, FitsAttempt, QuietEvents, QuietTuples;
    var x, work := w.attempts[a].slice, w.attempts[a].phase.work;
    if work.events.Sending? && w' == SetPhase(Store(w, x, multiset(work.events.sent), multiset{}), a, Cleaning(work.(events := work.events.(landed := true)))) {
      LandEventsFits(env, w, w', a, e, d);
    } else {
      LandTuplesFits(env, w, w', a, e, d);
    }
  }

  lemma LandEventsFits(env: Env, w: World, w': World, a: nat, e: bool, d: bool)
    requires a in w.attempts && w.attempts[a].phase.Cleaning? && WorkOf(w, a).events.Sending? && FitsAttempt(env, w, a, e, d)
    requires var x, work := w.attempts[a].slice, WorkOf(w, a);
             && w' == SetPhase(Store(w, x, multiset(work.events.sent), multiset{}), a, Cleaning(work.(events := work.events.(landed := true))))
             && TablesOf(w', x).events <= TablesOf(w, x).events + RowsAsked(work.events)
    requires (e ==> QuietEvents(w, w', a)) && (d ==> QuietTuples(w, w', a))
    ensures FitsAttempt(env, w', a, e, d) && !LosesEvents(w, w', a) && !LosesTuples(w, w', a)
  {
    hide RowsAsked, Outstanding, Store;
    var x, work := w.attempts[a].slice, WorkOf(w, a);
    var t, t', src := TablesOf(w, x), TablesOf(w', x), env.source(x);
    StoredIs(w, x, multiset(work.events.sent), multiset{});
    assert t'.events == t.events + multiset(work.events.sent) && t'.tuples == t.tuples + multiset{} == t.tuples;
    LandsFits(t.events, multiset(src), work.events);
  }

  lemma LandTuplesFits(env: Env, w: World, w': World, a: nat, e: bool, d: bool)
    requires a in w.attempts && w.attempts[a].phase.Cleaning? && WorkOf(w, a).tuples.Sending? && FitsAttempt(env, w, a, e, d)
    requires var x, work := w.attempts[a].slice, WorkOf(w, a);
             && w' == SetPhase(Store(w, x, multiset{}, multiset(work.tuples.sent)), a, Cleaning(work.(tuples := work.tuples.(landed := true))))
             && TablesOf(w', x).tuples <= TablesOf(w, x).tuples + RowsAsked(work.tuples)
    requires (e ==> QuietEvents(w, w', a)) && (d ==> QuietTuples(w, w', a))
    ensures FitsAttempt(env, w', a, e, d) && !LosesEvents(w, w', a) && !LosesTuples(w, w', a)
  {
    hide RowsAsked, Outstanding, Store;
    var x, work := w.attempts[a].slice, WorkOf(w, a);
    var t, t', src := TablesOf(w, x), TablesOf(w', x), env.source(x);
    StoredIs(w, x, multiset{}, multiset(work.tuples.sent));
    assert t'.tuples == t.tuples + multiset(work.tuples.sent) && t'.events == t.events + multiset{} == t.events;
    LandsFits(t.tuples, multiset(AllTuples(src)), work.tuples);
  }

  lemma StoredIs(w: World, x: Slice, events: multiset<Event>, tuples: multiset<Tuple>)
    ensures TablesOf(Store(w, x, events, tuples), x) == Tables(TablesOf(w, x).events + events, TablesOf(w, x).tuples + tuples)
    ensures Store(w, x, events, tuples).attempts == w.attempts
  {
  }

  // ----- over whole runs -----

  lemma StepWithin(env: Env, ws: seq<World>, k: nat)
    requires Run(env, ws) && InsertsOnce(ws) && k + 1 < |ws| && Leased(ws[k]) && AllWithin(env, ws[k])
    requires forall a :: FitsAttempt(env, ws[k], a, LostEvents(ws, k, a), LostTuples(ws, k, a))
    ensures AllWithin(env, ws[k + 1])
  {
    hide Next, Leased, FitsAttempt, LostEvents, LostTuples, QuietEvents, QuietTuples;
    var w, w' := ws[k], ws[k + 1];
    assert Next(env, w, w');
    forall x ensures Within(TablesOf(w', x), env.source(x)) {
      assert Within(TablesOf(w, x), env.source(x));
      if TablesOf(w', x) != TablesOf(w, x) {
        var a :| a in w.attempts && w.attempts[a].slice == x && w.attempts[a].phase.Cleaning?;
        StaysWithin(env, w, w', x, a, LostEvents(ws, k, a), LostTuples(ws, k, a));
      }
    }
  }

  lemma LostByNow(ws: seq<World>, k: nat, a: nat)
    requires k + 1 < |ws|
    ensures LostEvents(ws, k + 1, a) <==> LostEvents(ws, k, a) || LosesEvents(ws[k], ws[k + 1], a)
    ensures LostTuples(ws, k + 1, a) <==> LostTuples(ws, k, a) || LosesTuples(ws[k], ws[k + 1], a)
  {
  }

  lemma {:induction false} RunFits(env: Env, ws: seq<World>, k: nat)
    requires Run(env, ws) && LeasesKept(ws) && InsertsOnce(ws) && k < |ws|
    ensures AllWithin(env, ws[k]) && forall a :: FitsAttempt(env, ws[k], a, LostEvents(ws, k, a), LostTuples(ws, k, a))
  {
    hide Next, Leased, FitsAttempt, LostEvents, LostTuples, QuietEvents, QuietTuples, AllWithin, KeepsLeases, Prompt, LosesEvents, LosesTuples;
    if k > 0 {
      var i := k - 1;
      RunFits(env, ws, i);
      RunIsLeased(env, ws, i);
      StepWithin(env, ws, i);
      assert Next(env, ws[i], ws[i + 1]) && Prompt(ws[i], ws[i + 1]);
      forall a ensures FitsAttempt(env, ws[k], a, LostEvents(ws, k, a), LostTuples(ws, k, a)) {
        LostByNow(ws, i, a);
        StepFits(env, ws[i], ws[k], a, LostEvents(ws, i, a), LostTuples(ws, i, a), LostEvents(ws, k, a), LostTuples(ws, k, a));
      }
    } else {
      StartsFitting(env, ws);
    }
  }

  lemma StartsFitting(env: Env, ws: seq<World>)
    requires ws != [] && ws[0] == INIT
    ensures AllWithin(env, ws[0]) && forall a :: FitsAttempt(env, ws[0], a, LostEvents(ws, 0, a), LostTuples(ws, 0, a))
  {
  }

  /** While leases are kept and no insert is repeated, no row is stored more often than its source asks for. */
  lemma NoRowTwice(env: Env, ws: seq<World>, k: nat, x: Slice)
    requires Run(env, ws) && LeasesKept(ws) && InsertsOnce(ws) && k < |ws|
    ensures forall e :: TablesOf(ws[k], x).events[e] <= multiset(env.source(x))[e]
    ensures forall r :: TablesOf(ws[k], x).tuples[r] <= multiset(AllTuples(env.source(x)))[r]
  {
    hide LostEvents, LostTuples, FitsAttempt, LeasesKept, InsertsOnce, Run;
    RunFits(env, ws, k);
    assert Within(TablesOf(ws[k], x), env.source(x));
  }

  /** So a slice that has rows and no marker holds its source, each row exactly as often as asked for. */
  lemma UnmarkedIsExact(env: Env, ws: seq<World>, k: nat, x: Slice)
    requires Run(env, ws) && LeasesKept(ws) && InsertsOnce(ws) && k < |ws| && NoSharedIds(env.uses) && DistinctIds(env.source(x))
    requires TablesOf(ws[k], x) != EMPTY && x !in ws[k].incomplete
    ensures TablesOf(ws[k], x).events == multiset(env.source(x))
    ensures forall id, key, value :: TablesOf(ws[k], x).tuples[Tuple(id, key, value)] == Wanted(env.source(x), id, key, value)
  {
    hide LostEvents, LostTuples, FitsAttempt, LeasesKept, InsertsOnce, Run;
    RunFits(env, ws, k);
    CommitSafety(env, ws, k, x);
    assert Within(TablesOf(ws[k], x), env.source(x));
    CompleteWithinIsExact(env.source(x), TablesOf(ws[k], x));
    forall id, key, value ensures TablesOf(ws[k], x).tuples[Tuple(id, key, value)] == Wanted(env.source(x), id, key, value) {
      AllTuplesCount(env.source(x), id, key, value);
    }
  }

  // ----- what is done is not done again -----

  /** Submitted when its task was done already, an attempt only ever asks, skips or ends. */
  predicate Idles(phase: Phase) { phase.Skipping? || phase.Ended? || (phase.Asking? && phase.completed != Some(false)) }

  lemma StepIdles(env: Env, w: World, w': World, a: nat)
    requires Next(env, w, w') && a in w'.attempts && w'.attempts[a].task in w.done
    requires a in w.attempts ==> Idles(w.attempts[a].phase)
    ensures Idles(w'.attempts[a].phase)
  {
    OthersStay(env, w, w', a);
    if !(a in w.attempts && w'.attempts[a] == w.attempts[a]) { hide Cleans, Marks, Commits, Next; }
  }

  lemma SameTask(env: Env, w: World, w': World, a: nat)
    requires Next(env, w, w') && a in w.attempts
    ensures a in w'.attempts && w'.attempts[a].task == w.attempts[a].task && w'.attempts[a].slice == w.attempts[a].slice
  {
    if EnvironmentStep(w, w') { SameAttempts(w, w'); } else {
      var b :| AttemptStep(env, w, b, w');
      KeepsTask(env, w, b, w', a);
    }
  }

  lemma KeepsTask(env: Env, w: World, b: nat, w': World, a: nat)
    requires AttemptStep(env, w, b, w') && a in w.attempts
    ensures a in w'.attempts && w'.attempts[a].task == w.attempts[a].task && w'.attempts[a].slice == w.attempts[a].slice
  {
    hide Begins, Cleans;
    if b in w.attempts && w.attempts[b].phase.Asking? && Begins(w, b, w') { BeginKeepsTask(w, b, w', a); }
    else if b in w.attempts && w.attempts[b].phase.Cleaning? && Cleans(env, w, b, w') { CleanKeepsTask(env, w, b, w', a); }
  }

  lemma BeginKeepsTask(w: World, b: nat, w': World, a: nat)
    requires b in w.attempts && w.attempts[b].phase.Asking? && Begins(w, b, w') && a in w.attempts
    ensures a in w'.attempts && w'.attempts[a].task == w.attempts[a].task && w'.attempts[a].slice == w.attempts[a].slice
  {
  }

  lemma CleanKeepsTask(env: Env, w: World, b: nat, w': World, a: nat)
    requires b in w.attempts && w.attempts[b].phase.Cleaning? && Cleans(env, w, b, w') && a in w.attempts
    ensures a in w'.attempts && w'.attempts[a].task == w.attempts[a].task && w'.attempts[a].slice == w.attempts[a].slice
  {
  }

  /** While its done key lasts, no attempt submitted after it was set works on the task again. */
  lemma {:induction false} DoneTaskIsSkipped(env: Env, ws: seq<World>, i: nat, k: nat, a: nat)
    requires Run(env, ws) && i <= k < |ws| && a !in ws[i].attempts && a in ws[k].attempts
    requires forall j :: i <= j <= k ==> ws[k].attempts[a].task in ws[j].done
    ensures Idles(ws[k].attempts[a].phase) && !AtWork(ws[k].attempts[a].phase)
  {
    hide Next, Idles;
    var w, w' := ws[k - 1], ws[k - 1 + 1];
    assert Next(env, w, w');
    if a in w.attempts {
      SameTask(env, w, w', a);
      DoneTaskIsSkipped(env, ws, i, k - 1, a);
    }
    StepIdles(env, w, w', a);
    IdlingIsNoWork(w'.attempts[a].phase);
  }

  lemma IdlingIsNoWork(phase: Phase)
    requires Idles(phase)
    ensures !AtWork(phase)
  {
  }

  // ----- such a run -----

  /** The lease stays, and whatever is stored is answered. */
  ghost predicate Steady(w: World, w': World) {
    && KeepsLeases(w, w') && Prompt(w, w')
    && forall a :: !LosesEvents(w, w', a) && !LosesTuples(w, w', a)
  }

  ghost predicate SteadyRun(env: Env, ws: seq<World>) {
    Run(env, ws) && forall i :: 0 <= i < |ws| - 1 ==> Steady(ws[i], ws[i + 1])
  }

  lemma SteadyIsKept(env: Env, ws: seq<World>)
    requires SteadyRun(env, ws)
    ensures Run(env, ws) && LeasesKept(ws) && InsertsOnce(ws)
  {
    hide KeepsLeases, Prompt, LosesEvents, LosesTuples, QuietEvents, QuietTuples, Next;
    forall k, a ensures !LostEvents(ws, k, a) && !LostTuples(ws, k, a) {
      assert forall i :: 0 <= i < k < |ws| ==> Steady(ws[i], ws[i + 1]);
    }
    forall k | 0 <= k < |ws| - 1 ensures KeepsLeases(ws[k], ws[k + 1]) && Prompt(ws[k], ws[k + 1]) { assert Steady(ws[k], ws[k + 1]); }
  }

  lemma Extended(env: Env, ws: seq<World>, w': World)
    requires SteadyRun(env, ws) && Next(env, ws[|ws| - 1], w') && Steady(ws[|ws| - 1], w')
    ensures SteadyRun(env, ws + [w'])
  {
    hide Next, Steady;
  }

  /** A step of attempt 0 that stores nothing. */
  lemma StepsOn(env: Env, ws: seq<World>, w': World) returns (ws': seq<World>)
    requires SteadyRun(env, ws) && ws != [] && AttemptStep(env, ws[|ws| - 1], 0, w')
    requires w'.tables == ws[|ws| - 1].tables && KeepsLeases(ws[|ws| - 1], w')
    ensures SteadyRun(env, ws') && ws' != [] && ws'[|ws'| - 1] == w'
  {
    hide AttemptStep, KeepsLeases;
    ws' := ws + [w'];
    assert forall x :: TablesOf(w', x) == TablesOf(ws[|ws| - 1], x);
    Extended(env, ws, w');
  }

  lemma WorksOn(env: Env, ws: seq<World>, work: Work, work': Work) returns (ws': seq<World>)
    requires SteadyRun(env, ws) && ws != [] && 0 in ws[|ws| - 1].attempts && ws[|ws| - 1].attempts[0].phase == Cleaning(work)
    requires var w := ws[|ws| - 1]; Reads(work, work') || LooksUp(TablesOf(w, w.attempts[0].slice), work, work') || Acknowledges(work, work')
    ensures SteadyRun(env, ws') && ws' != [] && ws'[|ws'| - 1] == SetPhase(ws[|ws| - 1], 0, Cleaning(work'))
  {
    hide Reads, LooksUp, Acknowledges, SteadyRun;
    var w := ws[|ws| - 1];
    assert Works(w, 0, w.attempts[0].slice, work, SetPhase(w, 0, Cleaning(work')));
    ws' := StepsOn(env, ws, SetPhase(w, 0, Cleaning(work')));
  }

  /** What is asked of runs above is what an undisturbed attempt does: it stores its slice and unmarks it. */
  lemma UndisturbedRun(task: TaskId, x: Slice) returns (env: Env, ws: seq<World>)
    ensures Run(env, ws) && LeasesKept(ws) && InsertsOnce(ws) && NoSharedIds(env.uses) && DistinctIds(env.source(x))
    ensures var w := ws[|ws| - 1]; TablesOf(w, x) != EMPTY && x !in w.incomplete && task in w.done && w.lease == map[]
  {
    hide SteadyRun;
    var e := Plain();
    env := Env(s => [e], {(task, x)});
    ws := OpensSteadily(env, task, x);
    ws := StoresSteadily(env, ws, x);
    ws := DrainsSteadily(env, ws, x);
    ws := ClosesSteadily(env, ws, task, x);
    SteadyIsKept(env, ws);
  }

  lemma OpensSteadily(env: Env, task: TaskId, x: Slice) returns (ws: seq<World>)
    requires env.uses == {(task, x)} && env.source(x) == [Plain()]
    ensures SteadyRun(env, ws) && ws != []
    ensures ws[|ws| - 1] == World(map[x := 0], {}, {x}, map[], {Command.Acquire(x, 0), MarkIncomplete(x)},
                                  map[0 := Attempt(task, x, Cleaning(Work([Plain()], [], [], Idle, Idle)))])
  {
    var w1 := Submitted(INIT, 0, task, x);
    assert Submits(env, INIT, 0, w1);
    ws := StepsOn(env, [INIT], w1);
    var w2 := SetPhase(w1.(lease := map[x := 0]), 0, Asking(Some(true), None));
    ws := StepsOn(env, ws, w2);
    var w3 := SetPhase(w2, 0, Asking(Some(true), Some(false)));
    ws := StepsOn(env, ws, w3);
    var w4 := Send(SetPhase(w3, 0, Marking(false)), {MarkIncomplete(x)});
    ws := StepsOn(env, ws, w4);
    var w5 := SetPhase(w4.(incomplete := w4.incomplete + {x}), 0, Marking(true));
    ws := StepsOn(env, ws, w5);
    ws := StepsOn(env, ws, SetPhase(w5, 0, Cleaning(Work([Plain()], [], [], Idle, Idle))));
  }

  lemma SendsSteadily(env: Env, ws: seq<World>, x: Slice) returns (ws': seq<World>)
    requires SteadyRun(env, ws) && ws != [] && ws[|ws| - 1].tables == map[] && 0 in ws[|ws| - 1].attempts
    requires ws[|ws| - 1].attempts[0].slice == x && ws[|ws| - 1].attempts[0].phase == Cleaning(Work([Plain()], [], [], Idle, Idle))
    ensures SteadyRun(env, ws') && ws' != []
    ensures ws'[|ws'| - 1] == SendChunk(ws[|ws| - 1], 0, Work([], [], [Plain()], Sending([Plain()], false, []), Idle), InsertEvents(x, [Plain()]))
  {
    hide SteadyRun, AttemptStep;
    var e, w := Plain(), ws[|ws| - 1];
    assert [e][..1] == [e] && [e][1..] == [];
    var work0, work1 := Work([e], [], [], Idle, Idle), Work([], [], [e], Idle, Idle);
    assert Reads(work0, work1);
    ws' := WorksOn(env, ws, work0, work1);
    NothingStored(e);
    var work2 := work1.(events := Sending([], true, [e]));
    ws' := WorksOn(env, ws', work1, work2);
    var w2 := SetPhase(w, 0, Cleaning(work2));
    assert ws'[|ws'| - 1] == w2;
    ws' := SendsOn(env, ws', x, work2);
  }

  lemma SendsOn(env: Env, ws: seq<World>, x: Slice, work: Work) returns (ws': seq<World>)
    requires SteadyRun(env, ws) && ws != [] && 0 in ws[|ws| - 1].attempts && ws[|ws| - 1].attempts[0].slice == x
    requires work == Work([], [], [Plain()], Sending([], true, [Plain()]), Idle) && ws[|ws| - 1].attempts[0].phase == Cleaning(work)
    ensures SteadyRun(env, ws') && ws' != []
    ensures ws'[|ws'| - 1] == SendChunk(ws[|ws| - 1], 0, work.(events := Sending([Plain()], false, [])), InsertEvents(x, [Plain()]))
  {
    hide SteadyRun;
    assert [Plain()][..1] == [Plain()] && [Plain()][1..] == [];
    var w' := SendChunk(ws[|ws| - 1], 0, work.(events := NextChunk(work.events, 1)), InsertEvents(x, [Plain()]));
    assert SendsEvents(ws[|ws| - 1], 0, x, work, w');
    ws' := StepsOn(env, ws, w');
  }

  lemma StoresSteadily(env: Env, ws: seq<World>, x: Slice) returns (ws': seq<World>)
    requires SteadyRun(env, ws) && ws != [] && ws[|ws| - 1].tables == map[] && ws[|ws| - 1].attempts.Keys == {0}
    requires ws[|ws| - 1].attempts[0].slice == x && ws[|ws| - 1].attempts[0].phase == Cleaning(Work([Plain()], [], [], Idle, Idle))
    ensures SteadyRun(env, ws') && ws' != []
    ensures var w := ws[|ws| - 1];
      ws'[|ws'| - 1] == SetPhase(w.(tables := map[x := WRITTEN], wire := w.wire + {InsertEvents(x, [Plain()])}), 0,
                                 Cleaning(Work([], [], [Plain()], Sending([Plain()], true, []), Idle)))
  {
    hide SteadyRun, Steady;
    ws' := SendsSteadily(env, ws, x);
    var w, work := ws'[|ws'| - 1], Work([], [], [Plain()], Sending([Plain()], false, []), Idle);
    var w' := SetPhase(Store(w, x, multiset(work.events.sent), multiset{}), 0, Cleaning(work.(events := work.events.(landed := true))));
    assert multiset([Plain()]) == multiset{Plain()} && multiset{} + multiset{Plain()} == multiset{Plain()};
    assert w.tables == map[] && TablesOf(w, x) == EMPTY && work.events.sent == [Plain()];
    assert EMPTY.events == multiset{} && EMPTY.tuples + multiset{} == multiset{};
    assert w'.tables[x] == WRITTEN && w'.tables.Keys == {x};
    assert AttemptStep(env, w, 0, w') by { assert Lands(w, 0, x, work, w'); }
    LandsSteadily(w, x, work, w');
    Extended(env, ws', w');
    ws' := ws' + [w'];
  }

  lemma LandsSteadily(w: World, x: Slice, work: Work, w': World)
    requires w.attempts.Keys == {0} && w.attempts[0].slice == x && w.attempts[0].phase == Cleaning(work) && InFlight(work.events)
    requires w' == SetPhase(Store(w, x, multiset(work.events.sent), multiset{}), 0, Cleaning(work.(events := work.events.(landed := true))))
    ensures Steady(w, w')
  {
    assert WorkOf(w, 0) == work && !InFlight(WorkOf(w', 0).events);
  }

  lemma DrainsSteadily(env: Env, ws: seq<World>, x: Slice) returns (ws': seq<World>)
    requires SteadyRun(env, ws) && ws != [] && 0 in ws[|ws| - 1].attempts && ws[|ws| - 1].attempts[0].slice == x
    requires ws[|ws| - 1].attempts[0].phase == Cleaning(Work([], [], [Plain()], Sending([Plain()], true, []), Idle))
    ensures SteadyRun(env, ws') && ws' != []
    ensures ws'[|ws'| - 1] == SetPhase(ws[|ws| - 1], 0, Cleaning(Work([], [Plain()], [], Idle, Idle)))
  {
    hide SteadyRun;
    var e, t := Plain(), TablesOf(ws[|ws| - 1], x);
    PlainHasNoTuples();
    var work1 := Work([], [], [e], Sending([e], true, []), Idle);
    var work2 := work1.(events := Stored);
    ws' := WorksOn(env, ws, work1, work2);
    var work3 := work2.(tuples := Sending([], true, Deduct([], ObservedCounts(t.tuples, []))));
    ws' := WorksOn(env, ws', work2, work3);
    var work4 := work3.(tuples := Stored);
    ws' := WorksOn(env, ws', work3, work4);
    assert [] + [e] == [e];
    ws' := WorksOn(env, ws', work4, Work([], [e], [], Idle, Idle));
  }

  lemma ClosesSteadily(env: Env, ws: seq<World>, task: TaskId, x: Slice) returns (ws': seq<World>)
    requires SteadyRun(env, ws) && ws != [] && 0 in ws[|ws| - 1].attempts && |env.source(x)| == 1
    requires ws[|ws| - 1].attempts[0] == Attempt(task, x, Cleaning(Work([], [Plain()], [], Idle, Idle))) && ws[|ws| - 1].lease == map[x := 0]
    ensures SteadyRun(env, ws') && ws' != []
    ensures var w := ws'[|ws'| - 1]; w.tables == ws[|ws| - 1].tables && w.lease == map[] && x !in w.incomplete && task in w.done
  {
    hide SteadyRun;
    var w := ws[|ws| - 1];
    var m := Send(SetPhase(w, 0, Committing(false)), {MarkDone(task)});
    assert Finishes(env, w, 0, w.attempts[0].phase.work, m);
    ws' := StepsOn(env, ws, m);
    var n := SetPhase(m.(done := m.done + {task}), 0, Committing(true));
    ws' := StepsOn(env, ws', n);
    var o := Send(SetPhase(n, 0, Clearing), {ClearIncomplete(x), Command.Release(x, 0)});
    ws' := StepsOn(env, ws', o);
    ws' := CommandSteadily(env, ws', ClearIncomplete(x), o.(incomplete := o.incomplete - {x}));
    ws' := CommandSteadily(env, ws', Command.Release(x, 0), o.(incomplete := o.incomplete - {x}, lease := map[]));
  }

  lemma CommandSteadily(env: Env, ws: seq<World>, c: Command, w': World) returns (ws': seq<World>)
    requires SteadyRun(env, ws) && ws != [] && c in ws[|ws| - 1].wire && Executes(ws[|ws| - 1], c, w')
    requires w'.tables == ws[|ws| - 1].tables && KeepsLeases(ws[|ws| - 1], w')
    ensures SteadyRun(env, ws') && ws' != [] && ws'[|ws'| - 1] == w'
  {
    hide Executes, KeepsLeases;
    ws' := ws + [w'];
    assert forall x :: TablesOf(w', x) == TablesOf(ws[|ws| - 1], x);
    assert EnvironmentStep(ws[|ws| - 1], w');
    Extended(env, ws, w');
  }

  // ----- without the lease -----

  /** A lease that expires under a request in flight: a second attempt stores the row, and then the first request does. */
  lemma LostLeaseStoresTwice(task: TaskId, x: Slice) returns (env: Env, w: World)
    ensures Reaches(env, INIT, w) && NoSharedIds(env.uses) && DistinctIds(env.source(x))
    ensures exists e :: e in env.source(x) && multiset(env.source(x))[e] == 1 && TablesOf(w, x).events[e] == 2
  {
    var e := Plain();
    env := Env(s => [e], {(task, x)});
    var w1 := SendsFirst(env, task, x);
    var w2 := w1.(lease := w1.lease - {x});
    Expires(env, w1, x);
    var w3 := Asked(w2, 1, task, x);
    Asks(env, w2, 1, task, x);
    var w4 := Opened(w3, 1, x, [e]);
    Opens(env, w3, 1, x);
    var w5 := HalfWritten(w4, 1, x, e);
    WritesHalf(env, w4, 1, x, e);
    var work := Work([], [], [e], Sending([e], false, []), Idle);
    w := SetPhase(Store(w5, x, multiset([e]), multiset{}), 0, Cleaning(work.(events := work.events.(landed := true))));
    assert Lands(w5, 0, x, work, w);
    Acts(env, w5, 0, w);
    Join(env, INIT, w1, w2);
    Join(env, INIT, w2, w3);
    Join(env, INIT, w3, w4);
    Join(env, INIT, w4, w5);
    Join(env, INIT, w5, w);
    assert e in env.source(x) && TablesOf(w, x).events == multiset{e} + multiset{e};
  }

  lemma SendsFirst(env: Env, task: TaskId, x: Slice) returns (w: World)
    requires (task, x) in env.uses && env.source(x) == [Plain()]
    ensures Reaches(env, INIT, w) && w.attempts == map[0 := Attempt(task, x, Cleaning(Work([], [], [Plain()], Sending([Plain()], false, []), Idle)))]
    ensures w.tables == map[] && w.done == {}
  {
    var e := Plain();
    var w1 := Enters(env, INIT, 0, task, x);
    var work0, work1 := Work([e], [], [], Idle, Idle), Work([], [], [e], Idle, Idle);
    assert Reads(work0, work1) by { assert [e][..1] == [e] && [e][1..] == []; }
    Goes(env, w1, 0, work0, work1);
    NothingStored(e);
    var work2 := work1.(events := Sending([], true, [e]));
    GoesOn(env, w1, 0, work1, work2);
    var w2 := SetPhase(w1, 0, Cleaning(work2));
    assert [e][..1] == [e] && [e][1..] == [];
    w := SendChunk(w2, 0, work2.(events := NextChunk(work2.events, 1)), InsertEvents(x, [e]));
    assert SendsEvents(w2, 0, x, work2, w);
    Acts(env, w2, 0, w);
    Join(env, INIT, w1, w2);
    Join(env, INIT, w2, w);
  }
}
