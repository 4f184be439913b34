/** The two halves put together: the scheduler's history against the runs of the commit protocol. */
module Pipeline {
  // What the scheduler concludes, it concludes from the backlog reader's looks and the nodes' reports; both
  // were made in some run of the protocol, and there they mean that slices are complete.

  import opened Tasks
  import opened Ledger
  import opened SchedulerState
  import opened ControlPlane
  import BacklogReader
  import FinishedRuns
  import RetryConvergence
  import RunLaws
  import ScanPlan
  import SharedTaskIds
  import SliceCommit
  import TaskIds

  type World = SliceCommit.World

  // ----- the ids the nodes commit under -----

  ghost predicate IsUse(ids: IdScheme, text: int -> string, log: set<Slice>, use: (string, TaskIds.Slice), run: int, s: Slice, attempt: nat) {
    s in log && attempt <= MAX_ATTEMPTS && use == (Id(ids, run, s, attempt), Dated(text, s))
  }

  /** Every id stands for an attempt at a slice of the log, under any run, of this process or an earlier one. */
  ghost predicate Scheduled(ids: IdScheme, text: int -> string, log: set<Slice>, uses: set<(string, TaskIds.Slice)>) {
    forall use :: use in uses ==> exists run: int, s, attempt: nat :: IsUse(ids, text, log, use, run, s, attempt)
  }

  /** Ids that tell tasks apart are never used for two slices, which is all the commit protocol asks. */
  lemma ScheduledIdsNotShared(ids: IdScheme, decode: Decoder, text: int -> string, log: set<Slice>, uses: set<(string, TaskIds.Slice)>)
    requires Tells(ids, decode, log) && Scheduled(ids, text, log, uses)
    ensures SliceCommit.NoSharedIds(uses)
  {
    forall t, a, b | (t, a) in uses && (t, b) in uses ensures a == b {
      var run: int, s, m: nat :| IsUse(ids, text, log, (t, a), run, s, m);
      var run': int, s', n: nat :| IsUse(ids, text, log, (t, b), run', s', n);
      assert Decodes(ids, decode, run, s, m) && Decodes(ids, decode, run', s', n);
    }
  }

  ghost function UsesOf(text: int -> string, trace: seq<Step>): set<(string, TaskIds.Slice)> {
    set i | 0 <= i < |trace| && trace[i].Sent? :: (trace[i].task.id, Dated(text, trace[i].task.slice))
  }

  lemma SentIdsAreScheduled(env: Env, text: int -> string, trace: seq<Step>)
    requires Named(env, trace)
    ensures Scheduled(env.ids, text, env.log, UsesOf(text, trace))
  {
    forall use | use in UsesOf(text, trace) ensures exists run: int, s, attempt: nat :: IsUse(env.ids, text, env.log, use, run, s, attempt) {
      var i :| 0 <= i < |trace| && trace[i].Sent? && use == (trace[i].task.id, Dated(text, trace[i].task.slice));
      assert TaskOk(env, trace[i].run, trace[i].task);
      assert IsUse(env.ids, text, env.log, use, trace[i].run, trace[i].task.slice, env.decode.attempt(trace[i].task.id));
    }
  }

  // ----- what a look tells -----

  /** Final rows were there at one moment and, at that moment or later, no marker. */
  ghost predicate SeenDone(text: int -> string, ws: seq<World>, s: Slice) {
    exists i, j :: 0 <= i <= j < |ws|
      && SliceCommit.TablesOf(ws[i], Dated(text, s)).events != multiset{} && Dated(text, s) !in ws[j].incomplete
  }

  /** Whatever the look counts as done was seen to be done, each slice in its own time. */
  ghost predicate Genuine(text: int -> string, ws: seq<World>, look: Look) {
    forall s :: s in look.stored - look.marked ==> SeenDone(text, ws, s)
  }

  /** The look of a reader that asks for rows at moment `i` and for markers at moment `j`. */
  ghost function LookAt(text: int -> string, ws: seq<World>, i: nat, j: nat, candidates: set<Slice>): Look
    requires i < |ws| && j < |ws|
  {
    BacklogReader.Look(set s | s in candidates && SliceCommit.TablesOf(ws[i], Dated(text, s)).events != multiset{},
                       set s | s in candidates && Dated(text, s) in ws[j].incomplete)
  }

  /** Rows first and markers second is the order that makes a look genuine. */
  lemma RowsThenMarkers(text: int -> string, ws: seq<World>, i: nat, j: nat, candidates: set<Slice>)
    requires i <= j < |ws|
    ensures Genuine(text, ws, LookAt(text, ws, i, j, candidates))
  {
    var look := LookAt(text, ws, i, j, candidates);
    forall s | s in look.stored - look.marked ensures SeenDone(text, ws, s) {
      assert SliceCommit.TablesOf(ws[i], Dated(text, s)).events != multiset{} && Dated(text, s) !in ws[j].incomplete;
    }
  }

  /** The other order will not do: a run in which no marker was seen, then rows, of a slice half written. */
  lemma MarkersThenRows(task: string, s: TaskIds.Slice) returns (world: SliceCommit.Env, ws: seq<World>)
    ensures SliceCommit.NoSharedIds(world.uses) && SliceCommit.Run(world, ws) && s !in ws[0].incomplete
    ensures SliceCommit.TablesOf(ws[|ws| - 1], s).events != multiset{} && !SliceCommit.SliceComplete(world, ws[|ws| - 1], s)
  {
    world := SliceCommit.Env(SharedTaskIds.Sources(s), {(task, s)});
    var w := SharedTaskIds.WritesOneRow(world, task, s);
    ws :| SharedTaskIds.Path(world, ws, SliceCommit.INIT, w);
    SharedTaskIds.HalfIsPartial(world, w, s);
  }

  // ----- what a report tells -----

  ghost predicate SentToRust(trace: seq<Step>, i: int, task: Task) {
    exists k :: 0 <= k < i <= |trace| && trace[k].Sent? && trace[k].task == task && trace[k].onRust
  }

  /** An attempt under the task's id got past its work, or found the task done before. */
  ghost predicate WorkedThrough(text: int -> string, ws: seq<World>, task: Task) {
    exists k, a :: 0 <= k < |ws| && a in ws[k].attempts && ws[k].attempts[a].task == task.id
      && ws[k].attempts[a].slice == Dated(text, task.slice) && SliceCommit.PastWork(ws[k].attempts[a].phase)
  }

  /** Rust nodes report success only of attempts that got that far. */
  ghost predicate Truthful(text: int -> string, ws: seq<World>, trace: seq<Step>) {
    forall i :: 0 <= i < |trace| && trace[i].Heard? && !trace[i].failed && SentToRust(trace, i, trace[i].task) ==>
      WorkedThrough(text, ws, trace[i].task)
  }

  ghost predicate CompleteNow(world: SliceCommit.Env, text: int -> string, ws: seq<World>, s: Slice)
    requires ws != []
  {
    SliceCommit.SliceComplete(world, ws[|ws| - 1], Dated(text, s))
  }

  lemma SeenDoneIsComplete(world: SliceCommit.Env, text: int -> string, ws: seq<World>, s: Slice)
    requires SliceCommit.NoSharedIds(world.uses) && SliceCommit.Run(world, ws) && SeenDone(text, ws, s)
    ensures CompleteNow(world, text, ws, s)
  {
    var i, j :| 0 <= i <= j < |ws|
      && SliceCommit.TablesOf(ws[i], Dated(text, s)).events != multiset{} && Dated(text, s) !in ws[j].incomplete;
    SliceCommit.HiddenSliceIsComplete(world, ws, i, j, |ws| - 1, Dated(text, s));
  }

  lemma WorkedThroughIsComplete(world: SliceCommit.Env, text: int -> string, ws: seq<World>, task: Task)
    requires SliceCommit.NoSharedIds(world.uses) && SliceCommit.Run(world, ws) && WorkedThrough(text, ws, task)
    ensures CompleteNow(world, text, ws, task.slice)
  {
    var s := Dated(text, task.slice);
    var k, a :| 0 <= k < |ws| && a in ws[k].attempts && ws[k].attempts[a].task == task.id
      && ws[k].attempts[a].slice == s && SliceCommit.PastWork(ws[k].attempts[a].phase);
    SliceCommit.RunInv(world, ws, k);
    assert SliceCommit.AttemptOk(world, ws[k], a);
    SliceCommit.DoneMeansComplete(world, ws, k, task.id, s);
    SliceCommit.RunGrows(world, ws, k, |ws| - 1, s);
    SliceCommit.CompleteStays(SliceCommit.TablesOf(ws[k], s), SliceCommit.TablesOf(ws[|ws| - 1], s), world.source(s));
  }

  // ----- the day recorded -----

  /** Step `i` ended the slice in the run without its output being known to be complete. */
  ghost predicate Excused(trace: seq<Step>, i: int, run: int, s: Slice)
    requires 0 <= i < |trace|
  {
    match trace[i]
    case Refused(r, slice, held) => r == run && slice == s && held                          // a node is at work on it
    case Heard(r, task, failed) =>                                                          // another runtime's success
      r == run && task.slice == s && !failed && RunLaws.WasSent(trace, i, task) && !SentToRust(trace, i, task)
    case GaveUp(r, slice) => r == run && slice == s && RunLaws.FailuresSince(trace[..i], run, s) == 3
    case _ => false
  }

  lemma ExplainedSliceIsComplete(world: SliceCommit.Env, text: int -> string, ws: seq<World>, genuine: Look -> bool,
                                 trace: seq<Step>, i: nat, run: int, s: Slice)
    requires SliceCommit.NoSharedIds(world.uses) && SliceCommit.Run(world, ws) && Truthful(text, ws, trace)
    requires forall look :: genuine(look) ==> Genuine(text, ws, look)
    requires i < |trace| && RunLaws.Explains(genuine, trace, i, run, s)
    ensures CompleteNow(world, text, ws, s) || Excused(trace, i, run, s)
  {
    if trace[i].Skipped? {
      assert Genuine(text, ws, trace[i].look);
      SeenDoneIsComplete(world, text, ws, s);
    } else if trace[i].Heard? && SentToRust(trace, i, trace[i].task) {
      WorkedThroughIsComplete(world, text, ws, trace[i].task);
    }
  }

  /**
   * When the scheduler records a day, every slice of the log up to the day before is complete in the
   * output tables - or a node was already at work on it, or a node of another runtime reported success,
   * or three attempts at it had failed, all under one run no older than the day.
   */
  lemma RecordedDayIsComplete(master: Master, world: SliceCommit.Env, text: int -> string, ws: seq<World>) returns (run: int)
    requires master.Valid() && master.scheduler.savingDailyRun.Some?
    requires SliceCommit.Run(world, ws) && Scheduled(master.scheduler.ids, text, master.scheduler.env.log, world.uses)
    requires forall look :: master.scheduler.env.genuine(look) ==> Genuine(text, ws, look)
    requires Truthful(text, ws, master.scheduler.trace)
    ensures run >= master.scheduler.savingDailyRun.value
    ensures forall s :: s in BacklogReader.SlicesOf(master.scheduler.log) && s.day < master.scheduler.savingDailyRun.value ==>
      CompleteNow(world, text, ws, s)
      || exists i :: 0 <= i < |master.scheduler.trace| && Excused(master.scheduler.trace, i, run, s)
  {
    var env, trace, day := master.scheduler.env, master.scheduler.trace, master.scheduler.savingDailyRun.value;
    master.RecordedDayIsSwept();
    ScheduledIdsNotShared(env.ids, env.decode, text, env.log, world.uses);
    run := FinishedSweepMeans(env.genuine, master.scheduler.log, trace, day);
    forall s | s in BacklogReader.SlicesOf(master.scheduler.log) && s.day < day
      ensures CompleteNow(world, text, ws, s) || exists i :: 0 <= i < |trace| && Excused(trace, i, run, s)
    {
      var i :| 0 <= i < |trace| && RunLaws.Explains(env.genuine, trace, i, run, s);
      ExplainedSliceIsComplete(world, text, ws, env.genuine, trace, i, run, s);
    }
  }

  // ----- what a history proves, and what it leaves open -----

  /** A run of the commit protocol that the history may have been recorded against. */
  ghost predicate Admissible(env: Env, text: int -> string, trace: seq<Step>, world: SliceCommit.Env, ws: seq<World>) {
    && SliceCommit.Run(world, ws) && Scheduled(env.ids, text, env.log, world.uses) && Truthful(text, ws, trace)
    && forall i :: 0 <= i < |trace| && trace[i].Skipped? ==> Genuine(text, ws, trace[i].look)
  }

  /** Some look of the history counted the slice as done, or a Rust node reported it done. */
  ghost predicate Proves(trace: seq<Step>, i: int, s: Slice) {
    && 0 <= i < |trace|
    && match trace[i]
       case Skipped(_, _, look) => s in look.stored - look.marked
       case Heard(_, task, failed) => task.slice == s && !failed && SentToRust(trace, i, task)
       case _ => false
  }

  ghost predicate Proven(trace: seq<Step>, s: Slice) { exists i :: Proves(trace, i, s) }

  /** A step that explains a slice proves it, unless it is one of the exceptions. */
  lemma ProvesUnlessExcused(genuine: Look -> bool, trace: seq<Step>, i: nat, run: int, s: Slice)
    requires i < |trace| && RunLaws.Explains(genuine, trace, i, run, s)
    ensures Proves(trace, i, s) <==> !Excused(trace, i, run, s)
  {
  }

  ghost predicate LooksWithin(trace: seq<Step>, log: set<Slice>) {
    forall i :: 0 <= i < |trace| && trace[i].Skipped? ==> trace[i].look.stored - trace[i].look.marked <= log
  }

  /** The attempts that must have been carried through for the history to be true. */
  ghost function Required(ids: IdScheme, text: int -> string, trace: seq<Step>): set<(string, TaskIds.Slice)> {
    (set i | 0 <= i < |trace| && trace[i].Heard? && !trace[i].failed && SentToRust(trace, i, trace[i].task)
       :: (trace[i].task.id, Dated(text, trace[i].task.slice)))
    + (set i, s | 0 <= i < |trace| && trace[i].Skipped? && s in trace[i].look.stored - trace[i].look.marked
       :: (Id(ids, 0, s, 0), Dated(text, s)))
  }

  lemma RequiredIs(ids: IdScheme, text: int -> string, trace: seq<Step>, use: (string, TaskIds.Slice)) returns (i: nat, s: Slice)
    requires use in Required(ids, text, trace)
    ensures Proves(trace, i, s) && use.1 == Dated(text, s)
    ensures trace[i].Skipped? ==> use.0 == Id(ids, 0, s, 0)
    ensures trace[i].Heard? ==> use.0 == trace[i].task.id
  {
    if k :| 0 <= k < |trace| && trace[k].Heard? && !trace[k].failed && SentToRust(trace, k, trace[k].task)
            && use == (trace[k].task.id, Dated(text, trace[k].task.slice)) {
      i, s := k, trace[k].task.slice;
    } else {
      var k, q :| 0 <= k < |trace| && trace[k].Skipped? && q in trace[k].look.stored - trace[k].look.marked
                  && use == (Id(ids, 0, q, 0), Dated(text, q));
      i, s := k, q;
    }
  }

  lemma RequiredAreScheduled(env: Env, text: int -> string, trace: seq<Step>)
    requires Named(env, trace) && LooksWithin(trace, env.log)
    ensures Scheduled(env.ids, text, env.log, Required(env.ids, text, trace))
  {
    var uses := Required(env.ids, text, trace);
    forall use | use in uses ensures exists run: int, s, attempt: nat :: IsUse(env.ids, text, env.log, use, run, s, attempt) {
      var i, s := RequiredIs(env.ids, text, trace, use);
      if trace[i].Skipped? {
        assert IsUse(env.ids, text, env.log, use, 0, s, 0);
      } else {
        var k :| 0 <= k < i <= |trace| && trace[k].Sent? && trace[k].task == trace[i].task && trace[k].onRust;
        assert TaskOk(env, trace[k].run, trace[k].task);
        assert IsUse(env.ids, text, env.log, use, trace[k].run, s, env.decode.attempt(trace[k].task.id));
      }
    }
  }

  /** A world in which everything required was carried through bears the history out. */
  lemma CarriedBearsOut(ids: IdScheme, text: int -> string, trace: seq<Step>, ws: seq<World>)
    requires ws != [] && FinishedRuns.AllCarried(ws[|ws| - 1], Required(ids, text, trace))
    ensures Truthful(text, ws, trace)
    ensures forall i :: 0 <= i < |trace| && trace[i].Skipped? ==> Genuine(text, ws, trace[i].look)
  {
    var n, uses := |ws| - 1, Required(ids, text, trace);
    forall i | 0 <= i < |trace| && trace[i].Heard? && !trace[i].failed && SentToRust(trace, i, trace[i].task)
      ensures WorkedThrough(text, ws, trace[i].task)
    {
      var use := (trace[i].task.id, Dated(text, trace[i].task.slice));
      assert use in uses && FinishedRuns.Carried(ws[n], use);
      var a :| a in ws[n].attempts && ws[n].attempts[a] == SliceCommit.Attempt(use.0, use.1, SliceCommit.Clearing);
    }
    forall i, s | 0 <= i < |trace| && trace[i].Skipped? && s in trace[i].look.stored - trace[i].look.marked ensures SeenDone(text, ws, s) {
      var use := (Id(ids, 0, s, 0), Dated(text, s));
      assert use in uses && SliceCommit.TablesOf(ws[n], use.1) == FinishedRuns.WRITTEN;
      assert FinishedRuns.Plain() in FinishedRuns.WRITTEN.events;
      assert 0 <= n <= n < |ws| && SliceCommit.TablesOf(ws[n], Dated(text, s)).events != multiset{} && Dated(text, s) !in ws[n].incomplete;
    }
  }

  /** What the history does not prove may be unfinished: everything else was done, and of this slice nothing. */
  lemma UnprovenMayBeUnfinished(env: Env, text: int -> string, trace: seq<Step>, s: Slice) returns (world: SliceCommit.Env, ws: seq<World>)
    requires Sound(env) && IsCalendar(text) && Named(env, trace) && LooksWithin(trace, env.log) && !Proven(trace, s)
    ensures Admissible(env, text, trace, world, ws) && !CompleteNow(world, text, ws, s)
  {
    var uses, x := Required(env.ids, text, trace), Dated(text, s);
    world := SliceCommit.Env(FinishedRuns.PlainSources(x), uses);
    RequiredAreScheduled(env, text, trace);
    ScheduledIdsNotShared(env.ids, env.decode, text, env.log, uses);
    forall use | use in uses ensures use.1 != x {
      var i, q := RequiredIs(env.ids, text, trace, use);
      assert q != s;
    }
    var w := FinishedRuns.CarriesAll(world, uses);
    ws :| SharedTaskIds.Path(world, ws, SliceCommit.INIT, w);
    CarriedBearsOut(env.ids, text, trace, ws);
    assert SliceCommit.TablesOf(w, x) == RetryConvergence.EMPTY;
    assert SharedTaskIds.OneAttribute() in world.source(x);
  }

  lemma ProvenIsComplete(env: Env, text: int -> string, trace: seq<Step>, s: Slice, world: SliceCommit.Env, ws: seq<World>)
    requires Sound(env) && Admissible(env, text, trace, world, ws) && Proven(trace, s)
    ensures CompleteNow(world, text, ws, s)
  {
    ScheduledIdsNotShared(env.ids, env.decode, text, env.log, world.uses);
    var i :| Proves(trace, i, s);
    if trace[i].Skipped? {
      assert Genuine(text, ws, trace[i].look);
      SeenDoneIsComplete(world, text, ws, s);
    } else {
      WorkedThroughIsComplete(world, text, ws, trace[i].task);
    }
  }

  /** Rows that were seen were stored by attempts, so a look that was taken counts only slices of the log as done. */
  lemma LooksAreWithin(env: Env, text: int -> string, trace: seq<Step>, world: SliceCommit.Env, ws: seq<World>)
    requires IsCalendar(text) && Admissible(env, text, trace, world, ws)
    ensures LooksWithin(trace, env.log)
  {
    hide SliceCommit.Run, Truthful;
    forall i, s | 0 <= i < |trace| && trace[i].Skipped? && s in trace[i].look.stored - trace[i].look.marked ensures s in env.log {
      assert Genuine(text, ws, trace[i].look);
      SeenIsLogged(env, text, world, ws, s);
    }
  }

  lemma SeenIsLogged(env: Env, text: int -> string, world: SliceCommit.Env, ws: seq<World>, s: Slice)
    requires IsCalendar(text) && SliceCommit.Run(world, ws) && Scheduled(env.ids, text, env.log, world.uses) && SeenDone(text, ws, s)
    ensures s in env.log
  {
    hide SliceCommit.Run;
    var x := Dated(text, s);
    var i, j :| 0 <= i <= j < |ws| && SliceCommit.TablesOf(ws[i], x).events != multiset{} && x !in ws[j].incomplete;
    if forall t :: (t, x) !in world.uses { FinishedRuns.UnusedStaysEmpty(world, ws, i, x); }
    var t :| (t, x) in world.uses;
    var run: int, q, m: nat :| IsUse(env.ids, text, env.log, (t, x), run, q, m);
    assert text(q.day) == text(s.day);
  }

  /**
   * For every history that some run bears out: a slice is complete in all the runs that do exactly when
   * the history proves it.
   */
  lemma CompleteExactlyWhenProven(env: Env, text: int -> string, trace: seq<Step>, s: Slice, world: SliceCommit.Env, ws: seq<World>)
    requires Sound(env) && IsCalendar(text) && Named(env, trace) && Admissible(env, text, trace, world, ws)
    ensures (forall other: SliceCommit.Env, vs: seq<World> :: Admissible(env, text, trace, other, vs) ==> CompleteNow(other, text, vs, s))
            <==> Proven(trace, s)
  {
    if Proven(trace, s) {
      forall other: SliceCommit.Env, vs: seq<World> | Admissible(env, text, trace, other, vs) ensures CompleteNow(other, text, vs, s) {
        ProvenIsComplete(env, text, trace, s, other, vs);
      }
    } else {
      LooksAreWithin(env, text, trace, world, ws);
      var other, vs := UnprovenMayBeUnfinished(env, text, trace, s);
    }
  }

  // ----- swept, and yet unfinished -----

  lemma LawfulMore(trace: seq<Step>, e: Step)
    requires Lawful(trace) && Allowed(Replay(trace), e)
    ensures Lawful(trace + [e]) && Replay(trace + [e]) == After(Replay(trace), e)
  {
    var more := trace + [e];
    assert more[..|trace|] == trace;
    forall i | 0 <= i < |more| ensures Allowed(Replay(more[..i]), more[i]) {
      if i < |trace| { assert more[..i] == trace[..i]; }
    }
  }

  /** The task of attempt `n` at the slice, bound for a Rust node or not. */
  function AttemptAt(ids: IdScheme, run: int, s: Slice, n: nat, rust: bool): Task { Task(Id(ids, run, s, n), s, rust) }

  /** The slice was queued and its first `n` attempts were sent to Rust nodes and failed. */
  ghost function FailedTimes(ids: IdScheme, run: int, s: Slice, n: nat): seq<Step> {
    if n == 0 then [Offered(run, s, false)]
    else FailedTimes(ids, run, s, n - 1) + [Sent(run, AttemptAt(ids, run, s, n - 1, true), true, true)]
         + [Heard(run, AttemptAt(ids, run, s, n - 1, true), true)]
  }

  /** Three ways of ending a slice that prove nothing. */
  ghost function GivenUp(ids: IdScheme, run: int, s: Slice): seq<Step> { FailedTimes(ids, run, s, 3) + [GaveUp(run, s)] }

  ghost function TurnedDown(run: int, s: Slice): seq<Step> { [] + [Refused(run, s, true)] }

  ghost function DoneElsewhere(ids: IdScheme, run: int, s: Slice): seq<Step> {
    FailedTimes(ids, run, s, 0) + [Sent(run, AttemptAt(ids, run, s, 0, false), false, true)] + [Heard(run, AttemptAt(ids, run, s, 0, false), false)]
  }

  /** A history the scheduler may have, after which the slice is resolved in the run without proof. */
  ghost predicate EndsUnproven(env: Env, trace: seq<Step>, run: int, s: Slice) {
    && Lawful(trace) && Attested(env.genuine, trace) && Named(env, trace) && LooksWithin(trace, env.log)
    && (run, s) in Replay(trace).resolved && !Proven(trace, s)
  }

  /** Nothing is out, and the slice failed `n` times in the only run there was. */
  ghost predicate Lost(p: Past, run: int, s: Slice, n: nat) {
    p.open == map[] && p.losses[(run, s)] == n && (p.lastRun.Some? ==> p.lastRun.value == run)
  }

  /** Every task sent is an attempt at the log's slices, nothing was skipped and nothing succeeded. */
  ghost predicate NothingGained(env: Env, trace: seq<Step>) {
    Named(env, trace) && forall i :: 0 <= i < |trace| ==> !trace[i].Skipped? && (trace[i].Heard? ==> trace[i].failed)
  }

  lemma FailsOnce(p: Past, run: int, task: Task, n: nat)
    requires Lost(p, run, task.slice, n) && n <= MAX_ATTEMPTS
    ensures var sent, heard := Sent(run, task, true, true), Heard(run, task, true);
            Allowed(p, sent) && Allowed(After(p, sent), heard) && Lost(After(After(p, sent), heard), run, task.slice, n + 1)
  {
  }

  lemma {:induction false} FailsTimes(env: Env, run: int, s: Slice, n: nat)
    requires Sound(env) && s in env.log && n <= 3
    ensures var trace := FailedTimes(env.ids, run, s, n); Lawful(trace) && Lost(Replay(trace), run, s, n) && NothingGained(env, trace)
  {
    hide Lawful, Replay, Allowed, After, Lost, Sound, NothingGained;
    if n == 0 {
      OnlyOffered(env, run, s);
    } else {
      var before, task := FailedTimes(env.ids, run, s, n - 1), AttemptAt(env.ids, run, s, n - 1, true);
      FailsTimes(env, run, s, n - 1);
      FailsOnce(Replay(before), run, task, n - 1);
      LawfulMore(before, Sent(run, task, true, true));
      LawfulMore(before + [Sent(run, task, true, true)], Heard(run, task, true));
      StillNothingGained(env, run, s, n - 1, before);
    }
  }

  lemma OnlyOffered(env: Env, run: int, s: Slice)
    ensures var trace := [Offered(run, s, false)]; Lawful(trace) && Lost(Replay(trace), run, s, 0) && NothingGained(env, trace)
  {
    LawfulMore([], Offered(run, s, false));
    assert [] + [Offered(run, s, false)] == [Offered(run, s, false)];
  }

  lemma StillNothingGained(env: Env, run: int, s: Slice, n: nat, before: seq<Step>)
    requires Sound(env) && s in env.log && n <= MAX_ATTEMPTS && NothingGained(env, before)
    ensures var task := AttemptAt(env.ids, run, s, n, true);
            NothingGained(env, before + [Sent(run, task, true, true)] + [Heard(run, task, true)])
  {
    IdReadsBack(env, run, s, n);
  }

  lemma GivenUpUnproven(env: Env, run: int, s: Slice)
    requires Sound(env) && s in env.log
    ensures EndsUnproven(env, GivenUp(env.ids, run, s), run, s)
  {
    hide Lawful, Replay, FailedTimes, Sound;
    FailsTimes(env, run, s, 3);
    LawfulMore(FailedTimes(env.ids, run, s, 3), GaveUp(run, s));
  }

  lemma TurnedDownUnproven(env: Env, run: int, s: Slice)
    ensures EndsUnproven(env, TurnedDown(run, s), run, s)
  {
    LawfulMore([], Refused(run, s, true));
  }

  lemma DoneElsewhereUnproven(env: Env, run: int, s: Slice)
    requires Sound(env) && s in env.log
    ensures EndsUnproven(env, DoneElsewhere(env.ids, run, s), run, s)
  {
    var before, task := FailedTimes(env.ids, run, s, 0), AttemptAt(env.ids, run, s, 0, false);
    FailsTimes(env, run, s, 0);
    IdReadsBack(env, run, s, 0);
    LawfulMore(before, Sent(run, task, false, true));
    LawfulMore(before + [Sent(run, task, false, true)], Heard(run, task, false));
    assert !Proven(DoneElsewhere(env.ids, run, s), s);
  }

  /** Every exception is real: for any one slice a day is swept, under the ids used, and the slice is not complete. */
  lemma SweptButUnfinished(text: int -> string, row: BacklogReader.Row, run: int, day: int, trace: seq<Step>)
    returns (env: Env, world: SliceCommit.Env, ws: seq<World>)
    requires IsCalendar(text) && row.day < day <= run
    requires var s := BacklogReader.SliceOf(row);
             trace == GivenUp(CleaningIds(text), run, s) || trace == TurnedDown(run, s) || trace == DoneElsewhere(CleaningIds(text), run, s)
    ensures env.ids == CleaningIds(text) && env.log == BacklogReader.SlicesOf([row]) && Sound(env)
    ensures Lawful(trace) && Attested(env.genuine, trace) && Named(env, trace) && SweepFinished([row], Replay(trace), day)
    ensures Admissible(env, text, trace, world, ws) && !CompleteNow(world, text, ws, BacklogReader.SliceOf(row))
  {
    hide EndsUnproven, GivenUp, TurnedDown, DoneElsewhere, Sound, Admissible, CompleteNow, IsCalendar, SweepFinished;
    var s := BacklogReader.SliceOf(row);
    env := OneSliceEnv(text, row);
    OneSlice(text, row);
    GivenUpUnproven(env, run, s);
    TurnedDownUnproven(env, run, s);
    DoneElsewhereUnproven(env, run, s);
    UnprovenIsSwept(env, row, run, day, trace);
    world, ws := UnprovenMayBeUnfinished(env, text, trace, s);
  }

  ghost function OneSliceEnv(text: int -> string, row: BacklogReader.Row): Env {
    var ids, log := CleaningIds(text), BacklogReader.SlicesOf([row]);
    Env(ids, DecoderOf(ids, log), log, (look: Look) => false)
  }

  lemma UnprovenIsSwept(env: Env, row: BacklogReader.Row, run: int, day: int, trace: seq<Step>)
    requires row.day < day <= run && EndsUnproven(env, trace, run, BacklogReader.SliceOf(row))
    ensures Lawful(trace) && Attested(env.genuine, trace) && Named(env, trace) && LooksWithin(trace, env.log)
    ensures !Proven(trace, BacklogReader.SliceOf(row)) && SweepFinished([row], Replay(trace), day)
  {
    hide Lawful, Attested, Named, Replay, Proven, LooksWithin;
    assert ScanPlan.SweptBy([row], Replay(trace).resolved, run, day);
  }

  lemma OneSlice(text: int -> string, row: BacklogReader.Row)
    requires IsCalendar(text)
    ensures BacklogReader.SliceOf(row) in BacklogReader.SlicesOf([row]) && Sound(OneSliceEnv(text, row))
  {
    assert [row][0] == row;
    assert BacklogReader.SliceOf(row) in BacklogReader.SlicesOf([row]);
    var log := DatedLog(text, BacklogReader.SlicesOf([row]));
    forall a, b, n | a in log && b in log && 1 <= n <= TaskIds.MAX_ATTEMPTS ensures !TaskIds.Twins(a, n, b) {
      assert a == b == Dated(text, BacklogReader.SliceOf(row));
      assert |a.session + TaskIds.Suffix(n)| > |b.session|;
    }
    CleaningIdsTell(text, BacklogReader.SlicesOf([row]));
  }
}
