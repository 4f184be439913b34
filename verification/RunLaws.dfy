/** What the law of single steps means for whole runs of the scheduler. */
module RunLaws {
  import opened Options
  import opened Tasks
  import opened Ledger

  predicate Sends(e: Step, id: string) { e.Sent? && e.task.id == id }

  predicate Hears(e: Step, id: string) { e.Heard? && e.task.id == id }

  function Times(trace: seq<Step>, p: Step -> bool): nat {
    if trace == [] then 0 else Times(trace[..|trace| - 1], p) + if p(trace[|trace| - 1]) then 1 else 0
  }

  lemma LawfulPrefix(trace: seq<Step>, n: nat)
    requires Lawful(trace) && n <= |trace|
    ensures Lawful(trace[..n])
  {
    forall i | 0 <= i < n ensures Allowed(Replay(trace[..n][..i]), trace[..n][i]) {
      assert trace[..n][..i] == trace[..i];
    }
  }

  lemma LawfulLast(trace: seq<Step>)
    requires Lawful(trace) && trace != []
    ensures var n := |trace| - 1;
            Lawful(trace[..n]) && Allowed(Replay(trace[..n]), trace[n]) && Replay(trace) == After(Replay(trace[..n]), trace[n])
  {
    LawfulPrefix(trace, |trace| - 1);
  }

  /** Every accepted task is heard of exactly once, unless it is still open; nothing else is heard of. */
  lemma {:induction false} HeardExactlyOnce(trace: seq<Step>, id: string)
    requires Lawful(trace)
    ensures Times(trace, e => Sends(e, id)) == Times(trace, e => Hears(e, id)) + if id in Replay(trace).open then 1 else 0
  {
    if trace != [] {
      LawfulLast(trace);
      HeardExactlyOnce(trace[..|trace| - 1], id);
    }
  }

  ghost predicate OpenBelow(p: Past) {
    && (forall id :: id in p.open ==> p.lastRun.Some? && p.losses[(p.lastRun.value, p.open[id].slice)] <= MAX_ATTEMPTS)
    && (forall a, b :: a in p.open && b in p.open && p.open[a].slice == p.open[b].slice ==> a == b)
    && (forall id :: id in p.open ==> p.open[id].id == id)
  }

  lemma OpenStaysBelow(p: Past, e: Step)
    requires OpenBelow(p) && Allowed(p, e)
    ensures OpenBelow(After(p, e))
  {
  }

  lemma {:induction false} OpenIsBelow(trace: seq<Step>)
    requires Lawful(trace)
    ensures OpenBelow(Replay(trace))
  {
    if trace != [] {
      LawfulLast(trace);
      OpenIsBelow(trace[..|trace| - 1]);
      OpenStaysBelow(Replay(trace[..|trace| - 1]), trace[|trace| - 1]);
    }
  }

  /** While a slice is remembered, it never fails more than three times in one run. */
  lemma {:induction false} AtMostThreeFailures(trace: seq<Step>, run: int, s: Slice)
    requires Lawful(trace)
    ensures Replay(trace).losses[(run, s)] <= MAX_ATTEMPTS + 1
  {
    if trace != [] {
      LawfulLast(trace);
      AtMostThreeFailures(trace[..|trace| - 1], run, s);
      OpenIsBelow(trace[..|trace| - 1]);
    }
  }

  /** The failures counted are the failed settlements since the slice was last forgotten. */
  function FailuresSince(trace: seq<Step>, run: int, s: Slice): nat {
    if trace == [] then 0
    else
      var e, before := trace[|trace| - 1], FailuresSince(trace[..|trace| - 1], run, s);
      if e == Forgot(run, s) then 0
      else if e.Heard? && e.failed && e.run == run && e.task.slice == s then before + 1
      else before
  }

  lemma {:induction false} LossesAreFailures(trace: seq<Step>, run: int, s: Slice)
    ensures Replay(trace).losses[(run, s)] == FailuresSince(trace, run, s)
  {
    if trace != [] { LossesAreFailures(trace[..|trace| - 1], run, s); }
  }

  /** The slice went to a Rust node, or was offered from a row that asked for one. */
  ghost predicate OnRust(trace: seq<Step>, i: int, s: Slice) {
    && 0 <= i < |trace|
    && ((trace[i].Sent? && trace[i].task.slice == s && trace[i].onRust) || (trace[i].Offered? && trace[i].slice == s && trace[i].rust))
  }

  ghost predicate OfferedBetween(trace: seq<Step>, i: int, j: int, s: Slice) {
    exists k :: 0 <= i < k < j <= |trace| && trace[k].Offered? && trace[k].slice == s
  }

  lemma {:induction false} RustSince(trace: seq<Step>, i: nat, s: Slice)
    requires OnRust(trace, i, s) && !OfferedBetween(trace, i, |trace|, s)
    ensures s in Replay(trace).rust
  {
    var n := |trace| - 1;
    var front := trace[..n];
    if i < n {
      forall k | i < k < n ensures !(front[k].Offered? && front[k].slice == s) { assert front[k] == trace[k]; }
      RustSince(front, i, s);
      assert !(trace[n].Offered? && trace[n].slice == s);
    }
  }

  /** Every dispatch of a slice whose row asked for a Rust node goes to one, until the slice is offered anew. */
  lemma RustDemandIsMet(trace: seq<Step>, i: nat, j: nat, s: Slice)
    requires Lawful(trace) && i < j < |trace| && trace[i].Offered? && trace[i].slice == s && trace[i].rust
    requires forall k :: i < k < j && trace[k].Offered? ==> trace[k].slice != s
    requires trace[j].Sent? && trace[j].task.slice == s
    ensures trace[j].onRust
  {
    RetriesStayOnRust(trace, i, j, s);
  }

  /** Once a slice went to a Rust node, every later dispatch before it is offered anew goes to a Rust node. */
  lemma RetriesStayOnRust(trace: seq<Step>, i: nat, j: nat, s: Slice)
    requires Lawful(trace) && i < j < |trace| && OnRust(trace, i, s) && !OfferedBetween(trace, i, j, s)
    requires trace[j].Sent? && trace[j].task.slice == s
    ensures trace[j].onRust
  {
    var front := trace[..j];
    assert front[i] == trace[i];
    forall k | i < k < j ensures !(front[k].Offered? && front[k].slice == s) { assert front[k] == trace[k]; }
    RustSince(front, i, s);
    assert Allowed(Replay(trace[..j]), trace[j]);
  }

  lemma {:induction false} LastRunIsLatest(trace: seq<Step>, i: nat)
    requires Lawful(trace) && i < |trace| && trace[i].Sent?
    ensures Replay(trace).lastRun.Some? && trace[i].run <= Replay(trace).lastRun.value
  {
    var n := |trace| - 1;
    LawfulLast(trace);
    if i < n { LastRunIsLatest(trace[..n], i); }
  }

  ghost predicate IsOpen(p: Past, run: int, t: Task) {
    t.id in p.open && p.open[t.id] == t && p.lastRun == Some(run)
  }

  lemma StaysOpen(p: Past, e: Step, run: int, t: Task)
    requires IsOpen(p, run, t) && Allowed(p, e) && !Hears(e, t.id)
    ensures IsOpen(After(p, e), run, t)
  {
  }

  lemma SentIsOpen(p: Past, e: Step)
    requires e.Sent?
    ensures IsOpen(After(p, e), e.run, e.task)
  {
  }

  ghost predicate Unheard(trace: seq<Step>, i: int, n: int, id: string) {
    forall k :: 0 <= i < k < n <= |trace| ==> !Hears(trace[k], id)
  }

  lemma OneStep(trace: seq<Step>, n: nat)
    requires Lawful(trace) && n < |trace|
    ensures Allowed(Replay(trace[..n]), trace[n]) && Replay(trace[..n + 1]) == After(Replay(trace[..n]), trace[n])
  {
    assert trace[..n + 1][..n] == trace[..n];
  }

  lemma {:induction false} OpenUntilHeard(trace: seq<Step>, i: nat, n: nat)
    requires Lawful(trace) && i < n <= |trace| && trace[i].Sent? && Unheard(trace, i, n, trace[i].task.id)
    ensures IsOpen(Replay(trace[..n]), trace[i].run, trace[i].task)
  {
    hide After, Replay, IsOpen, Lawful, Allowed;
    OneStep(trace, n - 1);
    if i < n - 1 {
      OpenUntilHeard(trace, i, n - 1);
      StaysOpen(Replay(trace[..n - 1]), trace[n - 1], trace[i].run, trace[i].task);
    } else {
      SentIsOpen(Replay(trace[..n - 1]), trace[n - 1]);
    }
  }

  /** A newer run never overtakes an older run's unsettled task. */
  lemma RunsDoNotOvertake(trace: seq<Step>, i: nat, j: nat)
    requires Lawful(trace) && i < j < |trace| && trace[i].Sent? && trace[j].Sent?
    ensures trace[i].run <= trace[j].run
    ensures trace[i].run < trace[j].run ==> exists k :: i < k < j && Hears(trace[k], trace[i].task.id)
  {
    var front := trace[..j];
    LawfulPrefix(trace, j);
    assert front[i] == trace[i];
    LastRunIsLatest(front, i);
    OneStep(trace, j);
    if trace[i].run < trace[j].run && Unheard(trace, i, j, trace[i].task.id) {
      OpenUntilHeard(trace, i, j);
      assert false;
    }
  }

  /** Between two dispatches of one slice the first is heard of. */
  lemma OneTaskPerSlice(trace: seq<Step>, i: nat, j: nat)
    requires Lawful(trace) && i < j < |trace| && trace[i].Sent? && trace[j].Sent?
    requires trace[i].task.slice == trace[j].task.slice
    ensures exists k :: i < k < j && Hears(trace[k], trace[i].task.id)
  {
    OneStep(trace, j);
    if Unheard(trace, i, j, trace[i].task.id) {
      OpenUntilHeard(trace, i, j);
      assert false;
    }
  }

  /** How a slice comes to be resolved in a run. */
  ghost predicate Resolves(e: Step, run: int, s: Slice) {
    match e
    case Skipped(r, slices, _) => r == run && s in slices
    case Refused(r, slice, _) => r == run && slice == s
    case Heard(r, task, failed) => r == run && task.slice == s && !failed
    case GaveUp(r, slice) => r == run && slice == s
    case _ => false
  }

  lemma ResolvedStep(p: Past, e: Step, run: int, s: Slice)
    ensures (run, s) in After(p, e).resolved <==> (run, s) in p.resolved || Resolves(e, run, s)
  {
  }

  lemma {:induction false} ResolvedByStep(trace: seq<Step>, run: int, s: Slice)
    ensures (run, s) in Replay(trace).resolved <==> exists i :: 0 <= i < |trace| && Resolves(trace[i], run, s)
  {
    if trace != [] {
      var n := |trace| - 1;
      var front := trace[..n];
      ResolvedByStep(front, run, s);
      ResolvedStep(Replay(front), trace[n], run, s);
      if (run, s) in Replay(front).resolved {
        var i :| 0 <= i < n && Resolves(front[i], run, s);
        assert Resolves(trace[i], run, s);
      }
      if i :| 0 <= i < n && Resolves(trace[i], run, s) { assert Resolves(front[i], run, s); }
    }
  }

  ghost predicate WasSent(trace: seq<Step>, i: int, t: Task) { exists k :: 0 <= k < i <= |trace| && trace[k].Sent? && trace[k].task == t }

  lemma {:induction false} OpenWasSent(trace: seq<Step>, id: string)
    requires id in Replay(trace).open
    ensures WasSent(trace, |trace|, Replay(trace).open[id])
  {
    var n := |trace| - 1;
    var front := trace[..n];
    var t := Replay(trace).open[id];
    if id in Replay(front).open && Replay(front).open[id] == t {
      OpenWasSent(front, id);
      var k :| 0 <= k < n && front[k].Sent? && front[k].task == t;
      assert trace[k] == front[k];
    } else {
      assert trace[n].Sent? && trace[n].task == t;
    }
  }

  /**
   * Step `i` resolved the slice, and the history bears it out: the reader had seen final rows and then no
   * marker, a node held the slice, a task sent for it succeeded, or three of them had failed.
   */
  ghost predicate Explains(genuine: Look -> bool, trace: seq<Step>, i: int, run: int, s: Slice)
    requires 0 <= i < |trace|
  {
    match trace[i]
    case Skipped(r, slices, look) => r == run && s in slices && genuine(look) && s in look.stored && s !in look.marked
    case Refused(r, slice, held) => r == run && slice == s && held
    case Heard(r, task, failed) => r == run && task.slice == s && !failed && WasSent(trace, i, task)
    case GaveUp(r, slice) => r == run && slice == s && FailuresSince(trace[..i], run, s) == MAX_ATTEMPTS + 1
    case _ => false
  }

  lemma ResolvingIsExplained(genuine: Look -> bool, trace: seq<Step>, i: int, run: int, s: Slice)
    requires Lawful(trace) && Attested(genuine, trace) && 0 <= i < |trace| && Resolves(trace[i], run, s)
    ensures Explains(genuine, trace, i, run, s)
  {
    var front := trace[..i];
    assert Allowed(Replay(front), trace[i]);
    LossesAreFailures(front, run, s);
    if trace[i].Heard? {
      OpenWasSent(front, trace[i].task.id);
      var k :| 0 <= k < i && front[k].Sent? && front[k].task == trace[i].task;
      assert trace[k] == front[k];
    }
  }

  /** A slice counts as resolved in a run exactly when the history explains it. */
  lemma ResolvedMeans(genuine: Look -> bool, trace: seq<Step>, run: int, s: Slice)
    requires Lawful(trace) && Attested(genuine, trace)
    ensures (run, s) in Replay(trace).resolved <==> exists i :: 0 <= i < |trace| && Explains(genuine, trace, i, run, s)
  {
    ResolvedByStep(trace, run, s);
    if i :| 0 <= i < |trace| && Resolves(trace[i], run, s) { ResolvingIsExplained(genuine, trace, i, run, s); }
    if i :| 0 <= i < |trace| && Explains(genuine, trace, i, run, s) { assert Resolves(trace[i], run, s); }
  }

  lemma GivenUpAfterThree(trace: seq<Step>, i: nat)
    requires Lawful(trace) && i < |trace| && trace[i].GaveUp?
    ensures FailuresSince(trace[..i], trace[i].run, trace[i].slice) == 3
  {
    assert Allowed(Replay(trace[..i]), trace[i]);
    LossesAreFailures(trace[..i], trace[i].run, trace[i].slice);
  }

  // ----- forgetting -----

  /** The step that was the last of a slice in a run. */
  predicate Closes(e: Step, m: Memory) {
    match e
    case Heard(run, task, failed) => run == m.run && task.slice == m.slice && !failed
    case GaveUp(run, slice) => run == m.run && slice == m.slice
    case _ => false
  }

  ghost predicate Ascending(at: seq<nat>) { forall i, j :: 0 <= i < j < |at| ==> at[i] < at[j] }

  /** `at[k]` is the step that closed memory `k`. */
  ghost predicate ClosedAt(trace: seq<Step>, recent: seq<Memory>, at: seq<nat>) {
    && |at| == |recent| && Ascending(at)
    && forall k :: 0 <= k < |at| ==> at[k] < |trace| && Closes(trace[at[k]], recent[k])
  }

  lemma {:induction false} GoneAt(trace: seq<Step>, recent: seq<Memory>, at: seq<nat>, m: Memory) returns (at': seq<nat>)
    requires ClosedAt(trace, recent, at)
    ensures ClosedAt(trace, Gone(recent, m), at') && forall k :: k in at' ==> k in at
  {
    if recent == [] {
      at' := at;
    } else {
      var rest := GoneAt(trace, recent[1..], at[1..], m);
      at' := (if recent[0] == m then [] else [at[0]]) + rest;
      forall k | 0 <= k < |rest| ensures at[0] < rest[k] {
        assert rest[k] in at[1..];
      }
    }
  }

  lemma StillClosed(trace: seq<Step>, n: nat, recent: seq<Memory>, at: seq<nat>)
    requires n <= |trace| && ClosedAt(trace[..n], recent, at)
    ensures ClosedAt(trace, recent, at)
  {
    forall k | 0 <= k < |at| ensures at[k] < |trace| && Closes(trace[at[k]], recent[k]) { assert trace[..n][at[k]] == trace[at[k]]; }
  }

  lemma ClosesNext(trace: seq<Step>, n: nat, recent: seq<Memory>, at: seq<nat>, m: Memory)
    requires n < |trace| && ClosedAt(trace[..n], recent, at) && Closes(trace[n], m)
    ensures ClosedAt(trace, recent + [m], at + [n])
  {
    StillClosed(trace, n, recent, at);
    forall k | 0 <= k < |at| ensures at[k] < n {}
  }

  /** One step more: a slice is done with, forgotten, or neither. */
  lemma StepInOrder(trace: seq<Step>, n: nat, p: Past, at: seq<nat>) returns (at': seq<nat>)
    requires n < |trace| && ClosedAt(trace[..n], p.recent, at)
    ensures ClosedAt(trace, After(p, trace[n]).recent, at')
  {
    StillClosed(trace, n, p.recent, at);
    at' := at;
    match trace[n] {
      case Heard(run, task, failed) =>
        if !failed {
          ClosesNext(trace, n, p.recent, at, Memory(task.slice, run));
          at' := at + [n];
        }
      case GaveUp(run, slice) =>
        ClosesNext(trace, n, p.recent, at, Memory(slice, run));
        at' := at + [n];
      case Forgot(run, slice) => at' := GoneAt(trace, p.recent, at, Memory(slice, run));
      case _ =>
    }
  }

  /** The slices not forgotten are in the order in which they were done with. */
  lemma {:induction false} RecentIsInOrder(trace: seq<Step>) returns (at: seq<nat>)
    ensures ClosedAt(trace, Replay(trace).recent, at)
  {
    hide After, ClosedAt;
    if trace == [] {
      at := [];
      NothingClosed();
    } else {
      var n := |trace| - 1;
      at := RecentIsInOrder(trace[..n]);
      at := StepInOrder(trace, n, Replay(trace[..n]), at);
    }
  }

  lemma NothingClosed()
    ensures ClosedAt([], Replay([]).recent, [])
  {
  }

  /**
   * A slice is forgotten when it was done with for another run as well, or when ten thousand more slices
   * were done with after it.
   */
  lemma ForgottenInTurn(trace: seq<Step>, i: nat) returns (at: seq<nat>)
    requires Lawful(trace) && i < |trace| && trace[i].Forgot?
    ensures Ascending(at) && forall k :: k in at ==> k < i && exists m :: Closes(trace[k], m)
    ensures var m := Memory(trace[i].slice, trace[i].run);
            || (|at| > RECENT_SLICE_LIMIT && at[0] < i && Closes(trace[at[0]], m))
            || exists k, other :: k in at && Closes(trace[k], other) && other.slice == m.slice && other != m
  {
    var front := trace[..i];
    var p, m := Replay(front), Memory(trace[i].slice, trace[i].run);
    assert MayForget(p.recent, m);
    at := RecentIsInOrder(front);
    forall k | k in at ensures k < i && exists m :: Closes(trace[k], m) {
      var j :| 0 <= j < |at| && at[j] == k;
      assert Closes(trace[k], p.recent[j]);
    }
    if !(|p.recent| > RECENT_SLICE_LIMIT && p.recent[0] == m) {
      var other :| other in p.recent && other.slice == m.slice && other != m;
      var j :| 0 <= j < |p.recent| && p.recent[j] == other;
      assert at[j] in at && Closes(trace[at[j]], other);
    }
  }
}
