/**
 * The scheduler's books: what is queued, what is sent, how often it failed and what was lately
 * settled, together with the steps taken so far and the law every step obeys.
 *
 * The operations are functions on the books, as the scheduler's methods carry them out; the lemmas
 * show that each of them keeps the books in order and takes only steps that are allowed.
 */
module Ledger {
  import opened Options
  import opened Tasks
  import TaskIds
  import BacklogReader

  type Look = BacklogReader.Look

  const MAX_ATTEMPTS: nat := TaskIds.MAX_ATTEMPTS
  const RECENT_SLICE_LIMIT: nat := 10000

  // ----- the steps, and what they add up to -----

  datatype Step =
    | Offered(run: int, slice: Slice, rust: bool)                   // a backlog row was queued; rust: it asked for a Rust node
    | Skipped(run: int, slices: set<Slice>, look: Look)             // left out of a page, by what the reader saw
    | Refused(run: int, slice: Slice, held: bool)                   // an offer or a retry met a node at work on the slice
    | Sent(run: int, task: Task, onRust: bool, free: bool)          // free: no node held the slice
    | Heard(run: int, task: Task, failed: bool)
    | GaveUp(run: int, slice: Slice)
    | Forgot(run: int, slice: Slice)                                // dropped from the recently settled slices

  /**
   * `open`: sent and not yet heard of. `losses`: failures per run and slice while not forgotten.
   * `rust`: slices bound to Rust nodes: their row asked for one, or they went to one since they were last offered. `recent`: slices lately done
   * with and not forgotten, oldest first.
   */
  datatype Past = Past(open: map<string, Task>, losses: multiset<(int, Slice)>, rust: set<Slice>,
                       resolved: set<(int, Slice)>, lastRun: Option<int>, recent: seq<Memory>)

  datatype Memory = Memory(slice: Slice, run: int)

  const NOTHING := Past(map[], multiset{}, {}, {}, None, [])

  function Without<K, V>(m: map<K, V>, key: K): map<K, V> { map k | k in m && k != key :: m[k] }

  function Gone(recent: seq<Memory>, m: Memory): seq<Memory> {
    if recent == [] then [] else (if recent[0] == m then [] else [recent[0]]) + Gone(recent[1..], m)
  }

  function After(p: Past, e: Step): Past {
    match e
    case Offered(_, slice, rust) => p.(rust := if rust then p.rust + {slice} else p.rust - {slice})
    case Skipped(run, slices, _) => p.(resolved := p.resolved + set s | s in slices :: (run, s))
    case Refused(run, slice, _) => p.(resolved := p.resolved + {(run, slice)})
    case Sent(run, task, onRust, _) =>
      p.(open := p.open[task.id := task], rust := if onRust then p.rust + {task.slice} else p.rust, lastRun := Some(run))
    case Heard(run, task, failed) =>
      p.(open := Without(p.open, task.id),
         losses := if failed then p.losses + multiset{(run, task.slice)} else p.losses,
         resolved := if failed then p.resolved else p.resolved + {(run, task.slice)},
         recent := if failed then p.recent else p.recent + [Memory(task.slice, run)])
    case GaveUp(run, slice) => p.(resolved := p.resolved + {(run, slice)}, recent := p.recent + [Memory(slice, run)])
    case Forgot(run, slice) => p.(losses := p.losses[(run, slice) := 0], recent := Gone(p.recent, Memory(slice, run)))
  }

  function Replay(trace: seq<Step>): Past {
    if trace == [] then NOTHING else After(Replay(trace[..|trace| - 1]), trace[|trace| - 1])
  }

  /** Which step may come next. */
  ghost predicate Allowed(p: Past, e: Step) {
    match e
    case Offered(_, slice, _) => forall id :: id in p.open ==> p.open[id].slice != slice   // nothing is out for the slice
    case Skipped(_, slices, look) => slices <= look.stored - look.marked     // final rows were seen, and no marker after
    case Refused(_, _, held) => held
    case Sent(run, task, onRust, free) =>
      && free                                                                  // no node held the slice
      && task.id !in p.open
      && (forall id :: id in p.open ==> p.open[id].slice != task.slice)       // one task per slice
      && (task.rust || task.slice in p.rust ==> onRust)                       // Rust work stays with Rust nodes
      && p.losses[(run, task.slice)] <= MAX_ATTEMPTS                           // at most three failures
      && (p.lastRun.Some? ==> p.lastRun.value <= run)                         // runs never go back,
      && (p.open != map[] ==> p.lastRun == Some(run))                         // nor overtake each other
    case Heard(run, task, _) => task.id in p.open && p.open[task.id] == task && p.lastRun == Some(run)
    case GaveUp(run, slice) => p.losses[(run, slice)] == MAX_ATTEMPTS + 1
    case Forgot(run, slice) => MayForget(p.recent, Memory(slice, run))
  }

  /** Only a slice done with again, or the oldest of too many, is forgotten. */
  ghost predicate MayForget(recent: seq<Memory>, m: Memory) {
    && m in recent
    && ((|recent| > RECENT_SLICE_LIMIT && recent[0] == m) || exists k :: k in recent && k.slice == m.slice && k != m)
  }

  ghost predicate Lawful(trace: seq<Step>) {
    forall i :: 0 <= i < |trace| ==> Allowed(Replay(trace[..i]), trace[i])
  }

  // ----- the books -----

  datatype Books = Books(queue: seq<Task>, inflight: set<Slice>, dispatched: map<string, Task>,
                         retryBases: map<string, string>, attempts: map<string, nat>, recent: seq<Memory>,
                         loadedRuns: map<int, nat>, trace: seq<Step>, past: Past)

  /** `genuine`: what the backlog reader may have seen of the output so far. */
  datatype Env = Env(ids: IdScheme, decode: Decoder, log: set<Slice>, genuine: Look -> bool)

  /** What was skipped was skipped on a look that was really taken. */
  ghost predicate Attested(genuine: Look -> bool, trace: seq<Step>) {
    forall i :: 0 <= i < |trace| && trace[i].Skipped? ==> genuine(trace[i].look)
  }

  function Count<K>(m: map<K, nat>, key: K): nat { if key in m then m[key] else 0 }

  /** Retries never change a run, so all loaded tasks have one run, counted exactly. */
  function Loaded(run: int, n: nat): map<int, nat> { if n == 0 then map[] else map[run := n] }

  function BaseOf(b: Books, id: string): string { if id in b.retryBases then b.retryBases[id] else id }

  ghost predicate TaskOk(env: Env, run: int, t: Task) {
    var attempt := env.decode.attempt(t.id);
    t.slice in env.log && attempt <= MAX_ATTEMPTS && t.id == Id(env.ids, run, t.slice, attempt)
  }

  ghost predicate LoadedOk(env: Env, run: int, b: Books, t: Task) {
    && TaskOk(env, run, t)
    && (env.decode.attempt(t.id) > 0 ==> t.id in b.retryBases)
    && Memory(t.slice, run) !in b.recent
    && (t.slice in b.past.rust ==> t.rust)
  }

  ghost predicate QueueOk(env: Env, run: int, b: Books) {
    && (forall i :: 0 <= i < |b.queue| ==> LoadedOk(env, run, b, b.queue[i]) && b.queue[i].slice !in b.inflight)
    && (forall i, j :: 0 <= i < j < |b.queue| ==> b.queue[i].slice != b.queue[j].slice)
  }

  ghost predicate SentOk(env: Env, run: int, b: Books, id: string) {
    id in b.dispatched && b.dispatched[id].id == id && LoadedOk(env, run, b, b.dispatched[id]) && b.dispatched[id].slice in b.inflight
  }

  ghost predicate SameSlice(b: Books, id: string, id': string) {
    id in b.dispatched && id' in b.dispatched && b.dispatched[id].slice == b.dispatched[id'].slice
  }

  ghost predicate DispatchedOk(env: Env, run: int, b: Books) {
    && (forall id {:trigger SentOk(env, run, b, id)} :: id in b.dispatched ==> SentOk(env, run, b, id))
    && (forall id, id' {:trigger SameSlice(b, id, id')} :: SameSlice(b, id, id') ==> id == id')
    && |b.inflight| == |b.dispatched|
  }

  ghost predicate OpenOk(run: int, b: Books) {
    && b.past.open == b.dispatched
    && (b.past.lastRun.Some? ==> b.past.lastRun.value <= run)
    && (b.dispatched != map[] ==> b.past.lastRun == Some(run))
  }

  ghost predicate RetriesOk(env: Env, b: Books) {
    forall id :: id in b.retryBases ==>
      env.decode.attempt(id) > 0 && b.retryBases[id] == env.ids.first(env.ids.runOf(id), env.decode.slice(id))
  }

  ghost predicate LossOk(env: Env, b: Books, r: int, s: Slice) {
    var base := env.ids.first(r, s);
    && Count(b.attempts, base) <= MAX_ATTEMPTS
    && (if Memory(s, r) in b.recent then b.past.losses[(r, s)] <= MAX_ATTEMPTS + 1 && base !in b.attempts
        else b.past.losses[(r, s)] == Count(b.attempts, base))
  }

  ghost predicate LossesOk(env: Env, b: Books) { forall r: int, s :: s in env.log ==> LossOk(env, b, r, s) }

  ghost predicate RecentOk(env: Env, b: Books) {
    && (forall m :: m in b.recent ==> m.slice in env.log && (m.run, m.slice) in b.past.resolved)
    && (forall i, j :: 0 <= i < j < |b.recent| ==> b.recent[i].slice != b.recent[j].slice)
  }

  /** What was sent was a task of the run it was sent in, under the id of an attempt at its slice. */
  ghost predicate Named(env: Env, trace: seq<Step>) {
    forall i :: 0 <= i < |trace| && trace[i].Sent? ==> TaskOk(env, trace[i].run, trace[i].task)
  }

  ghost predicate Told(env: Env, b: Books) {
    b.past == Replay(b.trace) && Lawful(b.trace) && Attested(env.genuine, b.trace) && Named(env, b.trace)
  }

  ghost predicate CoreOk(env: Env, run: int, b: Books) {
    && QueueOk(env, run, b) && DispatchedOk(env, run, b) && OpenOk(run, b)
    && b.loadedRuns == Loaded(run, |b.queue| + |b.dispatched|)
    && RetriesOk(env, b) && RecentOk(env, b) && Told(env, b)
  }

  ghost predicate BooksOk(env: Env, run: int, b: Books) {
    CoreOk(env, run, b) && LossesOk(env, b) && |b.recent| <= RECENT_SLICE_LIMIT && b.past.recent == b.recent
  }

  ghost predicate IsLoaded(b: Books, s: Slice) {
    s in b.inflight || exists i :: 0 <= i < |b.queue| && b.queue[i].slice == s
  }

  /** Nothing more is owed to the slice in run `r`, or it is loaded and will be settled. */
  ghost predicate Accounted(run: int, b: Books, r: int, s: Slice) {
    (r, s) in b.past.resolved || (r == run && IsLoaded(b, s))
  }

  ghost predicate StaysAccounted(run: int, b: Books, b': Books) {
    forall r: int, s :: Accounted(run, b, r, s) ==> Accounted(run, b', r, s)
  }

  // ----- recording -----

  function Record(b: Books, e: Step): Books { b.(trace := b.trace + [e], past := After(b.past, e)) }

  lemma RecordKeeps(env: Env, b: Books, e: Step, b': Books)
    requires Told(env, b) && Allowed(b.past, e) && b'.trace == b.trace + [e] && b'.past == After(b.past, e)
    requires (e.Skipped? ==> env.genuine(e.look)) && (e.Sent? ==> TaskOk(env, e.run, e.task))
    ensures Told(env, b')
  {
    var trace := b'.trace;
    assert trace[..|b.trace|] == b.trace;
    forall i | 0 <= i < |trace| ensures Allowed(Replay(trace[..i]), trace[i]) {
      if i < |b.trace| { assert trace[..i] == b.trace[..i]; }
    }
  }

  // ----- operations -----

  function RunOf(env: Env, t: Task): int { env.ids.runOf(t.id) }

  function Track(runs: map<int, nat>, run: int, delta: int): map<int, nat> {
    var count := Count(runs, run) + delta;
    if count > 0 then runs[run := count] else Without(runs, run)
  }

  lemma TrackCounts(run: int, n: nat, delta: int)
    requires n + delta >= 0
    ensures Track(Loaded(run, n), run, delta) == Loaded(run, n + delta)
  {
  }

  /** Queued, in flight, or settled lately in the same run. */
  predicate InBooks(b: Books, t: Task, run: int) {
    || t.slice in b.inflight
    || (exists i :: 0 <= i < |b.queue| && b.queue[i].slice == t.slice)
    || Memory(t.slice, run) in b.recent
  }

  function Enqueued(b: Books, t: Task, run: int): Books {
    b.(queue := b.queue + [t], loadedRuns := Track(b.loadedRuns, run, 1))
  }

  /** A task is queued unless the books or a node already have its slice. */
  function Offer(b: Books, t: Task, run: int, held: bool, first: bool): Books {
    if InBooks(b, t, run) then b
    else if held then Record(b, Refused(run, t.slice, held))
    else if first then Record(Enqueued(b, t, run), Offered(run, t.slice, t.rust))
    else Enqueued(b, t, run)
  }

  function RemoveAt<T>(s: seq<T>, i: nat): (r: seq<T>)
    requires i < |s|
    ensures |r| == |s| - 1
  {
    if i == 0 then s[1..] else [s[0]] + RemoveAt(s[1..], i - 1)
  }

  function Dispatch(b: Books, i: nat, t: Task, run: int, onRust: bool, free: bool): Books
    requires i < |b.queue|
  {
    Record(b.(queue := RemoveAt(b.queue, i), inflight := b.inflight + {t.slice}, dispatched := b.dispatched[t.id := t]),
           Sent(run, t, onRust, free))
  }

  function PutBack(b: Books, i: nat, t: Task): Books
    requires i < |b.queue|
  {
    b.(queue := RemoveAt(b.queue, i) + [t])
  }

  function Released(b: Books, id: string, run: int, failed: bool): Books
    requires id in b.dispatched
  {
    var t := b.dispatched[id];
    Record(b.(dispatched := Without(b.dispatched, id), loadedRuns := Track(b.loadedRuns, run, -1),
              retryBases := Without(b.retryBases, id), inflight := b.inflight - {t.slice}),
           Heard(run, t, failed))
  }

  function RunRemembered(recent: seq<Memory>, s: Slice): Option<int> {
    if recent == [] then None
    else if recent[0].slice == s then Some(recent[0].run)
    else RunRemembered(recent[1..], s)
  }

  function Dropped(recent: seq<Memory>, s: Slice): seq<Memory> {
    if recent == [] then []
    else (if recent[0].slice == s then [] else [recent[0]]) + Dropped(recent[1..], s)
  }

  function Renew(b: Books, s: Slice, run: int): Books {
    var added := b.(recent := Dropped(b.recent, s) + [Memory(s, run)]);
    match RunRemembered(b.recent, s)
    case None => added
    case Some(before) => Record(added, Forgot(before, s))
  }

  function EvictOldest(b: Books): Books
    requires b.recent != []
  {
    Record(b.(recent := b.recent[1..]), Forgot(b.recent[0].run, b.recent[0].slice))
  }

  /** The slice becomes the youngest entry; the oldest goes when the list is too long. */
  function Remember(b: Books, s: Slice, run: int): Books {
    var renewed := Renew(b, s, run);
    if |renewed.recent| > RECENT_SLICE_LIMIT then EvictOldest(renewed) else renewed
  }

  function Retry(ids: IdScheme, base: string, attempt: nat, t: Task): Task { Task(ids.retry(base, attempt), t.slice, t.rust) }

  function AfterHeard(ids: IdScheme, b: Books, t: Task, base: string, run: int, failed: bool, held: bool): Books {
    var cleared := b.(attempts := Without(b.attempts, base));
    if !failed then Remember(cleared, t.slice, run)
    else
      var attempt := Count(b.attempts, base) + 1;
      if attempt <= MAX_ATTEMPTS then
        var again := Retry(ids, base, attempt, t);
        Offer(b.(attempts := b.attempts[base := attempt], retryBases := b.retryBases[again.id := base]),
              again, ids.runOf(again.id), held, false)
      else Remember(Record(cleared, GaveUp(run, t.slice)), t.slice, run)
  }

  /** A failure is retried under the next id until three attempts failed; success ends it. */
  function Settle(ids: IdScheme, b: Books, id: string, failed: bool, held: bool): Books
    requires id in b.dispatched
  {
    var run := ids.runOf(id);
    AfterHeard(ids, Released(b, id, run, failed), b.dispatched[id], BaseOf(b, id), run, failed, held)
  }

  /** While nothing is loaded the run may move on. */
  lemma RunMoves(env: Env, run: int, b: Books, run': int)
    requires BooksOk(env, run, b) && b.queue == [] && b.dispatched == map[] && run <= run'
    ensures BooksOk(env, run', b)
  {
  }

  // ----- what ids tell -----

  ghost predicate Sound(env: Env) { Tells(env.ids, env.decode, env.log) }

  lemma IdReadsBack(env: Env, run: int, s: Slice, attempt: nat)
    requires Sound(env) && s in env.log && attempt <= MAX_ATTEMPTS
    ensures var id := Id(env.ids, run, s, attempt);
            env.ids.runOf(id) == run && env.decode.slice(id) == s && env.decode.attempt(id) == attempt
  {
    assert Decodes(env.ids, env.decode, run, s, attempt);
  }

  lemma FirstIdsDiffer(env: Env, r: int, s: Slice, r': int, s': Slice)
    requires Sound(env) && s in env.log && s' in env.log
    requires env.ids.first(r, s) == env.ids.first(r', s')
    ensures r == r' && s == s'
  {
    IdReadsBack(env, r, s, 0);
    IdReadsBack(env, r', s', 0);
  }

  lemma TaskReadsBack(env: Env, run: int, t: Task)
    requires Sound(env) && TaskOk(env, run, t)
    ensures env.ids.runOf(t.id) == run && env.decode.slice(t.id) == t.slice
  {
    IdReadsBack(env, run, t.slice, env.decode.attempt(t.id));
  }

  lemma BaseIsFirst(env: Env, run: int, b: Books, t: Task)
    requires Sound(env) && RetriesOk(env, b) && LoadedOk(env, run, b, t)
    ensures BaseOf(b, t.id) == env.ids.first(run, t.slice)
  {
    TaskReadsBack(env, run, t);
  }

  // ----- offering -----

  /** What a loaded task relies on is still there. */
  ghost predicate Supports(b: Books, b': Books) {
    && b'.recent == b.recent && b.retryBases.Keys <= b'.retryBases.Keys
    && forall q :: q in b'.past.rust ==> q in b.past.rust || !IsLoaded(b, q)
  }

  lemma QueueGrows(env: Env, run: int, b: Books, b': Books, t: Task)
    requires QueueOk(env, run, b) && Supports(b, b') && b'.inflight == b.inflight && b'.queue == b.queue + [t]
    requires LoadedOk(env, run, b', t) && !InBooks(b, t, run)
    ensures QueueOk(env, run, b')
  {
    forall i | 0 <= i < |b'.queue| ensures LoadedOk(env, run, b', b'.queue[i]) && b'.queue[i].slice !in b'.inflight {
      if i < |b.queue| { assert LoadedOk(env, run, b, b.queue[i]) && IsLoaded(b, b.queue[i].slice); }
    }
  }

  lemma QueueStays(env: Env, run: int, b: Books, b': Books)
    requires QueueOk(env, run, b) && Supports(b, b') && b'.inflight == b.inflight && b'.queue == b.queue
    ensures QueueOk(env, run, b')
  {
    forall i | 0 <= i < |b'.queue| ensures LoadedOk(env, run, b', b'.queue[i]) {
      assert LoadedOk(env, run, b, b.queue[i]) && IsLoaded(b, b.queue[i].slice);
    }
  }

  lemma DispatchedStays(env: Env, run: int, b: Books, b': Books)
    requires DispatchedOk(env, run, b) && Supports(b, b') && b'.inflight == b.inflight && b'.dispatched == b.dispatched
    ensures DispatchedOk(env, run, b')
  {
    forall id | id in b'.dispatched ensures SentOk(env, run, b', id) {
      assert SentOk(env, run, b, id) && IsLoaded(b, b.dispatched[id].slice);
    }
    forall id, id' | SameSlice(b', id, id') ensures id == id' { assert SameSlice(b, id, id'); }
  }

  lemma SameLosses(env: Env, b: Books, b': Books)
    requires LossesOk(env, b) && b'.recent == b.recent && b'.attempts == b.attempts && b'.past.losses == b.past.losses
    ensures LossesOk(env, b')
  {
    forall r: int, s | s in env.log ensures LossOk(env, b', r, s) { assert LossOk(env, b, r, s); }
  }

  lemma RetriesStay(env: Env, b: Books, b': Books)
    requires RetriesOk(env, b) && forall id :: id in b'.retryBases ==> id in b.retryBases && b'.retryBases[id] == b.retryBases[id]
    ensures RetriesOk(env, b')
  {
  }

  lemma RecentStays(env: Env, b: Books, b': Books)
    requires RecentOk(env, b) && b'.recent == b.recent && b.past.resolved <= b'.past.resolved
    ensures RecentOk(env, b')
  {
  }

  ghost predicate LoadsNoLess(b: Books, b': Books) {
    b.past.resolved <= b'.past.resolved && forall s :: IsLoaded(b, s) ==> IsLoaded(b', s)
  }

  lemma AccountsFor(run: int, b: Books, b': Books)
    requires LoadsNoLess(b, b')
    ensures StaysAccounted(run, b, b')
  {
  }

  lemma LoadsAtLeast(b: Books, b': Books)
    requires b.inflight <= b'.inflight && b.queue <= b'.queue && b.past.resolved <= b'.past.resolved
    ensures LoadsNoLess(b, b')
  {
    forall s | IsLoaded(b, s) ensures IsLoaded(b', s) {
      if s !in b.inflight {
        var i :| 0 <= i < |b.queue| && b.queue[i].slice == s;
        assert b'.queue[i].slice == s;
      }
    }
  }

  lemma CoreStays(env: Env, run: int, b: Books, b': Books)
    requires CoreOk(env, run, b) && Supports(b, b') && Told(env, b') && RetriesOk(env, b')
    requires b'.queue == b.queue && b'.inflight == b.inflight && b'.dispatched == b.dispatched && b'.loadedRuns == b.loadedRuns
    requires b'.past.open == b.past.open && b'.past.lastRun == b.past.lastRun && b.past.resolved <= b'.past.resolved
    ensures CoreOk(env, run, b')
  {
    hide Told, Replay;
    QueueStays(env, run, b, b');
    DispatchedStays(env, run, b, b');
    RecentStays(env, b, b');
  }

  /** Steps that only note a slice as resolved. */
  lemma NoteKeeps(env: Env, run: int, b: Books, e: Step, b': Books)
    requires BooksOk(env, run, b) && b' == Record(b, e) && (e.Refused? || e.Skipped?) && Allowed(b.past, e)
    requires e.Skipped? ==> env.genuine(e.look)
    ensures BooksOk(env, run, b') && LoadsNoLess(b, b')
    ensures forall r, s :: (r, s) in b'.past.resolved <==>
      (r, s) in b.past.resolved || (r == e.run && if e.Refused? then s == e.slice else s in e.slices)
  {
    RecordKeeps(env, b, e, b');
    CoreStays(env, run, b, b');
    SameLosses(env, b, b');
    LoadsAtLeast(b, b');
  }

  lemma RefusedKeeps(env: Env, run: int, b: Books, t: Task, b': Books)
    requires BooksOk(env, run, b) && b' == Record(b, Refused(run, t.slice, true))
    ensures BooksOk(env, run, b') && LoadsNoLess(b, b') && (run, t.slice) in b'.past.resolved
  {
    NoteKeeps(env, run, b, Refused(run, t.slice, true), b');
  }

  lemma EnqueueCount(run: int, b: Books, t: Task, b': Books)
    requires b.loadedRuns == Loaded(run, |b.queue| + |b.dispatched|)
    requires b' == Enqueued(b, t, run) || b' == Record(Enqueued(b, t, run), Offered(run, t.slice, t.rust))
    ensures b'.loadedRuns == Loaded(run, |b'.queue| + |b'.dispatched|)
    ensures IsLoaded(b', t.slice) && LoadsNoLess(b, b')
  {
    TrackCounts(run, |b.queue| + |b.dispatched|, 1);
    assert b'.queue[|b.queue|] == t;
    LoadsAtLeast(b, b');
  }

  lemma EnqueueKeeps(env: Env, run: int, b: Books, t: Task, b': Books)
    requires BooksOk(env, run, b) && LoadedOk(env, run, b', t) && !InBooks(b, t, run)
    requires b' == Enqueued(b, t, run) || b' == Record(Enqueued(b, t, run), Offered(run, t.slice, t.rust))
    ensures BooksOk(env, run, b')
  {
    EnqueueCount(run, b, t, b');
    if b' != Enqueued(b, t, run) {
      forall id | id in b.dispatched ensures b.dispatched[id].slice != t.slice { assert SentOk(env, run, b, id); }
      RecordKeeps(env, b, Offered(run, t.slice, t.rust), b');
    }
    QueueGrows(env, run, b, b', t);
    DispatchedStays(env, run, b, b');
    SameLosses(env, b, b');
    RetriesStay(env, b, b');
    RecentStays(env, b, b');
  }

  lemma OfferKeeps(env: Env, run: int, b: Books, t: Task, held: bool, first: bool)
    requires BooksOk(env, run, b) && TaskOk(env, run, t)
    requires first ==> env.decode.attempt(t.id) == 0
    requires !first ==> t.id in b.retryBases && (t.slice in b.past.rust ==> t.rust)
    ensures BooksOk(env, run, Offer(b, t, run, held, first))
    ensures LoadsNoLess(b, Offer(b, t, run, held, first))
    ensures Accounted(run, Offer(b, t, run, held, first), run, t.slice)
  {
    hide Told, RetriesOk, DispatchedOk, OpenOk, LossesOk;
    var b' := Offer(b, t, run, held, first);
    if !InBooks(b, t, run) {
      if held {
        RefusedKeeps(env, run, b, t, b');
      } else {
        EnqueueKeeps(env, run, b, t, b');
        EnqueueCount(run, b, t, b');
      }
    }
  }

  // ----- sending -----

  lemma {:induction false} IsRemovedAt<T>(s: seq<T>, i: nat)
    requires i < |s|
    ensures forall k :: 0 <= k < |s| - 1 ==> RemoveAt(s, i)[k] == s[if k < i then k else k + 1]
  {
    if i > 0 {
      IsRemovedAt(s[1..], i - 1);
      var r := RemoveAt(s[1..], i - 1);
      forall k | 0 <= k < |s| - 1 ensures RemoveAt(s, i)[k] == s[if k < i then k else k + 1] {
        if k > 0 { assert r[k - 1] == s[1..][if k - 1 < i - 1 then k - 1 else k]; }
      }
    }
  }

  lemma IsKept<T>(s: seq<T>, i: nat, k: nat) returns (k': nat)
    requires i < |s| && k < |s| && k != i
    ensures k' < |RemoveAt(s, i)| && RemoveAt(s, i)[k'] == s[k]
  {
    IsRemovedAt(s, i);
    k' := if k < i then k else k - 1;
  }

  /** Sending the task found in the queue obeys the law. */
  lemma SendAllowed(env: Env, run: int, b: Books, i: nat, t: Task, onRust: bool)
    requires Sound(env) && BooksOk(env, run, b) && i < |b.queue|
    requires t == b.queue[i].(rust := b.queue[i].rust || onRust) && (t.rust ==> onRust)
    ensures Allowed(b.past, Sent(run, t, onRust, true))
  {
    assert LoadedOk(env, run, b, b.queue[i]);
    TaskReadsBack(env, run, t);
    forall id | id in b.dispatched ensures id != t.id && b.dispatched[id].slice != t.slice {
      assert SentOk(env, run, b, id);
      TaskReadsBack(env, run, b.dispatched[id]);
    }
    assert LossOk(env, b, run, t.slice);
  }

  lemma QueueShrinks(env: Env, run: int, b: Books, i: nat, b': Books)
    requires QueueOk(env, run, b) && i < |b.queue| && b'.queue == RemoveAt(b.queue, i)
    requires b'.inflight == b.inflight + {b.queue[i].slice} && b'.recent == b.recent && b'.retryBases == b.retryBases
    requires b'.past.rust <= b.past.rust + {b.queue[i].slice}
    ensures QueueOk(env, run, b')
  {
    IsRemovedAt(b.queue, i);
    forall k | 0 <= k < |b'.queue| ensures LoadedOk(env, run, b', b'.queue[k]) && b'.queue[k].slice !in b'.inflight {
      assert LoadedOk(env, run, b, b.queue[if k < i then k else k + 1]);
    }
  }

  lemma DispatchedGrows(env: Env, run: int, b: Books, t: Task, b': Books)
    requires DispatchedOk(env, run, b) && LoadedOk(env, run, b', t) && t.slice !in b.inflight && t.id !in b.dispatched
    requires b'.dispatched == b.dispatched[t.id := t] && b'.inflight == b.inflight + {t.slice}
    requires b'.recent == b.recent && b'.retryBases == b.retryBases && b'.past.rust <= b.past.rust + {t.slice}
    ensures DispatchedOk(env, run, b')
  {
    forall id | id in b'.dispatched ensures SentOk(env, run, b', id) {
      if id != t.id { assert SentOk(env, run, b, id); }
    }
    forall id, id' | SameSlice(b', id, id') ensures id == id' {
      if id != t.id { assert SentOk(env, run, b, id); }
      if id' != t.id { assert SentOk(env, run, b, id'); }
      assert id != t.id && id' != t.id ==> SameSlice(b, id, id');
    }
    OneMore(b.dispatched, t);
    assert |b'.inflight| == |b.inflight| + 1;
  }

  lemma OneMore(m: map<string, Task>, t: Task)
    requires t.id !in m
    ensures |m[t.id := t]| == |m| + 1
  {
  }

  lemma DispatchLoads(b: Books, i: nat, b': Books)
    requires i < |b.queue| && b'.inflight == b.inflight + {b.queue[i].slice} && b'.queue == RemoveAt(b.queue, i)
    requires b'.past.resolved == b.past.resolved
    ensures LoadsNoLess(b, b')
  {
    forall s | IsLoaded(b, s) ensures IsLoaded(b', s) {
      if s !in b'.inflight {
        var k :| 0 <= k < |b.queue| && b.queue[k].slice == s;
        var k' := IsKept(b.queue, i, k);
      }
    }
  }

  ghost predicate Dispatches(b: Books, i: nat, t: Task, run: int, onRust: bool, b': Books) {
    && i < |b.queue| && b' == Dispatch(b, i, t, run, onRust, true)
    && t == b.queue[i].(rust := b.queue[i].rust || onRust) && (t.rust ==> onRust)
  }

  lemma DispatchMoves(env: Env, run: int, b: Books, i: nat, t: Task, onRust: bool, b': Books)
    requires Sound(env) && BooksOk(env, run, b) && Dispatches(b, i, t, run, onRust, b')
    ensures QueueOk(env, run, b') && DispatchedOk(env, run, b') && OpenOk(run, b')
    ensures |b'.queue| + |b'.dispatched| == |b.queue| + |b.dispatched|
  {
    SendAllowed(env, run, b, i, t, onRust);
    assert LoadedOk(env, run, b, b.queue[i]);
    QueueShrinks(env, run, b, i, b');
    DispatchedGrows(env, run, b, t, b');
  }

  lemma DispatchTold(env: Env, run: int, b: Books, i: nat, t: Task, onRust: bool, b': Books)
    requires Sound(env) && BooksOk(env, run, b) && Dispatches(b, i, t, run, onRust, b')
    ensures Told(env, b')
  {
    SendAllowed(env, run, b, i, t, onRust);
    RecordKeeps(env, b, Sent(run, t, onRust, true), b');
  }

  lemma DispatchKeeps(env: Env, run: int, b: Books, i: nat, t: Task, onRust: bool, b': Books)
    requires Sound(env) && BooksOk(env, run, b) && Dispatches(b, i, t, run, onRust, b')
    ensures BooksOk(env, run, b') && LoadsNoLess(b, b')
  {
    hide QueueOk, DispatchedOk, OpenOk, Told, LoadsNoLess, LossesOk;
    DispatchMoves(env, run, b, i, t, onRust, b');
    DispatchTold(env, run, b, i, t, onRust, b');
    RetriesStay(env, b, b');
    RecentStays(env, b, b');
    SameLosses(env, b, b');
    DispatchLoads(b, i, b');
  }

  lemma RotatedQueue(env: Env, run: int, b: Books, i: nat, t: Task, b': Books)
    requires QueueOk(env, run, b) && i < |b.queue| && b' == PutBack(b, i, t)
    requires t == b.queue[i].(rust := t.rust) && (b.queue[i].rust ==> t.rust)
    ensures QueueOk(env, run, b')
  {
    IsRemovedAt(b.queue, i);
    assert LoadedOk(env, run, b, b.queue[i]);
    forall k | 0 <= k < |b.queue| ensures LoadedOk(env, run, b', b'.queue[k]) && b'.queue[k].slice !in b'.inflight {
      if k < |b.queue| - 1 { assert LoadedOk(env, run, b, b.queue[if k < i then k else k + 1]); }
    }
  }

  lemma RotatedLoads(b: Books, i: nat, t: Task, b': Books)
    requires i < |b.queue| && b' == PutBack(b, i, t) && t.slice == b.queue[i].slice
    ensures LoadsNoLess(b, b')
  {
    var rest := RemoveAt(b.queue, i);
    assert b'.queue[|rest|] == t;
    forall s | IsLoaded(b, s) ensures IsLoaded(b', s) {
      if s !in b'.inflight && s != t.slice {
        var k :| 0 <= k < |b.queue| && b.queue[k].slice == s;
        var k' := IsKept(b.queue, i, k);
        assert b'.queue[k'] == rest[k'];
      }
    }
  }

  lemma PutBackKeeps(env: Env, run: int, b: Books, i: nat, t: Task, b': Books)
    requires BooksOk(env, run, b) && i < |b.queue| && b' == PutBack(b, i, t)
    requires t == b.queue[i].(rust := t.rust) && (b.queue[i].rust ==> t.rust)
    ensures BooksOk(env, run, b') && LoadsNoLess(b, b')
  {
    hide QueueOk, DispatchedOk, Replay, Lawful, Attested, LoadsNoLess, LossesOk, RetriesOk;
    RotatedQueue(env, run, b, i, t, b');
    RotatedLoads(b, i, t, b');
    DispatchedStays(env, run, b, b');
    RetriesStay(env, b, b');
    RecentStays(env, b, b');
    SameLosses(env, b, b');
  }

  // ----- settling -----

  ghost predicate LossesBut(env: Env, b: Books, r0: int, s0: Slice) {
    forall r: int, s :: s in env.log && (r, s) != (r0, s0) ==> LossOk(env, b, r, s)
  }

  lemma SettledIdIsAlone(env: Env, run: int, b: Books, id: string)
    requires Sound(env) && CoreOk(env, run, b) && id in b.dispatched
    ensures forall i :: 0 <= i < |b.queue| ==> b.queue[i].id != id && b.queue[i].slice != b.dispatched[id].slice
    ensures env.ids.runOf(id) == run && BaseOf(b, id) == env.ids.first(run, b.dispatched[id].slice)
  {
    var t := b.dispatched[id];
    assert SentOk(env, run, b, id);
    TaskReadsBack(env, run, t);
    BaseIsFirst(env, run, b, t);
    forall i | 0 <= i < |b.queue| ensures b.queue[i].id != id && b.queue[i].slice != t.slice {
      assert LoadedOk(env, run, b, b.queue[i]);
      TaskReadsBack(env, run, b.queue[i]);
    }
  }

  lemma ReleasedQueue(env: Env, run: int, b: Books, id: string, b': Books)
    requires QueueOk(env, run, b) && b'.queue == b.queue && b'.inflight <= b.inflight && b'.recent == b.recent
    requires b'.past.rust == b.past.rust && b'.retryBases == Without(b.retryBases, id)
    requires forall i :: 0 <= i < |b.queue| ==> b.queue[i].id != id
    ensures QueueOk(env, run, b')
  {
    forall i | 0 <= i < |b.queue| ensures LoadedOk(env, run, b', b.queue[i]) { assert LoadedOk(env, run, b, b.queue[i]); }
  }

  lemma ReleasedDispatched(env: Env, run: int, b: Books, id: string, b': Books)
    requires DispatchedOk(env, run, b) && id in b.dispatched && b'.dispatched == Without(b.dispatched, id)
    requires b'.inflight == b.inflight - {b.dispatched[id].slice} && b'.recent == b.recent
    requires b'.past.rust == b.past.rust && b'.retryBases == Without(b.retryBases, id)
    ensures DispatchedOk(env, run, b') && |b'.dispatched| == |b.dispatched| - 1
  {
    assert SentOk(env, run, b, id);
    forall k | k in b'.dispatched ensures SentOk(env, run, b', k) {
      assert SentOk(env, run, b, k);
      assert SameSlice(b, id, k) ==> id == k;
    }
    forall k, k' | SameSlice(b', k, k') ensures k == k' { assert SameSlice(b, k, k'); }
    assert b'.dispatched.Keys == b.dispatched.Keys - {id};
  }

  lemma ReleasedTold(env: Env, run: int, b: Books, id: string, failed: bool, b': Books)
    requires CoreOk(env, run, b) && id in b.dispatched && b' == Released(b, id, run, failed)
    ensures Told(env, b') && OpenOk(run, b')
  {
    assert SentOk(env, run, b, id);
    RecordKeeps(env, b, Heard(run, b.dispatched[id], failed), b');
  }

  lemma ReleasedCount(run: int, b: Books, id: string, failed: bool, b': Books)
    requires b.loadedRuns == Loaded(run, |b.queue| + |b.dispatched|) && id in b.dispatched
    requires b' == Released(b, id, run, failed) && |b'.dispatched| == |b.dispatched| - 1
    ensures b'.loadedRuns == Loaded(run, |b'.queue| + |b'.dispatched|)
  {
    TrackCounts(run, |b.queue| + |b.dispatched|, -1);
  }

  lemma ReleasedAway(run: int, b: Books, id: string, failed: bool, b': Books)
    requires id in b.dispatched && b' == Released(b, id, run, failed) && Memory(b.dispatched[id].slice, run) !in b.recent
    requires forall i :: 0 <= i < |b.queue| ==> b.queue[i].slice != b.dispatched[id].slice
    ensures !InBooks(b', b.dispatched[id], run)
  {
  }

  /** After a task is heard of, its slice is in no book but perhaps the memory of another run. */
  lemma ReleasedCore(env: Env, run: int, b: Books, id: string, failed: bool, b': Books)
    requires Sound(env) && CoreOk(env, run, b) && id in b.dispatched && b' == Released(b, id, run, failed)
    ensures CoreOk(env, run, b') && !InBooks(b', b.dispatched[id], run)
  {
    SettledIdIsAlone(env, run, b, id);
    ReleasedTold(env, run, b, id, failed, b');
    ReleasedQueue(env, run, b, id, b');
    ReleasedDispatched(env, run, b, id, b');
    ReleasedCount(run, b, id, failed, b');
    RetriesStay(env, b, b');
    RecentStays(env, b, b');
    assert SentOk(env, run, b, id);
    ReleasedAway(run, b, id, failed, b');
  }

  // ----- remembering -----

  lemma {:induction false} DroppedHas(recent: seq<Memory>, s: Slice)
    ensures forall m :: m in Dropped(recent, s) <==> m in recent && m.slice != s
    ensures |Dropped(recent, s)| <= |recent|
    ensures RunRemembered(recent, s).Some? ==> Memory(s, RunRemembered(recent, s).value) in recent && |Dropped(recent, s)| < |recent|
    ensures RunRemembered(recent, s).None? ==> forall r :: Memory(s, r) !in recent
  {
    if recent != [] {
      DroppedHas(recent[1..], s);
      assert recent == [recent[0]] + recent[1..];
    }
  }

  ghost predicate DistinctSlices(recent: seq<Memory>) {
    forall i, j :: 0 <= i < j < |recent| ==> recent[i].slice != recent[j].slice
  }

  lemma {:induction false} DroppedDistinct(recent: seq<Memory>, s: Slice)
    requires DistinctSlices(recent)
    ensures DistinctSlices(Dropped(recent, s))
  {
    if recent != [] {
      var later := Dropped(recent[1..], s);
      DroppedDistinct(recent[1..], s);
      DroppedHas(recent[1..], s);
      forall j | 0 <= j < |later| ensures later[j].slice != recent[0].slice {
        assert later[j] in recent[1..];
      }
    }
  }

  /** A slice is remembered for one run only. */
  lemma OneMemory(recent: seq<Memory>, s: Slice, a: int, b: int)
    requires DistinctSlices(recent) && Memory(s, a) in recent && Memory(s, b) in recent
    ensures a == b
  {
  }

  /** Only the memory changes, and not for a loaded slice. */
  ghost predicate OnlyMemory(run: int, b: Books, b': Books) {
    && b' == b.(recent := b'.recent, trace := b'.trace, past := b.past.(losses := b'.past.losses, recent := b'.past.recent))
    && forall m :: m in b'.recent ==> m in b.recent || (m.run == run && !IsLoaded(b, m.slice))
  }

  lemma MemoryLeavesQueue(env: Env, run: int, b: Books, b': Books)
    requires QueueOk(env, run, b) && OnlyMemory(run, b, b')
    ensures QueueOk(env, run, b')
  {
    forall i | 0 <= i < |b.queue| ensures LoadedOk(env, run, b', b.queue[i]) { assert LoadedOk(env, run, b, b.queue[i]); }
  }

  lemma MemoryLeavesSent(env: Env, run: int, b: Books, b': Books)
    requires DispatchedOk(env, run, b) && OnlyMemory(run, b, b')
    ensures DispatchedOk(env, run, b')
  {
    forall id | id in b.dispatched ensures SentOk(env, run, b', id) { assert SentOk(env, run, b, id); }
    forall id, id' | SameSlice(b', id, id') ensures id == id' { assert SameSlice(b, id, id'); }
  }

  lemma MemoryChanges(env: Env, run: int, b: Books, b': Books)
    requires CoreOk(env, run, b) && Told(env, b') && RecentOk(env, b') && OnlyMemory(run, b, b')
    ensures CoreOk(env, run, b')
  {
    hide QueueOk, DispatchedOk, RecentOk, Told, Replay, Lawful, Attested;
    MemoryLeavesQueue(env, run, b, b');
    MemoryLeavesSent(env, run, b, b');
  }

  lemma RenewRecent(env: Env, b: Books, s: Slice, run: int, b': Books)
    requires RecentOk(env, b) && s in env.log && (run, s) in b.past.resolved && b' == Renew(b, s, run)
    ensures RecentOk(env, b') && |b'.recent| <= |b.recent| + 1
    ensures forall m :: m in b'.recent <==> m == Memory(s, run) || (m in b.recent && m.slice != s)
  {
    DroppedHas(b.recent, s);
    DroppedDistinct(b.recent, s);
    var kept := Dropped(b.recent, s);
    forall j | 0 <= j < |kept| ensures kept[j].slice != s { assert kept[j] in kept; }
  }

  /** Done with, and not yet the youngest in the memory. */
  ghost predicate JustDone(b: Books, s: Slice, run: int) {
    b.past.recent == b.recent + [Memory(s, run)] && Memory(s, run) !in b.recent
  }

  lemma {:induction false} GoneIsDropped(recent: seq<Memory>, s: Slice, before: int, added: Memory)
    requires DistinctSlices(recent) && Memory(s, before) in recent && added != Memory(s, before)
    ensures Gone(recent + [added], Memory(s, before)) == Dropped(recent, s) + [added]
  {
    var m, rest := Memory(s, before), recent[1..];
    assert (recent + [added])[1..] == rest + [added];
    if recent[0] == m {
      NothingGone(rest + [added], m);
      NothingDropped(rest, s);
    } else {
      assert m in rest;
      GoneIsDropped(rest, s, before, added);
    }
  }

  lemma {:induction false} NothingGone(recent: seq<Memory>, m: Memory)
    requires m !in recent
    ensures Gone(recent, m) == recent
  {
    if recent != [] { NothingGone(recent[1..], m); }
  }

  lemma {:induction false} NothingDropped(recent: seq<Memory>, s: Slice)
    requires forall m :: m in recent ==> m.slice != s
    ensures Dropped(recent, s) == recent
  {
    if recent != [] { NothingDropped(recent[1..], s); }
  }

  /** The run before is forgotten because the slice was done with again. */
  lemma RenewTold(env: Env, run: int, b: Books, s: Slice, b': Books)
    requires Told(env, b) && RecentOk(env, b) && JustDone(b, s, run) && b' == Renew(b, s, run)
    ensures Told(env, b') && b'.past.recent == b'.recent
  {
    DroppedHas(b.recent, s);
    var before := RunRemembered(b.recent, s);
    if before.Some? {
      var m := Memory(s, before.value);
      assert m in b.past.recent && b.past.recent[|b.recent|] == Memory(s, run);
      assert MayForget(b.past.recent, m);
      RecordKeeps(env, b, Forgot(before.value, s), b');
      GoneIsDropped(b.recent, s, before.value, Memory(s, run));
    } else {
      NothingDropped(b.recent, s);
    }
  }

  lemma RenewCore(env: Env, run: int, b: Books, s: Slice, b': Books)
    requires CoreOk(env, run, b) && !IsLoaded(b, s) && s in env.log && (run, s) in b.past.resolved && b' == Renew(b, s, run)
    requires JustDone(b, s, run)
    ensures CoreOk(env, run, b') && b'.past.recent == b'.recent
  {
    hide QueueOk, DispatchedOk, Told, Replay, Lawful, Attested, Dropped, Gone;
    RenewRecent(env, b, s, run, b');
    RenewTold(env, run, b, s, b');
    MemoryChanges(env, run, b, b');
  }

  /** The slice just settled may have failed up to three times; its attempts are cleared. */
  ghost predicate Cleared(env: Env, b: Books, run: int, s: Slice) {
    && b.past.losses[(run, s)] <= MAX_ATTEMPTS + 1 && env.ids.first(run, s) !in b.attempts
    && Memory(s, run) !in b.recent
  }

  lemma RenewLosses(env: Env, run: int, b: Books, s: Slice, b': Books)
    requires Sound(env) && RecentOk(env, b) && s in env.log && (run, s) in b.past.resolved && b' == Renew(b, s, run)
    requires LossesBut(env, b, run, s) && Cleared(env, b, run, s)
    ensures LossesOk(env, b')
  {
    RenewRecent(env, b, s, run, b');
    DroppedHas(b.recent, s);
    forall r: int, q | q in env.log ensures LossOk(env, b', r, q) {
      if (r, q) != (run, s) {
        assert LossOk(env, b, r, q);
        if q == s && Memory(s, r) in b.recent { OneMemory(b.recent, s, r, RunRemembered(b.recent, s).value); }
      }
    }
  }

  lemma EvictTold(env: Env, b: Books, b': Books)
    requires Told(env, b) && |b.recent| > RECENT_SLICE_LIMIT && b.past.recent == b.recent && b' == EvictOldest(b)
    requires DistinctSlices(b.recent)
    ensures Told(env, b') && b'.past.recent == b'.recent
  {
    var oldest := b.recent[0];
    assert MayForget(b.past.recent, oldest);
    RecordKeeps(env, b, Forgot(oldest.run, oldest.slice), b');
    NothingGone(b.recent[1..], oldest);
  }

  lemma EvictedLosses(env: Env, b: Books, b': Books)
    requires RecentOk(env, b) && LossesOk(env, b) && b.recent != [] && b' == EvictOldest(b)
    ensures LossesOk(env, b')
  {
    EvictedRecent(env, b, b');
    forall r: int, q | q in env.log ensures LossOk(env, b', r, q) { assert LossOk(env, b, r, q); }
  }

  lemma EvictKeeps(env: Env, run: int, b: Books, b': Books)
    requires CoreOk(env, run, b) && LossesOk(env, b) && |b.recent| > RECENT_SLICE_LIMIT && b.past.recent == b.recent
    requires b' == EvictOldest(b)
    ensures CoreOk(env, run, b') && LossesOk(env, b') && |b'.recent| == |b.recent| - 1 && b'.past.recent == b'.recent
  {
    hide QueueOk, DispatchedOk, LossesOk, Told, Replay, Lawful, Attested;
    EvictTold(env, b, b');
    EvictedRecent(env, b, b');
    EvictedLosses(env, b, b');
    MemoryChanges(env, run, b, b');
  }

  lemma EvictedRecent(env: Env, b: Books, b': Books)
    requires RecentOk(env, b) && b.recent != [] && b' == EvictOldest(b)
    ensures RecentOk(env, b') && forall m :: m in b'.recent <==> m in b.recent && m != b.recent[0]
  {
    assert b.recent == [b.recent[0]] + b.recent[1..];
    forall m | m in b.recent[1..] ensures m != b.recent[0] {
      var j :| 1 <= j < |b.recent| && b.recent[j] == m;
    }
  }

  /** Remembering loads and unloads nothing. */
  lemma RememberLoads(b: Books, s: Slice, run: int, b': Books)
    requires b' == Remember(b, s, run)
    ensures LoadsNoLess(b, b')
  {
    hide Remember, LoadsNoLess;
    RememberFrame(b, s, run);
    LoadsAtLeast(b, b');
  }

  lemma RenewKeeps(env: Env, run: int, b: Books, s: Slice, b': Books)
    requires Sound(env) && CoreOk(env, run, b) && s in env.log && !IsLoaded(b, s)
    requires (run, s) in b.past.resolved && LossesBut(env, b, run, s) && Cleared(env, b, run, s) && b' == Renew(b, s, run)
    requires JustDone(b, s, run)
    ensures CoreOk(env, run, b') && LossesOk(env, b') && |b'.recent| <= |b.recent| + 1 && b'.past.recent == b'.recent
  {
    RenewRecent(env, b, s, run, b');
    RenewCore(env, run, b, s, b');
    RenewLosses(env, run, b, s, b');
  }

  lemma RememberKeeps(env: Env, run: int, b: Books, s: Slice, b': Books)
    requires Sound(env) && CoreOk(env, run, b) && |b.recent| <= RECENT_SLICE_LIMIT && s in env.log && !IsLoaded(b, s)
    requires (run, s) in b.past.resolved && LossesBut(env, b, run, s) && Cleared(env, b, run, s) && b' == Remember(b, s, run)
    requires JustDone(b, s, run)
    ensures BooksOk(env, run, b')
  {
    var renewed := Renew(b, s, run);
    RenewKeeps(env, run, b, s, renewed);
    if |renewed.recent| > RECENT_SLICE_LIMIT { EvictKeeps(env, run, renewed, b'); }
  }

  // ----- one settlement -----

  lemma HeardLosses(env: Env, run: int, b: Books, id: string, failed: bool, b': Books)
    requires LossesOk(env, b) && id in b.dispatched && LoadedOk(env, run, b, b.dispatched[id]) && b' == Released(b, id, run, failed)
    ensures var s := b.dispatched[id].slice;
            && LossesBut(env, b', run, s) && Memory(s, run) !in b'.recent
            && b'.past.losses[(run, s)] == Count(b'.attempts, env.ids.first(run, s)) + (if failed then 1 else 0)
            && Count(b'.attempts, env.ids.first(run, s)) <= MAX_ATTEMPTS
  {
    var s := b.dispatched[id].slice;
    assert LossOk(env, b, run, s);
    forall r: int, q | q in env.log && (r, q) != (run, s) ensures LossOk(env, b', r, q) { assert LossOk(env, b, r, q); }
  }

  /** Changing one slice's attempts leaves the account of every other alone. */
  lemma AttemptsOf(env: Env, run: int, b: Books, s: Slice, b': Books)
    requires Sound(env) && LossesBut(env, b, run, s) && s in env.log
    requires b'.recent == b.recent && b'.past.losses == b.past.losses
    requires forall base :: base != env.ids.first(run, s) ==>
      (base in b'.attempts <==> base in b.attempts) && (base in b.attempts ==> b'.attempts[base] == b.attempts[base])
    ensures LossesBut(env, b', run, s)
  {
    forall r: int, q | q in env.log && (r, q) != (run, s) ensures LossOk(env, b', r, q) {
      assert LossOk(env, b, r, q);
      if env.ids.first(r, q) == env.ids.first(run, s) { FirstIdsDiffer(env, r, q, run, s); }
    }
  }

  /** The books after a task was heard of and before its slice is remembered or queued again. */
  ghost predicate Ready(env: Env, run: int, b: Books, t: Task, failed: bool) {
    var count := Count(b.attempts, env.ids.first(run, t.slice));
    && CoreOk(env, run, b) && |b.recent| <= RECENT_SLICE_LIMIT
    && t.slice in env.log && !InBooks(b, t, run) && (t.slice in b.past.rust ==> t.rust)
    && LossesBut(env, b, run, t.slice) && count <= MAX_ATTEMPTS
    && b.past.losses[(run, t.slice)] == count + (if failed then 1 else 0)
    && b.past.recent == b.recent + if failed then [] else [Memory(t.slice, run)]
  }

  lemma HeardIsReady(env: Env, run: int, b: Books, id: string, failed: bool, b': Books)
    requires Sound(env) && BooksOk(env, run, b) && id in b.dispatched && b' == Released(b, id, run, failed)
    ensures Ready(env, run, b', b.dispatched[id], failed)
  {
    assert SentOk(env, run, b, id);
    ReleasedCore(env, run, b, id, failed, b');
    HeardLosses(env, run, b, id, failed, b');
  }

  /** The books after the last step of a slice in this run, before the slice is remembered. */
  ghost predicate Closing(env: Env, run: int, b: Books, t: Task) {
    var count := Count(b.attempts, env.ids.first(run, t.slice));
    && CoreOk(env, run, b) && |b.recent| <= RECENT_SLICE_LIMIT
    && t.slice in env.log && !InBooks(b, t, run)
    && LossesBut(env, b, run, t.slice) && b.past.losses[(run, t.slice)] <= MAX_ATTEMPTS + 1
    && (run, t.slice) in b.past.resolved && JustDone(b, t.slice, run)
  }

  lemma SettleEnds(env: Env, run: int, b: Books, t: Task, b': Books)
    requires Sound(env) && Closing(env, run, b, t)
    requires b' == Remember(b.(attempts := Without(b.attempts, env.ids.first(run, t.slice))), t.slice, run)
    ensures BooksOk(env, run, b') && LoadsNoLess(b, b')
  {
    var cleared := b.(attempts := Without(b.attempts, env.ids.first(run, t.slice)));
    CoreStays(env, run, b, cleared);
    AttemptsOf(env, run, b, t.slice, cleared);
    RememberKeeps(env, run, cleared, t.slice, b');
    RememberLoads(cleared, t.slice, run, b');
    LoadsAtLeast(b, cleared);
  }

  lemma GaveUpCloses(env: Env, run: int, b: Books, t: Task, b': Books)
    requires Ready(env, run, b, t, true) && b' == Record(b, GaveUp(run, t.slice))
    requires Count(b.attempts, env.ids.first(run, t.slice)) == MAX_ATTEMPTS
    ensures Closing(env, run, b', t) && LoadsNoLess(b, b')
  {
    RecordKeeps(env, b, GaveUp(run, t.slice), b');
    CoreStays(env, run, b, b');
    forall r: int, q | q in env.log && (r, q) != (run, t.slice) ensures LossOk(env, b', r, q) { assert LossOk(env, b, r, q); }
    LoadsAtLeast(b, b');
  }

  lemma RetryTask(env: Env, run: int, t: Task, attempt: nat)
    requires Sound(env) && t.slice in env.log && 0 < attempt <= MAX_ATTEMPTS
    ensures var again := Retry(env.ids, env.ids.first(run, t.slice), attempt, t);
            && TaskOk(env, run, again) && env.ids.runOf(again.id) == run
            && env.decode.attempt(again.id) == attempt && env.decode.slice(again.id) == t.slice
  {
    IdReadsBack(env, run, t.slice, attempt);
  }

  /** A retry is counted and its id tied to the base id. */
  lemma RetryCounts(env: Env, run: int, b: Books, t: Task, attempt: nat, b': Books)
    requires Sound(env) && Ready(env, run, b, t, true)
    requires var base := env.ids.first(run, t.slice);
             && attempt == Count(b.attempts, base) + 1 <= MAX_ATTEMPTS
             && b' == b.(attempts := b.attempts[base := attempt],
                         retryBases := b.retryBases[Retry(env.ids, base, attempt, t).id := base])
    ensures BooksOk(env, run, b') && LoadsNoLess(b, b')
  {
    RetryTask(env, run, t, attempt);
    CoreStays(env, run, b, b');
    AttemptsOf(env, run, b, t.slice, b');
    assert LossOk(env, b', run, t.slice);
    LoadsAtLeast(b, b');
  }

  lemma SettleRetries(env: Env, run: int, b: Books, t: Task, held: bool, b': Books)
    requires Sound(env) && Ready(env, run, b, t, true)
    requires var base := env.ids.first(run, t.slice);
             var attempt := Count(b.attempts, base) + 1;
             var again := Retry(env.ids, base, attempt, t);
             && attempt <= MAX_ATTEMPTS
             && b' == Offer(b.(attempts := b.attempts[base := attempt], retryBases := b.retryBases[again.id := base]),
                            again, env.ids.runOf(again.id), held, false)
    ensures BooksOk(env, run, b') && LoadsNoLess(b, b') && Accounted(run, b', run, t.slice)
  {
    var base := env.ids.first(run, t.slice);
    var attempt := Count(b.attempts, base) + 1;
    var again := Retry(env.ids, base, attempt, t);
    var counted := b.(attempts := b.attempts[base := attempt], retryBases := b.retryBases[again.id := base]);
    RetryCounts(env, run, b, t, attempt, counted);
    RetryTask(env, run, t, attempt);
    OfferKeeps(env, run, counted, again, held, false);
  }

  lemma StaysAccountedFor(run: int, b: Books, id: string, failed: bool, b': Books)
    requires id in b.dispatched && LoadsNoLess(Released(b, id, run, failed), b')
    requires Accounted(run, b', run, b.dispatched[id].slice)
    ensures StaysAccounted(run, b, b')
  {
    var heard := Released(b, id, run, failed);
    forall r: int, s | Accounted(run, b, r, s) ensures Accounted(run, b', r, s) {
      if (r, s) !in b.past.resolved && s != b.dispatched[id].slice {
        if s in b.inflight { assert IsLoaded(heard, s); }
        else {
          var k :| 0 <= k < |b.queue| && b.queue[k].slice == s;
          assert heard.queue[k].slice == s;
        }
      }
    }
  }

  lemma SettleGivesUp(env: Env, run: int, b: Books, t: Task, b': Books)
    requires Sound(env) && Ready(env, run, b, t, true)
    requires Count(b.attempts, env.ids.first(run, t.slice)) == MAX_ATTEMPTS
    requires var cleared := b.(attempts := Without(b.attempts, env.ids.first(run, t.slice)));
             b' == Remember(Record(cleared, GaveUp(run, t.slice)), t.slice, run)
    ensures BooksOk(env, run, b') && LoadsNoLess(b, b') && (run, t.slice) in b'.past.resolved
  {
    var gone := Record(b, GaveUp(run, t.slice));
    GaveUpCloses(env, run, b, t, gone);
    SettleEnds(env, run, gone, t, b');
  }

  lemma AfterHeardKeeps(env: Env, run: int, b: Books, t: Task, failed: bool, held: bool, b': Books)
    requires Sound(env) && Ready(env, run, b, t, failed) && (!failed ==> (run, t.slice) in b.past.resolved)
    requires b' == AfterHeard(env.ids, b, t, env.ids.first(run, t.slice), run, failed, held)
    ensures BooksOk(env, run, b') && LoadsNoLess(b, b') && Accounted(run, b', run, t.slice)
  {
    hide BooksOk, CoreOk, LoadsNoLess, LossesBut, Remember, Record;
    if !failed {
      SettleEnds(env, run, b, t, b');
    } else if Count(b.attempts, env.ids.first(run, t.slice)) < MAX_ATTEMPTS {
      SettleRetries(env, run, b, t, held, b');
    } else {
      SettleGivesUp(env, run, b, t, b');
    }
  }

  /** Whatever becomes of a settled task, the books stay in order and every slice accounted for. */
  lemma SettleKeeps(env: Env, run: int, b: Books, id: string, failed: bool, held: bool, b': Books)
    requires Sound(env) && BooksOk(env, run, b) && id in b.dispatched && b' == Settle(env.ids, b, id, failed, held)
    ensures BooksOk(env, run, b') && StaysAccounted(run, b, b') && b.past.resolved <= b'.past.resolved
  {
    var heard := Released(b, id, run, failed);
    SettledIdIsAlone(env, run, b, id);
    HeardIsReady(env, run, b, id, failed, heard);
    AfterHeardKeeps(env, run, heard, b.dispatched[id], failed, held, b');
    StaysAccountedFor(run, b, id, failed, b');
  }

  lemma RememberFrame(b: Books, s: Slice, run: int)
    ensures var b' := Remember(b, s, run);
            b'.queue == b.queue && b'.inflight == b.inflight && b'.dispatched == b.dispatched
            && b.past.resolved <= b'.past.resolved
  {
    hide Renew, Gone;
    RenewFrame(b, s, run);
  }

  lemma RenewFrame(b: Books, s: Slice, run: int)
    ensures var b' := Renew(b, s, run);
            b'.queue == b.queue && b'.inflight == b.inflight && b'.dispatched == b.dispatched
            && b.past.resolved <= b'.past.resolved
  {
    hide Dropped, Gone, RunRemembered;
  }

  lemma OfferFrame(b: Books, t: Task, run: int, held: bool)
    ensures var b' := Offer(b, t, run, held, false);
            (b'.queue == b.queue || b'.queue == b.queue + [t]) && b'.inflight == b.inflight && b'.dispatched == b.dispatched
  {
  }

  /** Settling never loads more than it unloads. */
  lemma SettleShrinks(ids: IdScheme, b: Books, id: string, failed: bool, held: bool)
    requires id in b.dispatched && b.dispatched[id].slice in b.inflight
    ensures var b' := Settle(ids, b, id, failed, held);
            && |b'.queue| + |b'.inflight| <= |b.queue| + |b.inflight|
            && b.queue <= b'.queue && b'.dispatched == Without(b.dispatched, id)
  {
    var t, run := b.dispatched[id], ids.runOf(id);
    AfterHeardFrame(ids, Released(b, id, run, failed), t, BaseOf(b, id), run, failed, held);
  }

  lemma AfterHeardFrame(ids: IdScheme, b: Books, t: Task, base: string, run: int, failed: bool, held: bool)
    ensures var b' := AfterHeard(ids, b, t, base, run, failed, held);
            |b'.queue| <= |b.queue| + 1 && b.queue <= b'.queue && b'.inflight == b.inflight && b'.dispatched == b.dispatched
  {
    var attempt := Count(b.attempts, base) + 1;
    var cleared := b.(attempts := Without(b.attempts, base));
    if !failed {
      RememberFrame(cleared, t.slice, run);
    } else if attempt <= MAX_ATTEMPTS {
      var again := Retry(ids, base, attempt, t);
      OfferFrame(b.(attempts := b.attempts[base := attempt], retryBases := b.retryBases[again.id := base]),
                 again, ids.runOf(again.id), held);
    } else {
      RememberFrame(Record(cleared, GaveUp(run, t.slice)), t.slice, run);
    }
  }

  /** Whatever else a settlement records, it is heard of first. */
  lemma SettleHears(ids: IdScheme, b: Books, id: string, failed: bool, held: bool)
    requires id in b.dispatched
    ensures b.trace + [Heard(ids.runOf(id), b.dispatched[id], failed)] <= Settle(ids, b, id, failed, held).trace
  {
    var t, run := b.dispatched[id], ids.runOf(id);
    var heard := Released(b, id, run, failed);
    var cleared := heard.(attempts := Without(heard.attempts, BaseOf(b, id)));
    RememberExtends(cleared, t.slice, run);
    RememberExtends(Record(cleared, GaveUp(run, t.slice)), t.slice, run);
  }

  lemma RememberExtends(b: Books, s: Slice, run: int)
    ensures b.trace <= Remember(b, s, run).trace
  {
  }
}
