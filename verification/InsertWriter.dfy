/** The background writer that merges concurrent callers' inserts into bounded INSERT requests. */
module InsertWriter {
  import opened Options
  import opened Batching

  /** `abandoned`: the caller stops waiting at some point, so the writer may find its reply slot closed. */
  datatype Job = Job(caller: nat, payload: string, rows: nat, abandoned: bool)

  datatype Insert = Insert(jobs: seq<Job>, body: string, ok: bool)

  /** A job as the writer met it; a dropped one had no caller left. */
  datatype Seen = Seen(job: Job, dropped: bool)

  /** One turn of the writer: a run of consecutive arrivals, and the INSERT made of the live ones. */
  datatype Round = Round(seen: seq<Seen>, insert: Option<Insert>)

  datatype Reply = Reply(job: Job, ok: bool)

  function Payloads(jobs: seq<Job>): string {
    if jobs == [] then "" else Payloads(jobs[..|jobs| - 1]) + jobs[|jobs| - 1].payload
  }

  function Rows(jobs: seq<Job>): nat {
    if jobs == [] then 0 else Rows(jobs[..|jobs| - 1]) + jobs[|jobs| - 1].rows
  }

  function JobsOf(seen: seq<Seen>): seq<Job> {
    if seen == [] then [] else JobsOf(seen[..|seen| - 1]) + [seen[|seen| - 1].job]
  }

  function Live(seen: seq<Seen>): seq<Job> {
    if seen == [] then []
    else Live(seen[..|seen| - 1]) + (if seen[|seen| - 1].dropped then [] else [seen[|seen| - 1].job])
  }

  function Arrived(rounds: seq<Round>): seq<Job> {
    if rounds == [] then [] else Arrived(rounds[..|rounds| - 1]) + JobsOf(rounds[|rounds| - 1].seen)
  }

  function RepliesOf(jobs: seq<Job>, ok: bool): seq<Reply> {
    if jobs == [] then [] else RepliesOf(jobs[..|jobs| - 1], ok) + [Reply(jobs[|jobs| - 1], ok)]
  }

  function RoundReplies(round: Round): seq<Reply> {
    if round.insert.Some? then RepliesOf(round.insert.value.jobs, round.insert.value.ok) else []
  }

  function Replies(rounds: seq<Round>): seq<Reply> {
    if rounds == [] then [] else Replies(rounds[..|rounds| - 1]) + RoundReplies(rounds[|rounds| - 1])
  }

  lemma JobsAppend(jobs: seq<Job>, next: Job)
    ensures Payloads(jobs + [next]) == Payloads(jobs) + next.payload
    ensures Rows(jobs + [next]) == Rows(jobs) + next.rows
  {
    assert (jobs + [next])[..|jobs|] == jobs;
  }

  lemma SeenAppend(seen: seq<Seen>, next: Seen)
    ensures JobsOf(seen + [next]) == JobsOf(seen) + [next.job]
    ensures Live(seen + [next]) == Live(seen) + (if next.dropped then [] else [next.job])
  {
    assert (seen + [next])[..|seen|] == seen;
  }

  lemma RoundsAppend(rounds: seq<Round>, next: Round)
    ensures Arrived(rounds + [next]) == Arrived(rounds) + JobsOf(next.seen)
    ensures Replies(rounds + [next]) == Replies(rounds) + RoundReplies(next)
  {
    assert (rounds + [next])[..|rounds|] == rounds;
  }

  function Header(table: string): string { "INSERT INTO " + table + " FORMAT JSONEachRow\n" }

  ghost predicate OnlyAbandonedDropped(seen: seq<Seen>) {
    forall i :: 0 <= i < |seen| && seen[i].dropped ==> seen[i].job.abandoned
  }

  ghost predicate InBounds(jobs: seq<Job>, limits: Limits) {
    jobs != [] && Rows(jobs) <= limits.batchSize && |Payloads(jobs)| <= limits.maxBatchBytes
  }

  ghost predicate GoodRound(round: Round, table: string, limits: Limits, waitMs: nat) {
    && OnlyAbandonedDropped(round.seen)
    && match round.insert
       case None => Live(round.seen) == []
       case Some(insert) =>
         && insert.jobs == Live(round.seen)
         && insert.body == Header(table) + Payloads(insert.jobs)
         && InBounds(insert.jobs, limits)
         && (waitMs == 0 ==> |insert.jobs| == 1)
  }

  ghost predicate GoodRounds(rounds: seq<Round>, table: string, limits: Limits, waitMs: nat) {
    forall k :: 0 <= k < |rounds| ==> GoodRound(rounds[k], table, limits, waitMs)
  }

  /** The guard of `enqueue_insert`: nothing larger than one batch is ever queued. */
  ghost predicate Admitted(job: Job, limits: Limits) {
    0 < job.rows <= limits.batchSize && |job.payload| <= limits.maxBatchBytes
  }

  method FinishInsert(body: string) returns (ok: bool)
  {
    ok := *;
  }

  /** A closed reply slot belongs to a caller that has gone; an open one says nothing about later. */
  method IsClosed(job: Job) returns (closed: bool)
    ensures closed ==> job.abandoned
  {
    closed := *;
    closed := closed && job.abandoned;
  }

  method Acknowledge(jobs: seq<Job>, ok: bool) returns (replies: seq<Reply>)
    ensures replies == RepliesOf(jobs, ok)
  {
    replies := [];
    for i := 0 to |jobs|
      invariant replies == RepliesOf(jobs[..i], ok)
    {
      assert jobs[..i + 1][..i] == jobs[..i];
      replies := replies + [Reply(jobs[i], ok)];
    }
    assert jobs[..|jobs|] == jobs;
  }

  /** The jobs in hand: one carried over from the last turn, and the channel behind it. */
  function Waiting(carried: Option<Job>, queue: seq<Job>): seq<Job> {
    (if carried.Some? then [carried.value] else []) + queue
  }

  ghost predicate Keeps(seen: seq<Seen>, waiting: seq<Job>, all: seq<Job>) { JobsOf(seen) + waiting == all }

  lemma KeepsNext(seen: seq<Seen>, next: Seen, waiting: seq<Job>, all: seq<Job>)
    requires Keeps(seen, [next.job] + waiting, all)
    ensures Keeps(seen + [next], waiting, all)
  {
    SeenAppend(seen, next);
  }

  /** What a turn has gathered so far. */
  ghost predicate Collected(jobs: seq<Job>, body: string, rows: nat, seen: seq<Seen>, limits: Limits) {
    && jobs == Live(seen) && OnlyAbandonedDropped(seen)
    && body == Payloads(jobs) && rows == Rows(jobs) && InBounds(jobs, limits)
  }

  lemma CollectedNext(jobs: seq<Job>, body: string, rows: nat, seen: seq<Seen>, limits: Limits, next: Job, closed: bool)
    requires Collected(jobs, body, rows, seen, limits) && (closed ==> next.abandoned)
    requires !closed ==> rows + next.rows <= limits.batchSize && |body| + |next.payload| <= limits.maxBatchBytes
    ensures closed ==> Collected(jobs, body, rows, seen + [Seen(next, closed)], limits)
    ensures !closed ==> Collected(jobs + [next], body + next.payload, rows + next.rows, seen + [Seen(next, closed)], limits)
  {
    SeenAppend(seen, Seen(next, closed));
    if !closed { JobsAppend(jobs, next); }
  }

  /**
   * Collects jobs behind `first` until a limit, the deadline or the end of the channel. A job that
   * does not fit is carried over; one whose caller has gone is dropped.
   */
  method Collect(limits: Limits, waitMs: nat, first: Job, queue: seq<Job>)
    returns (jobs: seq<Job>, body: string, carried: Option<Job>, queue': seq<Job>, seen: seq<Seen>)
    requires Admitted(first, limits)
    ensures JobsOf(seen) + Waiting(carried, queue') == [first] + queue
    ensures jobs == Live(seen) && OnlyAbandonedDropped(seen)
    ensures body == Payloads(jobs) && InBounds(jobs, limits)
    ensures waitMs == 0 ==> |jobs| == 1
    ensures carried.Some? ==>
      Rows(jobs) + carried.value.rows > limits.batchSize || |Payloads(jobs)| + |carried.value.payload| > limits.maxBatchBytes
    ensures |Waiting(carried, queue')| <= |queue|
  {
    OneSeen(first, false);
    JobsAppend([], first);
    assert [] + [first] == [first];
    var rows: nat := first.rows;
    jobs, body, carried, queue', seen := [first], first.payload, None, queue, [Seen(first, false)];
    while waitMs > 0 && rows < limits.batchSize && |body| < limits.maxBatchBytes
      invariant Keeps(seen, queue', [first] + queue) && |queue'| <= |queue|
      invariant Collected(jobs, body, rows, seen, limits)
      invariant carried == None && (waitMs == 0 ==> |jobs| == 1)
      decreases |queue'|
    {
      var timedOut: bool := *;
      if timedOut || queue' == [] { break; }
      var next := queue'[0];
      assert queue' == [next] + queue'[1..];
      var closed := IsClosed(next);
      if !closed && (rows + next.rows > limits.batchSize || |body| + |next.payload| > limits.maxBatchBytes) {
        carried, queue' := Some(next), queue'[1..];
        break;
      }
      KeepsNext(seen, Seen(next, closed), queue'[1..], [first] + queue);
      CollectedNext(jobs, body, rows, seen, limits, next, closed);
      seen, queue' := seen + [Seen(next, closed)], queue'[1..];
      if !closed {
        jobs, body, rows := jobs + [next], body + next.payload, rows + next.rows;
      }
    }
  }

  /** One turn: drop an abandoned job, or make an INSERT of it and of what can be merged behind it. */
  method Turn(table: string, limits: Limits, waitMs: nat, first: Job, queue: seq<Job>)
    returns (round: Round, replies: seq<Reply>, carried: Option<Job>, queue': seq<Job>)
    requires Admitted(first, limits)
    ensures GoodRound(round, table, limits, waitMs)
    ensures JobsOf(round.seen) + Waiting(carried, queue') == [first] + queue
    ensures |Waiting(carried, queue')| <= |queue|
    ensures replies == RoundReplies(round)
  {
    var closed := IsClosed(first);
    if closed {
      OneSeen(first, true);
      return Round([Seen(first, true)], None), [], None, queue;
    }
    var jobs, body, seen;
    jobs, body, carried, queue', seen := Collect(limits, waitMs, first, queue);
    body := Header(table) + body;
    var ok := FinishInsert(body);
    replies := Acknowledge(jobs, ok);
    round := Round(seen, Some(Insert(jobs, body, ok)));
  }

  /**
   * The turns split the arrivals into consecutive runs, so no job is lost, doubled or overtaken. Each
   * INSERT holds exactly its turn's live jobs, in order and within the limits, and each of those jobs
   * hears that INSERT's own result.
   */
  method RunInsertWriter(table: string, limits: Limits, waitMs: nat, arrivals: seq<Job>)
    returns (rounds: seq<Round>, replies: seq<Reply>)
    requires forall j :: j in arrivals ==> Admitted(j, limits)
    ensures Arrived(rounds) == arrivals
    ensures GoodRounds(rounds, table, limits, waitMs)
    ensures replies == Replies(rounds)
  {
    rounds, replies := [], [];
    var queue, carried := arrivals, Option<Job>.None;
    while carried.Some? || queue != []
      invariant Recorded(rounds, Waiting(carried, queue), arrivals)
      invariant GoodRounds(rounds, table, limits, waitMs)
      invariant replies == Replies(rounds)
      decreases |Waiting(carried, queue)|
    {
      var first := if carried.Some? then carried.value else queue[0];
      queue := if carried.Some? then queue else queue[1..];
      NextInLine(rounds, first, queue, arrivals);
      var round, heard;
      round, heard, carried, queue := Turn(table, limits, waitMs, first, queue);
      GoodAppend(rounds, round, table, limits, waitMs);
      Record(rounds, round, Waiting(carried, queue), arrivals);
      rounds := rounds + [round];
      replies := replies + heard;
    }
  }

  lemma OneSeen(job: Job, dropped: bool)
    ensures JobsOf([Seen(job, dropped)]) == [job]
    ensures Live([Seen(job, dropped)]) == if dropped then [] else [job]
  {
    SeenAppend([], Seen(job, dropped));
    assert [] + [Seen(job, dropped)] == [Seen(job, dropped)];
  }

  lemma GoodAppend(rounds: seq<Round>, round: Round, table: string, limits: Limits, waitMs: nat)
    requires GoodRounds(rounds, table, limits, waitMs) && GoodRound(round, table, limits, waitMs)
    ensures GoodRounds(rounds + [round], table, limits, waitMs)
  {
  }

  /** The turns so far and what is still waiting make up the arrivals. */
  ghost predicate Recorded(rounds: seq<Round>, waiting: seq<Job>, arrivals: seq<Job>) {
    Arrived(rounds) + waiting == arrivals
  }

  lemma NextInLine(rounds: seq<Round>, first: Job, queue: seq<Job>, arrivals: seq<Job>)
    requires Recorded(rounds, [first] + queue, arrivals)
    ensures first in arrivals
  {
    assert arrivals[|Arrived(rounds)|] == ([first] + queue)[0];
  }

  lemma Record(rounds: seq<Round>, round: Round, waiting: seq<Job>, arrivals: seq<Job>)
    requires Recorded(rounds, JobsOf(round.seen) + waiting, arrivals)
    ensures Recorded(rounds + [round], waiting, arrivals)
    ensures Replies(rounds + [round]) == Replies(rounds) + RoundReplies(round)
  {
    RoundsAppend(rounds, round);
    Assoc(Arrived(rounds), JobsOf(round.seen), waiting);
  }

  lemma Assoc(a: seq<Job>, b: seq<Job>, c: seq<Job>)
    ensures (a + b) + c == a + (b + c)
  {
  }

  // ----- what this means for one caller -----

  lemma {:induction false} LiveIffKept(seen: seq<Seen>, j: Job)
    ensures j in Live(seen) <==> Seen(j, false) in seen
    ensures j in JobsOf(seen) <==> (Seen(j, false) in seen || Seen(j, true) in seen)
  {
    if seen != [] {
      LiveIffKept(seen[..|seen| - 1], j);
      assert seen == seen[..|seen| - 1] + [seen[|seen| - 1]];
    }
  }

  lemma {:induction false} ReplyOfMember(jobs: seq<Job>, ok: bool, j: Job)
    ensures Reply(j, ok) in RepliesOf(jobs, ok) <==> j in jobs
    ensures Reply(j, !ok) !in RepliesOf(jobs, ok)
  {
    if jobs != [] {
      ReplyOfMember(jobs[..|jobs| - 1], ok, j);
      assert jobs == jobs[..|jobs| - 1] + [jobs[|jobs| - 1]];
    }
  }

  ghost predicate Carries(round: Round, j: Job) { round.insert.Some? && j in round.insert.value.jobs }

  ghost predicate Hears(replies: seq<Reply>, j: Job, ok: bool) {
    Reply(j, ok) in replies && Reply(j, !ok) !in replies
  }

  /** Whether a turn met `j`, carries it, and answers it. */
  ghost predicate Told(round: Round, j: Job) {
    && (j in JobsOf(round.seen) <==> Carries(round, j))
    && (if Carries(round, j) then Hears(RoundReplies(round), j, round.insert.value.ok)
        else forall ok :: Reply(j, ok) !in RoundReplies(round))
  }

  ghost predicate AllTold(rounds: seq<Round>, j: Job) {
    forall k :: 0 <= k < |rounds| ==> Told(rounds[k], j)
  }

  lemma GoodRoundTells(round: Round, j: Job, table: string, limits: Limits, waitMs: nat)
    requires GoodRound(round, table, limits, waitMs) && !j.abandoned
    ensures Told(round, j)
  {
    LiveIffKept(round.seen, j);
    if round.insert.Some? { ReplyOfMember(round.insert.value.jobs, round.insert.value.ok, j); }
  }

  lemma {:induction false} Untouched(rounds: seq<Round>, j: Job)
    requires AllTold(rounds, j) && j !in Arrived(rounds)
    ensures forall m :: 0 <= m < |rounds| ==> !Carries(rounds[m], j)
    ensures forall ok :: Reply(j, ok) !in Replies(rounds)
  {
    hide Carries, RoundReplies;
    if rounds != [] {
      var n := |rounds| - 1;
      Untouched(rounds[..n], j);
      assert Told(rounds[n], j);
    }
  }

  lemma CountSplit(a: seq<Job>, b: seq<Job>, j: Job)
    requires multiset(a + b)[j] == 1
    ensures (j in a && j !in b && multiset(a)[j] == 1) || (j !in a && j in b)
  {
    assert multiset(a + b) == multiset(a) + multiset(b);
    assert j in a <==> multiset(a)[j] > 0;
    assert j in b <==> multiset(b)[j] > 0;
  }

  ghost predicate OnlyIn(rounds: seq<Round>, j: Job, k: nat) {
    && k < |rounds| && Carries(rounds[k], j)
    && (forall m :: 0 <= m < |rounds| && Carries(rounds[m], j) ==> m == k)
    && Hears(Replies(rounds), j, rounds[k].insert.value.ok)
  }

  /**
   * A caller still waiting, whose job is unlike every other, is in exactly one INSERT, hears its result
   * and never the opposite.
   */
  lemma LiveCaller(rounds: seq<Round>, j: Job, table: string, limits: Limits, waitMs: nat)
    requires GoodRounds(rounds, table, limits, waitMs)
    requires !j.abandoned && multiset(Arrived(rounds))[j] == 1
    ensures exists k :: OnlyIn(rounds, j, k)
  {
    forall m | 0 <= m < |rounds| ensures Told(rounds[m], j) { GoodRoundTells(rounds[m], j, table, limits, waitMs); }
    var k := CarryingRound(rounds, j);
    assert OnlyIn(rounds, j, k);
  }

  lemma OnlyInLast(earlier: seq<Round>, last: Round, j: Job)
    requires AllTold(earlier, j) && Told(last, j) && j !in Arrived(earlier) && Carries(last, j)
    ensures OnlyIn(earlier + [last], j, |earlier|)
  {
    Untouched(earlier, j);
    RoundsAppend(earlier, last);
    HearsEither(Replies(earlier), RoundReplies(last), j, last.insert.value.ok);
  }

  lemma OnlyInEarlier(earlier: seq<Round>, last: Round, j: Job, k: nat)
    requires OnlyIn(earlier, j, k) && Told(last, j) && !Carries(last, j)
    ensures OnlyIn(earlier + [last], j, k)
  {
    RoundsAppend(earlier, last);
    HearsEither(Replies(earlier), RoundReplies(last), j, earlier[k].insert.value.ok);
  }

  lemma {:induction false} CarryingRound(rounds: seq<Round>, j: Job) returns (k: nat)
    requires AllTold(rounds, j) && multiset(Arrived(rounds))[j] == 1
    ensures OnlyIn(rounds, j, k)
  {
    var n := |rounds| - 1;
    var earlier, last := rounds[..n], rounds[n];
    assert rounds == earlier + [last];
    CountSplit(Arrived(earlier), JobsOf(last.seen), j);
    if Carries(last, j) {
      k := n;
      OnlyInLast(earlier, last, j);
    } else {
      k := CarryingRound(earlier, j);
      OnlyInEarlier(earlier, last, j, k);
    }
  }

  lemma HearsEither(a: seq<Reply>, b: seq<Reply>, j: Job, ok: bool)
    requires Reply(j, !ok) !in a && Reply(j, !ok) !in b && (Reply(j, ok) in a || Reply(j, ok) in b)
    ensures Hears(a + b, j, ok)
  {
  }
}
