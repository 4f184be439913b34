/** A node's cleaning speed: progress credited once, and sampled over busy time that never spans two days. */
module SpeedSamples {
  import opened Options

  const DAY_MS: int := 86400000
  const OFFSET_MS: int := 28800000
  const SAMPLE_INTERVAL_MS: int := 1000

  function DayOf(t: int): int { (t + OFFSET_MS) / DAY_MS }

  /** The first moment of the day after `t`'s. */
  function DayEnd(t: int): (end: int)
    ensures t < end && DayOf(end) == DayOf(t) + 1 && DayOf(end - 1) == DayOf(t)
  {
    (DayOf(t) + 1) * DAY_MS - OFFSET_MS
  }

  /** One record for the store, kept under the day of `stamp`. */
  datatype Sample = Sample(from: int, to: int, events: nat, duration: nat, stamp: int)

  /** Progress of a task observed in a frame; `round` tells its baselines apart. */
  datatype Delta = Delta(at: int, id: string, round: nat, events: nat)

  /** The sample being collected, and those already recorded. */
  datatype Meter = Meter(started: Option<int>, events: nat, hasWork: bool, samples: seq<Sample>)

  // ----- the steps -----

  function Written(m: Meter, end: int, stamp: int): Meter {
    if m.started.None? || end < m.started.value || (end == m.started.value && m.events == 0) then m
    else
      var length := end - m.started.value;
      var sample := Sample(m.started.value, end, m.events, if length > 1 then length else 1, stamp);
      Meter(Some(end), 0, m.hasWork, if m.hasWork then m.samples + [sample] else m.samples)
  }

  /** The sample began on an earlier day. */
  predicate NeedsRoll(m: Meter, now: int) { m.started.Some? && DayOf(m.started.value) != DayOf(now) && now > m.started.value }

  /** What was observed on days gone by is recorded first, a day at a time. */
  function Rolled(m: Meter, now: int): Meter
    decreases if m.started.Some? then now - m.started.value else 0
  {
    if !NeedsRoll(m, now) then m
    else
      var end := DayEnd(m.started.value);
      Rolled(Written(m, end, end - 1), now)
  }

  function Begun(m: Meter, now: int): Meter { if m.started.Some? then m else Meter(Some(now), 0, false, m.samples) }

  function Finished(m: Meter, now: int): Meter { Meter(None, 0, false, Written(Rolled(m, now), now, now).samples) }

  // ----- what they keep -----

  function Filed(samples: seq<Sample>, day: int): nat {
    if samples == [] then 0
    else
      var n := |samples| - 1;
      Filed(samples[..n], day) + if DayOf(samples[n].stamp) == day then samples[n].events else 0
  }

  function Arrived(deltas: seq<Delta>, day: int): nat {
    if deltas == [] then 0
    else
      var n := |deltas| - 1;
      Arrived(deltas[..n], day) + if DayOf(deltas[n].at) == day then deltas[n].events else 0
  }

  function Waiting(m: Meter, day: int): nat { if m.started.Some? && DayOf(m.started.value) == day then m.events else 0 }

  /** What arrived on a day is recorded under that day, or still waits to be. */
  ghost predicate DayOk(m: Meter, deltas: seq<Delta>, day: int) { Filed(m.samples, day) + Waiting(m, day) == Arrived(deltas, day) }

  ghost predicate SampleOk(s: Sample) {
    && s.from <= s.to && s.duration == (if s.to - s.from > 1 then s.to - s.from else 1)
    && DayOf(s.stamp) == DayOf(s.from) && s.to <= DayEnd(s.from)
  }

  ghost predicate SamplesApart(samples: seq<Sample>) { forall i, j :: 0 <= i < j < |samples| ==> samples[i].to <= samples[j].from }

  ghost predicate MeterOk(m: Meter, deltas: seq<Delta>, heartbeat: int, clock: int) {
    && heartbeat <= clock
    && (m.started.Some? ==> m.started.value <= clock)
    && (m.events > 0 ==> m.started.Some? && m.started.value <= heartbeat && m.hasWork)
    && (forall i :: 0 <= i < |m.samples| ==> SampleOk(m.samples[i]) && m.samples[i].to <= clock)
    && (m.started.Some? ==> forall i :: 0 <= i < |m.samples| ==> m.samples[i].to <= m.started.value)
    && SamplesApart(m.samples)
    && (forall day: int {:trigger DayOk(m, deltas, day)} :: DayOk(m, deltas, day))
  }

  lemma FiledMore(samples: seq<Sample>, s: Sample, day: int)
    ensures Filed(samples + [s], day) == Filed(samples, day) + if DayOf(s.stamp) == day then s.events else 0
  {
    assert (samples + [s])[..|samples|] == samples;
  }

  lemma ArrivedMore(deltas: seq<Delta>, d: Delta, day: int)
    ensures Arrived(deltas + [d], day) == Arrived(deltas, day) + if DayOf(d.at) == day then d.events else 0
  {
    assert (deltas + [d])[..|deltas|] == deltas;
  }

  lemma WriteKeeps(m: Meter, deltas: seq<Delta>, heartbeat: int, clock: int, end: int, stamp: int)
    requires MeterOk(m, deltas, heartbeat, clock) && end <= clock
    requires m.started.Some? && m.started.value <= end ==> DayOf(stamp) == DayOf(m.started.value) && end <= DayEnd(m.started.value)
    ensures MeterOk(Written(m, end, stamp), deltas, heartbeat, clock)
  {
    var m' := Written(m, end, stamp);
    if m' != m {
      forall day: int ensures DayOk(m', deltas, day) {
        assert DayOk(m, deltas, day);
        if m.hasWork { FiledMore(m.samples, m'.samples[|m.samples|], day); }
      }
    }
  }

  /** Rolling ends on today's side of midnight, or leaves a sample alone that needs no rolling. */
  lemma {:induction false} RollEnds(m: Meter, now: int)
    ensures var m' := Rolled(m, now);
            && m.started.Some? == m'.started.Some? && m'.hasWork == m.hasWork && (m'.events > 0 ==> m' == m)
            && (m.started.Some? && m.started.value <= now ==> m'.started.value <= now && DayOf(m'.started.value) == DayOf(now))
            && (m.started.Some? && m.started.value > now ==> m' == m)
    decreases if m.started.Some? then now - m.started.value else 0
  {
    if NeedsRoll(m, now) {
      var end := DayEnd(m.started.value);
      LaterDay(m.started.value, now);
      RollEnds(Written(m, end, end - 1), now);
    }
  }

  lemma DayWritten(m: Meter, deltas: seq<Delta>, heartbeat: int, clock: int, now: int) returns (w: Meter)
    requires MeterOk(m, deltas, heartbeat, clock) && now <= clock && NeedsRoll(m, now)
    ensures MeterOk(w, deltas, heartbeat, clock) && Rolled(m, now) == Rolled(w, now)
    ensures w.started.Some? && m.started.value < w.started.value <= now
  {
    var end := DayEnd(m.started.value);
    LaterDay(m.started.value, now);
    WriteKeeps(m, deltas, heartbeat, clock, end, end - 1);
    w := Written(m, end, end - 1);
  }

  /** The loop that records the days gone by loses nothing and files nothing elsewhere. */
  lemma {:induction false} RollKeeps(m: Meter, deltas: seq<Delta>, heartbeat: int, clock: int, now: int)
    requires MeterOk(m, deltas, heartbeat, clock) && now <= clock
    ensures MeterOk(Rolled(m, now), deltas, heartbeat, clock)
    decreases if m.started.Some? then now - m.started.value else 0
  {
    if NeedsRoll(m, now) {
      var w := DayWritten(m, deltas, heartbeat, clock, now);
      RollKeeps(w, deltas, heartbeat, clock, now);
    } else {
      assert Rolled(m, now) == m;
    }
  }

  lemma LaterDay(t: int, now: int)
    requires t < now && DayOf(t) != DayOf(now)
    ensures DayEnd(t) <= now
  {
  }

  lemma SameDayEnd(t: int, now: int)
    requires DayOf(t) == DayOf(now)
    ensures now <= DayEnd(t)
  {
  }

  /** Ending a sample loses nothing, provided it ends no sooner than the last progress came. */
  lemma FinishKeeps(m: Meter, deltas: seq<Delta>, heartbeat: int, clock: int, now: int)
    requires MeterOk(m, deltas, heartbeat, clock) && heartbeat <= now <= clock
    ensures MeterOk(Finished(m, now), deltas, heartbeat, clock)
  {
    RollKeeps(m, deltas, heartbeat, clock, now);
    RollEnds(m, now);
    var r := Rolled(m, now);
    if r.started.Some? && r.started.value <= now { SameDayEnd(r.started.value, now); }
    WriteKeeps(r, deltas, heartbeat, clock, now, now);
    var w, f := Written(r, now, now), Finished(m, now);
    forall day: int ensures DayOk(f, deltas, day) { assert DayOk(w, deltas, day); }
  }

  /** What is recorded from here on ends no later than `now`. */
  ghost predicate EndsBy(samples: seq<Sample>, samples': seq<Sample>, now: int) {
    samples <= samples' && forall i :: |samples| <= i < |samples'| ==> samples'[i].to <= now
  }

  lemma {:induction false} RollEndsBy(m: Meter, now: int)
    ensures EndsBy(m.samples, Rolled(m, now).samples, now)
    decreases if m.started.Some? then now - m.started.value else 0
  {
    if NeedsRoll(m, now) {
      var end := DayEnd(m.started.value);
      LaterDay(m.started.value, now);
      RollEndsBy(Written(m, end, end - 1), now);
    }
  }

  lemma NothingRecorded(samples: seq<Sample>, now: int)
    ensures EndsBy(samples, samples, now)
  {
  }

  lemma SoonerEndsBy(samples: seq<Sample>, samples': seq<Sample>, now: int, later: int)
    requires EndsBy(samples, samples', now) && now <= later
    ensures EndsBy(samples, samples', later)
  {
  }

  lemma FinishEndsBy(m: Meter, now: int)
    ensures EndsBy(m.samples, Finished(m, now).samples, now)
  {
    RollEndsBy(m, now);
  }

  lemma BeginKeeps(m: Meter, deltas: seq<Delta>, heartbeat: int, clock: int, now: int)
    requires MeterOk(m, deltas, heartbeat, clock) && now <= clock
    requires forall i :: 0 <= i < |m.samples| ==> m.samples[i].to <= now
    ensures MeterOk(Begun(m, now), deltas, heartbeat, clock)
  {
    forall day: int ensures DayOk(Begun(m, now), deltas, day) { assert DayOk(m, deltas, day); }
  }

  /** Time passing, or a sign of life, changes nothing collected. */
  lemma LaterKeeps(m: Meter, deltas: seq<Delta>, heartbeat: int, clock: int, heartbeat': int, clock': int)
    requires MeterOk(m, deltas, heartbeat, clock) && clock <= clock' && heartbeat <= heartbeat' <= clock'
    ensures MeterOk(m, deltas, heartbeat', clock')
  {
  }

  /** Progress of a frame received now is collected on today's side of midnight. */
  lemma CreditKeeps(m: Meter, deltas: seq<Delta>, now: int, d: Delta)
    requires MeterOk(m, deltas, now, now) && m.started.Some? && d.at == now
    ensures var r := Rolled(m, now);
            MeterOk(r.(events := r.events + d.events, hasWork := true), deltas + [d], now, now)
  {
    RollKeeps(m, deltas, now, now, now);
    RollEnds(m, now);
    var r := Rolled(m, now);
    var m' := r.(events := r.events + d.events, hasWork := true);
    forall day: int ensures DayOk(m', deltas + [d], day) {
      assert DayOk(r, deltas, day);
      CreditedDay(r, deltas, d, DayOf(now), day);
    }
  }

  lemma CreditedDay(r: Meter, deltas: seq<Delta>, d: Delta, today: int, day: int)
    requires DayOk(r, deltas, day) && r.started.Some? && DayOf(r.started.value) == today == DayOf(d.at)
    ensures DayOk(r.(events := r.events + d.events, hasWork := true), deltas + [d], day)
  {
    ArrivedMore(deltas, d, day);
  }

  // ----- the credit of one task -----

  function Peak(reports: seq<nat>): nat
    requires reports != []
  {
    if |reports| == 1 then reports[0]
    else
      var n := |reports| - 1;
      var before := Peak(reports[..n]);
      if reports[n] > before then reports[n] else before
  }

  function Earned(deltas: seq<Delta>, id: string, round: nat): nat {
    if deltas == [] then 0
    else
      var n := |deltas| - 1;
      Earned(deltas[..n], id, round) + if deltas[n].id == id && deltas[n].round == round then deltas[n].events else 0
  }

  lemma EarnedMore(deltas: seq<Delta>, d: Delta, id: string, round: nat)
    ensures Earned(deltas + [d], id, round) == Earned(deltas, id, round) + if d.id == id && d.round == round then d.events else 0
  {
    assert (deltas + [d])[..|deltas|] == deltas;
  }

  lemma {:induction false} PeakAboveFirst(reports: seq<nat>)
    requires reports != []
    ensures Peak(reports) >= reports[0]
  {
    if |reports| > 1 { PeakAboveFirst(reports[..|reports| - 1]); }
  }

  /** `reports`: what the frames of a task said since its baseline, the baseline first. */
  datatype Credit = Credit(value: nat, round: nat, reports: seq<nat>)

  ghost function ReportsOf(reports: map<(string, nat), seq<nat>>, id: string, round: nat): seq<nat> {
    if (id, round) in reports then reports[(id, round)] else []
  }

  /** The deltas of a task since a baseline add up to how far its reports rose above that baseline. */
  ghost predicate RoundOk(deltas: seq<Delta>, reports: map<(string, nat), seq<nat>>, id: string, round: nat) {
    var seen := ReportsOf(reports, id, round);
    Earned(deltas, id, round) == if seen == [] then 0 else Peak(seen) - seen[0]
  }

  ghost predicate CreditOk(credited: map<string, Option<nat>>, rounds: map<string, nat>, reports: map<(string, nat), seq<nat>>, id: string) {
    id in credited && credited[id].Some? ==>
      id in rounds && ReportsOf(reports, id, rounds[id]) != [] && credited[id].value == Peak(ReportsOf(reports, id, rounds[id]))
  }

  /** `next`: the round of the next baseline. */
  ghost predicate CreditsOk(credited: map<string, Option<nat>>, rounds: map<string, nat>, next: nat,
                            reports: map<(string, nat), seq<nat>>, deltas: seq<Delta>)
  {
    && (forall id {:trigger CreditOk(credited, rounds, reports, id)} :: CreditOk(credited, rounds, reports, id))
    && (forall id, round: nat {:trigger RoundOk(deltas, reports, id, round)} :: RoundOk(deltas, reports, id, round))
    && (forall id, round: nat :: (id, round) in reports ==> round < next)
  }

  /** A baseline starts a round of its own. */
  lemma BaselineKeeps(credited: map<string, Option<nat>>, rounds: map<string, nat>, next: nat, reports: map<(string, nat), seq<nat>>,
                      deltas: seq<Delta>, id: string, value: nat)
    requires CreditsOk(credited, rounds, next, reports, deltas)
    ensures CreditsOk(credited[id := Some(value)], rounds[id := next], next + 1, reports[(id, next) := [value]], deltas)
  {
    var credited', rounds', reports' := credited[id := Some(value)], rounds[id := next], reports[(id, next) := [value]];
    forall k ensures CreditOk(credited', rounds', reports', k) { assert CreditOk(credited, rounds, reports, k); }
    forall k, round: nat ensures RoundOk(deltas, reports', k, round) { assert RoundOk(deltas, reports, k, round); }
  }

  /** Later reports earn what they rise above all before them. */
  lemma RiseKeeps(credited: map<string, Option<nat>>, rounds: map<string, nat>, next: nat, reports: map<(string, nat), seq<nat>>,
                  deltas: seq<Delta>, id: string, value: nat, d: Delta)
    requires CreditsOk(credited, rounds, next, reports, deltas) && id in credited && credited[id].Some? && id in rounds
    requires d == Delta(d.at, id, rounds[id], if value > credited[id].value then value - credited[id].value else 0)
    ensures var key := (id, rounds[id]);
            CreditsOk(credited[id := Some(if value > credited[id].value then value else credited[id].value)], rounds, next,
                      reports[key := ReportsOf(reports, id, rounds[id]) + [value]], deltas + [d])
  {
    var seen := ReportsOf(reports, id, rounds[id]);
    var credited' := credited[id := Some(if value > credited[id].value then value else credited[id].value)];
    var reports' := reports[(id, rounds[id]) := seen + [value]];
    var deltas' := deltas + [d];
    assert CreditOk(credited, rounds, reports, id);
    assert (seen + [value])[..|seen|] == seen;
    PeakAboveFirst(seen);
    forall k ensures CreditOk(credited', rounds, reports', k) { assert CreditOk(credited, rounds, reports, k); }
    forall k, round: nat ensures RoundOk(deltas', reports', k, round) {
      assert RoundOk(deltas, reports, k, round);
      EarnedMore(deltas, d, k, round);
    }
  }

  lemma HasRound(credited: map<string, Option<nat>>, rounds: map<string, nat>, next: nat, reports: map<(string, nat), seq<nat>>,
                 deltas: seq<Delta>, id: string)
    requires CreditsOk(credited, rounds, next, reports, deltas)
    ensures id in credited && credited[id].Some? ==> id in rounds
  {
    assert CreditOk(credited, rounds, reports, id);
  }

  /** Tasks that leave, and baselines that are forgotten, change nothing earned. */
  lemma ForgetKeeps(credited: map<string, Option<nat>>, rounds: map<string, nat>, next: nat, reports: map<(string, nat), seq<nat>>,
                    deltas: seq<Delta>, credited': map<string, Option<nat>>)
    requires CreditsOk(credited, rounds, next, reports, deltas)
    requires forall id :: id in credited' && credited'[id].Some? ==> id in credited && credited[id] == credited'[id]
    ensures CreditsOk(credited', rounds, next, reports, deltas)
  {
    forall k ensures CreditOk(credited', rounds, reports, k) { assert CreditOk(credited, rounds, reports, k); }
  }

  lemma WorkSeenKeeps(m: Meter, deltas: seq<Delta>, heartbeat: int, clock: int)
    requires MeterOk(m, deltas, heartbeat, clock)
    ensures MeterOk(m.(hasWork := true), deltas, heartbeat, clock)
  {
    forall day: int ensures DayOk(m.(hasWork := true), deltas, day) { assert DayOk(m, deltas, day); }
  }

  /** How much of the target a frame reports as done. */
  function Processed(target: int, progress: int, completed: bool): (done: nat)
    requires target > 0
    ensures done <= target && (completed ==> done == target)
    ensures !completed && 0 <= progress <= target ==> done == progress
    ensures !completed && progress < 0 ==> done == 0
    ensures !completed && progress > target ==> done == target
  {
    if completed then target else if progress <= 0 then 0 else if progress <= target then progress else target
  }

  function Higher(a: nat, b: nat): nat { if a > b then a else b }

  /** One delta more: at `now`, and in the task's round, what `processed` adds to what was credited. */
  ghost function Counted(deltas: seq<Delta>, now: int, id: string, rounds: map<string, nat>, credited: nat, processed: nat): seq<Delta>
    requires id in rounds
  {
    deltas + [Delta(now, id, rounds[id], Higher(credited, processed) - credited)]
  }

  /** What a task is credited with after a frame that did not fail; without a baseline the frame sets one. */
  function CreditAfter(before: Option<nat>, target: int, progress: int, completed: bool): Option<nat> {
    if target <= 0 then before
    else if before.None? then Some(Processed(target, progress, completed))
    else Some(Higher(before.value, Processed(target, progress, completed)))
  }

  class NodeSpeed {
    const timeout: nat
    var connected: bool
    var lastHeartbeat: int
    var clock: int
    var credited: map<string, Option<nat>>
    var started: Option<int>
    var events: nat
    var hasWork: bool
    ghost var samples: seq<Sample>
    ghost var deltas: seq<Delta>
    ghost var rounds: map<string, nat>
    ghost var nextRound: nat
    ghost var reports: map<(string, nat), seq<nat>>

    ghost function Now(): Meter
      reads this
    {
      Meter(started, events, hasWork, samples)
    }

    /** Holds inside a turn as well. */
    ghost predicate Sound()
      reads this
    {
      MeterOk(Now(), deltas, lastHeartbeat, clock) && CreditsOk(credited, rounds, nextRound, reports, deltas)
    }

    /** Only busy time is sampled. */
    ghost predicate Valid()
      reads this
    {
      Sound() && (credited == map[] ==> started.None?)
    }

    constructor (timeout: nat, now: int)
      ensures Valid() && samples == [] && deltas == [] && credited == map[]
    {
      this.timeout := timeout;
      connected, lastHeartbeat, clock, credited, started, events, hasWork := true, now, now, map[], None, 0, false;
      samples, deltas, rounds, nextRound, reports := [], [], map[], 0, map[];
    }

    /** The clock never goes backwards. */
    method ReadClock() returns (now: int)
      requires MeterOk(Now(), deltas, lastHeartbeat, clock)
      modifies this`clock
      ensures now == clock >= old(clock) && MeterOk(Now(), deltas, lastHeartbeat, clock)
    {
      var passed: int := *;
      if passed > 0 {
        LaterKeeps(Now(), deltas, lastHeartbeat, clock, lastHeartbeat, clock + passed);
        clock := clock + passed;
      }
      now := clock;
    }

    predicate Alive(now: int)
      reads this
    {
      connected && now - lastHeartbeat <= timeout
    }

    /** A silent node is taken to have worked until its silence became too long. */
    function LastSeen(now: int): int
      reads this
    {
      if now <= lastHeartbeat + timeout then now else lastHeartbeat + timeout
    }

    method Write(end: int, stamp: int)
      modifies this`started, this`events, this`samples
      ensures Now() == Written(old(Now()), end, stamp)
    {
      if started.None? || end < started.value || (end == started.value && events == 0) { return; }
      var length := end - started.value;
      ghost var sample := Sample(started.value, end, events, if length > 1 then length else 1, stamp);
      started, events := Some(end), 0;
      if hasWork { samples := samples + [sample]; }
    }

    method Roll(now: int)
      modifies this`started, this`events, this`samples
      ensures Now() == Rolled(old(Now()), now)
    {
      while started.Some? && DayOf(started.value) != DayOf(now) && now > started.value
        invariant Rolled(Now(), now) == Rolled(old(Now()), now)
        decreases if started.Some? then now - started.value else 0
      {
        var end := DayEnd(started.value);
        Write(end, end - 1);
      }
    }

    method Finish(now: int)
      modifies this`started, this`events, this`hasWork, this`samples
      ensures Now() == Finished(old(Now()), now)
    {
      Roll(now);
      Write(now, now);
      started, events, hasWork := None, 0, false;
    }

    /** Ends the sample at a moment no sooner than the node was last heard of. */
    method End(now: int)
      requires MeterOk(Now(), deltas, lastHeartbeat, clock) && lastHeartbeat <= now <= clock
      modifies this`started, this`events, this`hasWork, this`samples
      ensures MeterOk(Now(), deltas, lastHeartbeat, clock) && Now() == Finished(old(Now()), now)
      ensures EndsBy(old(samples), samples, now)
    {
      FinishEndsBy(Now(), now);
      FinishKeeps(Now(), deltas, lastHeartbeat, clock, now);
      Finish(now);
    }

    method Begin(now: int)
      modifies this`started, this`events, this`hasWork
      ensures Now() == Begun(old(Now()), now)
    {
      if started.Some? { return; }
      started, events, hasWork := Some(now), 0, false;
    }

    method Baseline(id: string, value: nat)
      requires CreditsOk(credited, rounds, nextRound, reports, deltas)
      modifies this`credited, this`rounds, this`nextRound, this`reports
      ensures CreditsOk(credited, rounds, nextRound, reports, deltas) && credited == old(credited)[id := Some(value)]
    {
      BaselineKeeps(credited, rounds, nextRound, reports, deltas, id, value);
      credited := credited[id := Some(value)];
      rounds, reports, nextRound := rounds[id := nextRound], reports[(id, nextRound) := [value]], nextRound + 1;
    }

    /** Tasks leave; the others keep their baselines unless those are forgotten. */
    method Leave(gone: set<string>, forget: bool)
      requires CreditsOk(credited, rounds, nextRound, reports, deltas)
      modifies this`credited
      ensures CreditsOk(credited, rounds, nextRound, reports, deltas) && credited.Keys == old(credited).Keys - gone
      ensures forall id :: id in credited ==> credited[id] == if forget then None else old(credited)[id]
    {
      ghost var was := credited;
      credited := map id | id in credited && id !in gone :: if forget then None else credited[id];
      ForgetKeeps(was, rounds, nextRound, reports, deltas, credited);
    }

    /** A task sent to the node is credited from zero; a send that failed is undone. */
    method Dispatch(id: string, sent: bool)
      requires Valid() && connected && id !in credited
      modifies this
      ensures Valid() && deltas == old(deltas) && credited == if sent then old(credited)[id := Some(0)] else old(credited)
    {
      hide MeterOk, CreditsOk;
      var now := ReadClock();
      Start(now);
      Baseline(id, 0);
      assert id in credited;
      if !sent {
        Leave({id}, false);
        EndIfIdle(now);
      }
    }

    method Start(now: int)
      requires MeterOk(Now(), deltas, lastHeartbeat, clock) && now == clock
      modifies this`started, this`events, this`hasWork
      ensures MeterOk(Now(), deltas, lastHeartbeat, clock) && started.Some?
    {
      BeginKeeps(Now(), deltas, lastHeartbeat, clock, now);
      Begin(now);
    }

    method EndIfIdle(now: int)
      requires Sound() && lastHeartbeat <= now <= clock
      modifies this`started, this`events, this`hasWork, this`samples
      ensures Valid()
    {
      if credited == map[] { End(now); }
    }

    /**
     * A register frame. After an absence - another stream, or too long a silence on its own - every baseline
     * is forgotten: what was processed meanwhile must not count as processed now.
     */
    method Register(sameStream: bool, restored: set<string>, missing: set<string>) returns (ghost now: int)
      requires Valid() && restored !! credited.Keys
      modifies this
      ensures Valid() && deltas == old(deltas) && connected && old(clock) <= now <= clock == lastHeartbeat
      ensures sameStream && old(connected) && now - old(lastHeartbeat) <= timeout ==> credited == old(credited)
      ensures !(sameStream && old(connected) && now - old(lastHeartbeat) <= timeout) ==> credited.Keys == (old(credited).Keys + restored) - missing
      ensures !(sameStream && old(connected) && now - old(lastHeartbeat) <= timeout) ==> forall id :: id in credited ==> credited[id].None?
    {
      hide MeterOk, CreditsOk;
      var read := ReadClock();
      now := read;
      var back := !sameStream || !Alive(read);
      connected := true;
      if back { Return(restored, read); }
      if credited != map[] { Start(read); }
      Registered(back, missing);
    }

    method Registered(back: bool, missing: set<string>)
      requires Sound()
      modifies this`clock, this`lastHeartbeat, this`credited, this`started, this`events, this`hasWork, this`samples
      ensures Valid() && old(clock) <= clock == lastHeartbeat
      ensures if !back then credited == old(credited)
              else credited.Keys == old(credited).Keys - missing && forall id :: id in credited ==> credited[id] == old(credited)[id]
    {
      hide MeterOk, CreditsOk;
      var now := Beat();
      if back { Leave(missing, false); }
      EndIfIdle(now);
    }

    method Beat() returns (now: int)
      requires MeterOk(Now(), deltas, lastHeartbeat, clock)
      modifies this`clock, this`lastHeartbeat
      ensures MeterOk(Now(), deltas, lastHeartbeat, clock) && old(clock) <= now == clock == lastHeartbeat
    {
      now := ReadClock();
      LaterKeeps(Now(), deltas, lastHeartbeat, clock, now, now);
      lastHeartbeat := now;
    }

    method Return(restored: set<string>, now: int)
      requires Sound() && now == clock && restored !! credited.Keys
      modifies this`started, this`events, this`hasWork, this`samples, this`credited
      ensures Sound() && credited.Keys == old(credited).Keys + restored && forall id :: id in credited ==> credited[id].None?
      ensures EndsBy(old(samples), samples, lastHeartbeat + timeout)
    {
      End(LastSeen(now));
      Leave({}, true);
      Adopt(restored);
    }

    method Adopt(restored: set<string>)
      requires CreditsOk(credited, rounds, nextRound, reports, deltas) && restored !! credited.Keys
      modifies this`credited
      ensures CreditsOk(credited, rounds, nextRound, reports, deltas) && credited.Keys == old(credited).Keys + restored
      ensures forall id :: id in credited ==> credited[id] == if id in old(credited) then old(credited)[id] else None
    {
      ghost var was := credited;
      credited := map id | id in credited.Keys + restored :: if id in credited then credited[id] else None;
      ForgetKeeps(was, rounds, nextRound, reports, deltas, credited);
    }

    /** The node was not silent for too long, and its sample is running. */
    ghost predicate Running(now: int)
      reads this
    {
      connected && now - lastHeartbeat <= timeout && started.Some?
    }

    /**
     * A progress frame of one task. It counts what the report rises above all earlier ones, once, at the
     * time it came; the first frame after an absence only sets a baseline.
     */
    method Frame(id: string, target: int, progress: int, completed: bool, failed: bool) returns (ghost now: int)
      requires Valid() && id in credited
      modifies this
      ensures Valid() && old(clock) <= now == clock == lastHeartbeat
      ensures old(credited)[id].Some? ==> id in old(rounds)
      ensures deltas == if !failed && target > 0 && old(Running(now)) && old(credited)[id].Some?
                        then Counted(old(deltas), now, id, old(rounds), old(credited)[id].value, Processed(target, progress, completed))
                        else old(deltas)
      ensures credited.Keys == old(credited).Keys - if completed || failed then {id} else {}
      ensures forall k :: k in credited && k != id ==> credited[k] == if old(Running(now)) then old(credited)[k] else None
      ensures id in credited ==>
        credited[id] == CreditAfter(if old(Running(now)) then old(credited)[id] else None, target, progress, completed)
    {
      hide MeterOk, CreditsOk, Counted, CreditAfter;
      HasRound(credited, rounds, nextRound, reports, deltas, id);
      var read := ReadClock();
      now := read;
      Hear(read);
      if !failed { Credit(id, target, progress, completed, read); }
      if completed || failed {
        Leave({id}, false);
        EndIfIdle(read);
      }
    }

    /** A sign of life. After a silence, or without a running sample, a new sample begins and baselines are forgotten. */
    method Hear(now: int)
      requires Sound() && now == clock
      modifies this`started, this`events, this`hasWork, this`samples, this`credited, this`lastHeartbeat
      ensures Sound() && started.Some? && lastHeartbeat == now && credited.Keys == old(credited).Keys
      ensures forall k :: k in credited ==> credited[k] == if old(Running(now)) then old(credited)[k] else None
    {
      hide CreditsOk;
      if !Alive(now) || started.None? { Revive(now); }
      LaterKeeps(Now(), deltas, lastHeartbeat, clock, now, now);
      lastHeartbeat := now;
    }

    method Revive(now: int)
      requires Sound() && now == clock
      modifies this`started, this`events, this`hasWork, this`samples, this`credited
      ensures Sound() && started.Some? && credited.Keys == old(credited).Keys
      ensures forall id :: id in credited ==> credited[id].None?
      ensures EndsBy(old(samples), samples, lastHeartbeat + timeout)
    {
      End(LastSeen(now));
      Start(now);
      Leave({}, true);
    }

    method Credit(id: string, target: int, progress: int, completed: bool, now: int)
      requires Sound() && id in credited && started.Some? && now == clock == lastHeartbeat
      modifies this`started, this`events, this`hasWork, this`samples, this`credited, this`rounds, this`nextRound, this`reports, this`deltas
      ensures Sound() && started.Some? && credited.Keys == old(credited).Keys
      ensures old(credited)[id].Some? ==> id in old(rounds)
      ensures deltas == if target > 0 && old(credited)[id].Some?
                        then Counted(old(deltas), now, id, old(rounds), old(credited)[id].value, Processed(target, progress, completed))
                        else old(deltas)
      ensures credited[id] == CreditAfter(old(credited)[id], target, progress, completed)
      ensures forall k :: k in credited && k != id ==> credited[k] == old(credited)[k]
    {
      hide CreditsOk;
      HasRound(credited, rounds, nextRound, reports, deltas, id);
      ghost var m := Now();
      Roll(now);
      RollKeeps(m, deltas, lastHeartbeat, clock, now);
      RollEnds(m, now);
      if target <= 0 { return; }
      WorkSeenKeeps(Now(), deltas, lastHeartbeat, clock);
      hasWork := true;
      var processed := Processed(target, progress, completed);
      if credited[id].None? {
        Baseline(id, processed);
        return;
      }
      Rise(id, processed, now, m);
    }

    method Rise(id: string, processed: nat, now: int, ghost m: Meter)
      requires Sound() && id in credited && credited[id].Some? && now == clock == lastHeartbeat
      requires MeterOk(m, deltas, now, now) && m.started.Some? && Now() == Rolled(m, now).(hasWork := true)
      modifies this`events, this`credited, this`reports, this`deltas
      ensures Sound() && credited == old(credited)[id := Some(Higher(old(credited)[id].value, processed))]
      ensures id in old(rounds) && deltas == Counted(old(deltas), now, id, old(rounds), old(credited)[id].value, processed)
    {
      var before := credited[id].value;
      var delta := if processed > before then processed - before else 0;
      assert CreditOk(credited, rounds, reports, id);
      ghost var d := Delta(now, id, rounds[id], delta);
      RiseKeeps(credited, rounds, nextRound, reports, deltas, id, processed, d);
      CreditKeeps(m, deltas, now, d);
      credited := credited[id := Some(if processed > before then processed else before)];
      events := events + delta;
      reports := reports[(id, rounds[id]) := ReportsOf(reports, id, rounds[id]) + [processed]];
      deltas := deltas + [d];
      assert Now() == Rolled(m, now).(events := Rolled(m, now).events + d.events, hasWork := true);
    }

    /** The sampler's turn: a silent node's sample is ended, a busy one's is recorded once a second. */
    method Tick() returns (ghost now: int)
      requires Valid()
      modifies this
      ensures Valid() && deltas == old(deltas) && credited == old(credited) && old(clock) <= now
      ensures connected ==> EndsBy(old(samples), samples, lastHeartbeat + timeout)
      ensures connected && now - lastHeartbeat > timeout ==> started.None?
    {
      hide MeterOk, CreditsOk, EndsBy;
      NothingRecorded(samples, lastHeartbeat + timeout);
      var read := ReadClock();
      now := read;
      if !Alive(read) {
        End(LastSeen(read));
        return;
      }
      if credited == map[] || started.None? { return; }
      ghost var before := samples;
      SampleBusy(read);
      SoonerEndsBy(before, samples, read, lastHeartbeat + timeout);
    }

    /** What a busy node did is recorded, when there is a second of it. */
    method SampleBusy(now: int)
      requires MeterOk(Now(), deltas, lastHeartbeat, clock) && started.Some? && now == clock
      modifies this`started, this`events, this`samples
      ensures MeterOk(Now(), deltas, lastHeartbeat, clock) && EndsBy(old(samples), samples, now) && started.Some?
    {
      ghost var m := Now();
      Roll(now);
      RollKeeps(m, deltas, lastHeartbeat, clock, now);
      RollEnds(m, now);
      RollEndsBy(m, now);
      if now - started.value >= SAMPLE_INTERVAL_MS && hasWork {
        SameDayEnd(started.value, now);
        WriteKeeps(Now(), deltas, lastHeartbeat, clock, now, now);
        Write(now, now);
      }
    }

    method Detach()
      requires Valid()
      modifies this
      ensures Valid() && !connected && deltas == old(deltas) && credited == old(credited) && started.None?
      ensures EndsBy(old(samples), samples, lastHeartbeat + timeout)
    {
      var now := ReadClock();
      End(LastSeen(now));
      connected := false;
    }

    /** A node found dead loses its tasks. */
    method Reap()
      requires Valid()
      modifies this
      ensures Valid() && deltas == old(deltas) && credited == map[] && started.None?
      ensures EndsBy(old(samples), samples, lastHeartbeat + timeout)
    {
      var now := ReadClock();
      End(LastSeen(now));
      Leave(credited.Keys, false);
    }

    /** At any moment: by day nothing is lost or filed elsewhere, and by task only what rose above a baseline counted. */
    lemma Conserved(day: int, id: string, round: nat)
      requires Valid()
      ensures Filed(samples, day) + Waiting(Now(), day) == Arrived(deltas, day)
      ensures (id, round) in reports && reports[(id, round)] != [] ==>
        Earned(deltas, id, round) == Peak(reports[(id, round)]) - reports[(id, round)][0]
      ensures forall i, j :: 0 <= i < j < |samples| ==> samples[i].from <= samples[i].to <= samples[j].from
      ensures forall i :: 0 <= i < |samples| ==> DayOf(samples[i].stamp) == DayOf(samples[i].from) && samples[i].to <= DayEnd(samples[i].from)
    {
      assert DayOk(Now(), deltas, day) && RoundOk(deltas, reports, id, round);
      assert forall i :: 0 <= i < |samples| ==> SampleOk(samples[i]);
    }
  }
}
