/** Telemetry of a Rust node: counters of two days, flushed by one worker, put back when a flush fails. */
module MetricsBuffer {
  import opened Options

  const MINUTES_PER_DAY: nat := 1440
  const DAY_MS: int := 86400000
  const OFFSET_MS: int := 28800000

  type Minutes = m: seq<nat> | |m| == MINUTES_PER_DAY witness Zeros(MINUTES_PER_DAY)

  function Zeros(n: nat): (z: seq<nat>)
    ensures |z| == n && forall i :: 0 <= i < n ==> z[i] == 0
  {
    if n == 0 then [] else Zeros(n - 1) + [0]
  }

  datatype Tally = Tally(started: Option<int>, count: nat, successful: nat, failed: nat, minutes: Minutes)

  const NO_MINUTES: Minutes := Zeros(MINUTES_PER_DAY)
  const ZERO := Tally(None, 0, 0, 0, NO_MINUTES)

  /** What is sent to the store: the minutes that counted anything. */
  datatype Aggregated = Aggregated(started: Option<int>, count: nat, successful: nat, failed: nat, minutes: seq<(nat, nat)>)

  function Earliest(a: Option<int>, b: Option<int>): Option<int> {
    if a.None? then b else if b.None? then a else if a.value <= b.value then a else b
  }

  function PlusUpTo(a: seq<nat>, b: seq<nat>, k: nat): (r: seq<nat>)
    requires k <= |a| && k <= |b|
    ensures |r| == k && forall i :: 0 <= i < k ==> r[i] == a[i] + b[i]
  {
    if k == 0 then [] else PlusUpTo(a, b, k - 1) + [a[k - 1] + b[k - 1]]
  }

  function Plus(a: Minutes, b: Minutes): Minutes { PlusUpTo(a, b, MINUTES_PER_DAY) }

  /** Two tallies of one day taken together. */
  function Merge(a: Tally, b: Tally): Tally {
    Tally(Earliest(a.started, b.started), a.count + b.count, a.successful + b.successful, a.failed + b.failed, Plus(a.minutes, b.minutes))
  }

  lemma MergeSwaps(a: Tally, b: Tally)
    ensures Merge(a, b) == Merge(b, a)
  {
    assert Plus(a.minutes, b.minutes) == Plus(b.minutes, a.minutes);
  }

  lemma MergeRegroups(a: Tally, b: Tally, c: Tally)
    ensures Merge(Merge(a, b), c) == Merge(a, Merge(b, c))
  {
    assert Plus(Plus(a.minutes, b.minutes), c.minutes) == Plus(a.minutes, Plus(b.minutes, c.minutes));
  }

  lemma MergeNothing(a: Tally)
    ensures Merge(a, ZERO) == a == Merge(ZERO, a)
  {
    assert Plus(a.minutes, NO_MINUTES) == a.minutes == Plus(NO_MINUTES, a.minutes);
  }

  // ----- a day sent and put back -----

  function Sparse(minutes: seq<nat>, k: nat): seq<(nat, nat)>
    requires k <= |minutes|
  {
    if k == 0 then [] else Sparse(minutes, k - 1) + if minutes[k - 1] > 0 then [(k - 1, minutes[k - 1])] else []
  }

  function Into(day: Tally): Aggregated {
    Aggregated(day.started, day.count, day.successful, day.failed, Sparse(day.minutes, MINUTES_PER_DAY))
  }

  ghost predicate InDay(listed: seq<(nat, nat)>) { forall i :: 0 <= i < |listed| ==> listed[i].0 < MINUTES_PER_DAY }

  function AddListed(minutes: Minutes, listed: seq<(nat, nat)>): Minutes
    requires InDay(listed)
  {
    if listed == [] then minutes
    else
      var n := |listed| - 1;
      var rest: Minutes := AddListed(minutes, listed[..n]);
      rest[listed[n].0 := rest[listed[n].0] + listed[n].1]
  }

  lemma {:induction false} SparseAdds(minutes: Minutes, other: Minutes, k: nat)
    requires k <= MINUTES_PER_DAY
    ensures InDay(Sparse(other, k))
    ensures forall i :: 0 <= i < MINUTES_PER_DAY ==>
      AddListed(minutes, Sparse(other, k))[i] == minutes[i] + if i < k then other[i] else 0
  {
    if k > 0 {
      SparseAdds(minutes, other, k - 1);
      var before := Sparse(other, k - 1);
      assert (before + [(k - 1, other[k - 1])])[..|before|] == before && before + [] == before;
    }
  }

  /** A tally that went through the sparse form merges back as itself. */
  lemma MergesBack(a: Tally, b: Tally)
    ensures InDay(Into(b).minutes) && AddListed(a.minutes, Into(b).minutes) == Plus(a.minutes, b.minutes)
  {
    SparseAdds(a.minutes, b.minutes, MINUTES_PER_DAY);
  }

  // ----- one count -----

  function DayOf(now: int): int { (now + OFFSET_MS) / DAY_MS }

  function MinuteOf(now: int): (minute: nat)
    ensures minute < MINUTES_PER_DAY
  {
    (now + OFFSET_MS) % DAY_MS / 60000
  }

  /** A moment lies in its minute of its day, days beginning at midnight eight hours east of Greenwich. */
  lemma DayAndMinute(now: int)
    ensures var start := DayOf(now) * 86400000 - 28800000 + MinuteOf(now) * 60000; start <= now < start + 60000
  {
  }

  ghost function Work(now: int, count: nat): Tally { Tally(Some(now), count, 0, 0, NO_MINUTES[MinuteOf(now) := count]) }

  lemma WorkMerges(day: Tally, now: int, count: nat, day': Tally)
    requires day'.started == Some(if day.started.None? || now <= day.started.value then now else day.started.value)
    requires day' == day.(started := day'.started, count := day.count + count, minutes := day'.minutes)
    requires day'.minutes == day.minutes[MinuteOf(now) := day.minutes[MinuteOf(now)] + count]
    ensures day' == Merge(day, Work(now, count))
  {
    assert Plus(day.minutes, Work(now, count).minutes) == day'.minutes;
  }

  ghost function Ending(success: bool): Tally { Tally(None, 0, if success then 1 else 0, if success then 0 else 1, NO_MINUTES) }

  ghost predicate Summed(t: Tally) { t.count == Sum(t.minutes, MINUTES_PER_DAY) }

  function Sum(minutes: seq<nat>, k: nat): nat
    requires k <= |minutes|
  {
    if k == 0 then 0 else Sum(minutes, k - 1) + minutes[k - 1]
  }

  lemma {:induction false} SumPlus(a: Minutes, b: Minutes, k: nat)
    requires k <= MINUTES_PER_DAY
    ensures Sum(Plus(a, b), k) == Sum(a, k) + Sum(b, k)
  {
    if k > 0 { SumPlus(a, b, k - 1); }
  }

  lemma {:induction false} SumOne(minute: nat, count: nat, k: nat)
    requires minute < MINUTES_PER_DAY && k <= MINUTES_PER_DAY
    ensures Sum(NO_MINUTES[minute := count], k) == if minute < k then count else 0
    ensures Sum(NO_MINUTES, k) == 0
  {
    if k > 0 { SumOne(minute, count, k - 1); }
  }

  lemma MergeSums(a: Tally, b: Tally)
    requires Summed(a) && Summed(b)
    ensures Summed(Merge(a, b))
  {
    SumPlus(a.minutes, b.minutes, MINUTES_PER_DAY);
  }

  lemma CountsSum(now: int, count: nat, success: bool)
    ensures Summed(ZERO) && Summed(Work(now, count)) && Summed(Ending(success))
  {
    SumOne(MinuteOf(now), count, MINUTES_PER_DAY);
  }

  // ----- the books -----

  function At(m: map<int, Tally>, d: int): Tally { if d in m then m[d] else ZERO }

  ghost function Plussed(m: map<int, Tally>, more: (int, Tally)): map<int, Tally> { m[more.0 := Merge(At(m, more.0), more.1)] }

  /** The days kept while the latest day seen is `latest`. */
  function Kept(days: map<int, Tally>, latest: int): map<int, Tally> { map d | d in days && d >= latest - 1 :: days[d] }

  /** What is on its way to the store for day `d`. */
  ghost function InFlight(pending: seq<(int, Tally)>, d: int): Tally {
    if pending == [] then ZERO
    else if pending[0].0 == d then Merge(pending[0].1, InFlight(pending[1..], d)) else InFlight(pending[1..], d)
  }

  /**
   * Day `d` balances: what was recorded, and again what the store applied without a reply, is what the
   * store has, what is on its way and what is buffered.
   */
  ghost predicate Balanced(recorded: Tally, doubled: Tally, flushed: Tally, flying: Tally, buffered: Tally) {
    Merge(recorded, doubled) == Merge(flushed, Merge(flying, buffered))
  }

  lemma MoveInto(a: Tally, b: Tally, c: Tally, x: Tally)
    ensures Merge(a, Merge(b, Merge(c, x))) == Merge(Merge(a, Merge(b, c)), x)
    ensures Merge(a, Merge(Merge(x, b), c)) == Merge(Merge(a, x), Merge(b, c)) == Merge(a, Merge(b, Merge(c, x)))
  {
    MergeRegroups(b, c, x);
    MergeRegroups(a, Merge(b, c), x);
    MergeRegroups(x, b, c);
    MergeRegroups(a, x, Merge(b, c));
    MergeSwaps(x, Merge(b, c));
  }

  lemma RecordBalances(r: Tally, dbl: Tally, f: Tally, i: Tally, b: Tally, x: Tally)
    requires Balanced(r, dbl, f, i, b)
    ensures Balanced(Merge(r, x), dbl, f, i, Merge(b, x))
  {
    MoveInto(f, i, b, x);
    MergeRegroups(r, x, dbl);
    MergeSwaps(x, dbl);
    MergeRegroups(r, dbl, x);
  }

  /** `i` is what is on its way besides `x`. */
  lemma FlushBalances(r: Tally, dbl: Tally, f: Tally, x: Tally, i: Tally, b: Tally)
    requires Balanced(r, dbl, f, Merge(x, i), b)
    ensures Balanced(r, dbl, Merge(f, x), i, b) && Balanced(r, dbl, f, i, Merge(b, x))
    ensures Balanced(r, Merge(dbl, x), Merge(f, x), i, Merge(b, x))
  {
    MoveInto(f, i, b, x);
    MoveInto(Merge(f, x), i, b, x);
    MergeRegroups(r, dbl, x);
  }

  lemma DrainBalances(r: Tally, dbl: Tally, f: Tally, b: Tally)
    requires Balanced(r, dbl, f, ZERO, b)
    ensures Balanced(r, dbl, f, b, ZERO)
  {
    MergeNothing(b);
  }

  /** How a flush ends; `Unanswered`: the store applied it, but the reply was lost. */
  datatype Reply = Stored | Refused | Unanswered

  /** Only today and yesterday are kept, counted from the latest day seen. */
  ghost predicate TwoDays(days: map<int, Tally>, latest: Option<int>) {
    forall d :: d in days ==> latest.Some? && latest.value - 1 <= d <= latest.value
  }

  class Metrics {
    var days: map<int, Tally>
    var latest: Option<int>
    var pending: seq<(int, Aggregated)>
    ghost var flying: seq<(int, Tally)>
    ghost var recorded: map<int, Tally>
    ghost var flushed: map<int, Tally>
    ghost var doubled: map<int, Tally>

    ghost predicate DayBalanced(d: int)
      reads this
    {
      Balanced(At(recorded, d), At(doubled, d), At(flushed, d), InFlight(flying, d), At(days, d))
    }

    ghost predicate Valid()
      reads this
    {
      && TwoDays(days, latest)
      && (forall d :: d in days ==> Summed(days[d]))
      && |pending| == |flying| && (forall i :: 0 <= i < |pending| ==> pending[i] == (flying[i].0, Into(flying[i].1)))
      && (forall i :: 0 <= i < |flying| ==> Summed(flying[i].1))
      && (forall d {:trigger DayBalanced(d)} :: (latest.None? || d >= latest.value - 1) ==> DayBalanced(d))
      && (latest.None? ==> pending == [] && days == map[] && recorded == map[] && flushed == map[] && doubled == map[])
    }

    constructor ()
      ensures Valid() && latest.None? && days == map[] && flying == [] && recorded == map[] && flushed == map[] && doubled == map[]
    {
      days, latest, pending, flying := map[], None, [], [];
      recorded, flushed, doubled := map[], map[], map[];
      new;
      MergeNothing(ZERO);
    }

    /** Makes room for a day, or turns away one older than yesterday; days older than yesterday are dropped. */
    method Day(date: int) returns (kept: bool)
      requires Valid()
      modifies this`days, this`latest
      ensures Valid() && latest == Some(if old(latest).Some? && old(latest).value >= date then old(latest).value else date)
      ensures kept <==> date >= latest.value - 1
      ensures kept <==> date in days
      ensures days == if kept then Kept(old(days), latest.value)[date := At(old(days), date)] else Kept(old(days), latest.value)
    {
      if latest.None? || date > latest.value { latest := Some(date); }
      var oldest := latest.value - 1;
      ghost var before := days;
      days := Kept(days, latest.value);
      kept := date >= oldest;
      CountsSum(0, 0, true);
      if kept && date !in days { days := days[date := ZERO]; }
      forall d | d >= latest.value - 1 ensures DayBalanced(d) {
        assert At(days, d) == At(before, d);
        assert old(DayBalanced(d));
      }
    }

    /** Work done now. Nothing is kept of a day older than yesterday. */
    method Processed(now: int, count: nat)
      requires Valid()
      modifies this`days, this`latest, this`recorded
      ensures Valid() && (count == 0 ==> days == old(days) && recorded == old(recorded) && latest == old(latest))
      ensures count > 0 ==> recorded == Plussed(old(recorded), (DayOf(now), Work(now, count)))
      ensures count > 0 ==> latest.Some? && latest.value >= DayOf(now) && (old(latest).None? ==> latest.value == DayOf(now))
      ensures count > 0 && DayOf(now) >= latest.value - 1 ==>
        days == Plussed(Kept(old(days), latest.value), (DayOf(now), Work(now, count)))
    {
      hide Balanced, Sum, InFlight, Merge;
      if count == 0 { return; }
      var date := DayOf(now);
      var kept := Day(date);
      ghost var x := Work(now, count);
      CountsSum(now, count, true);
      if kept {
        var day := days[date];
        var minute := MinuteOf(now);
        var day' := day.(started := Some(if day.started.None? || now <= day.started.value then now else day.started.value),
                         count := day.count + count, minutes := day.minutes[minute := day.minutes[minute] + count]);
        WorkMerges(day, now, count, day');
        Put(date, day', x);
      } else {
        Missed(date, x);
      }
    }

    method Outcome(now: int, success: bool)
      requires Valid()
      modifies this`days, this`latest, this`recorded
      ensures Valid() && recorded == Plussed(old(recorded), (DayOf(now), Ending(success)))
      ensures latest.Some? && (DayOf(now) >= latest.value - 1 ==>
        days == Plussed(Kept(old(days), latest.value), (DayOf(now), Ending(success))))
    {
      var date := DayOf(now);
      var kept := Day(date);
      ghost var x := Ending(success);
      CountsSum(now, 0, success);
      if kept {
        var day := days[date];
        var day' := if success then day.(successful := day.successful + 1) else day.(failed := day.failed + 1);
        assert Plus(day.minutes, x.minutes) == day'.minutes;
        Put(date, day', x);
      } else {
        Missed(date, x);
      }
    }

    /** A kept day's counters grow by what was recorded. */
    method Put(date: int, day: Tally, ghost x: Tally)
      requires Valid() && latest.Some? && date in days && Summed(x) && day == Merge(days[date], x)
      modifies this`days, this`recorded
      ensures Valid() && recorded == Plussed(old(recorded), (date, x)) && days == old(days)[date := day]
    {
      MergeSums(days[date], x);
      ghost var was := days[date];
      days := days[date := day];
      recorded := Plussed(recorded, (date, x));
      forall d | d >= latest.value - 1 ensures DayBalanced(d) {
        assert old(DayBalanced(d));
        if d == date { RecordBalances(old(At(recorded, d)), At(doubled, d), At(flushed, d), InFlight(flying, d), was, x); }
      }
    }

    /** Recorded for a day no longer kept. */
    ghost method Missed(date: int, x: Tally)
      requires Valid() && latest.Some? && date < latest.value - 1
      modifies this`recorded
      ensures Valid() && recorded == Plussed(old(recorded), (date, x))
    {
      recorded := Plussed(recorded, (date, x));
      forall d | d >= latest.value - 1 ensures DayBalanced(d) { assert old(DayBalanced(d)); }
    }

    // ----- flushing -----

    /** Everything buffered is taken, in order of date. */
    method Drain()
      requires Valid() && pending == []
      modifies this`days, this`pending, this`flying
      ensures Valid() && days == map[] && forall d :: InFlight(flying, d) == At(old(days), d)
      ensures latest.Some? ==> flying == Flown(old(days), latest.value - 1) + Flown(old(days), latest.value)
    {
      hide Sum, Sparse, PlusUpTo;
      ghost var was := days;
      if latest.Some? {
        pending := Taken(days, latest.value - 1) + Taken(days, latest.value);
        flying := Flown(days, latest.value - 1) + Flown(days, latest.value);
        days := map[];
        FlownIs(was, latest.value);
        forall d | d >= latest.value - 1 ensures DayBalanced(d) {
          assert old(DayBalanced(d));
          DrainBalances(At(recorded, d), At(doubled, d), At(flushed, d), At(was, d));
        }
      }
    }

    /** The store answers, or does not: whatever is not known to be stored is put back. */
    method FlushNext(reply: Reply)
      requires Valid() && pending != []
      modifies this
      ensures Valid() && pending == old(pending)[1..] && flying == old(flying)[1..] && recorded == old(recorded)
      ensures reply.Stored? ==> days == old(days) && latest == old(latest)
      ensures !reply.Stored? ==> old(latest).Some? && latest == Some(if old(latest).value >= old(flying)[0].0 then old(latest).value else old(flying)[0].0)
      ensures !reply.Stored? ==>
        days == if old(flying)[0].0 >= latest.value - 1 then Plussed(Kept(old(days), latest.value), old(flying)[0])
                else Kept(old(days), latest.value)
      ensures flushed == (if reply.Refused? then old(flushed) else Plussed(old(flushed), old(flying)[0]))
      ensures doubled == (if reply.Unanswered? then Plussed(old(doubled), old(flying)[0]) else old(doubled))
    {
      if reply.Stored? {
        Settle();
      } else {
        var kept := Day(pending[0].0);
        if kept { PutBack(reply); } else { Abandon(reply); }
      }
    }

    method Settle()
      requires Valid() && pending != []
      modifies this`pending, this`flying, this`flushed
      ensures Valid() && pending == old(pending)[1..] && flying == old(flying)[1..] && flushed == Plussed(old(flushed), old(flying)[0])
    {
      ghost var date, x, f0 := flying[0].0, flying[0].1, flushed;
      pending, flying, flushed := pending[1..], flying[1..], Plussed(flushed, flying[0]);
      if latest.Some? {
        forall d | d >= latest.value - 1 ensures DayBalanced(d) {
          assert old(DayBalanced(d));
          if d == date { FlushBalances(At(recorded, d), At(doubled, d), At(f0, d), x, InFlight(flying, d), At(days, d)); }
        }
      }
    }

    method PutBack(ghost reply: Reply)
      requires Valid() && pending != [] && pending[0].0 in days && !reply.Stored?
      modifies this`days, this`pending, this`flying, this`flushed, this`doubled
      ensures Valid() && pending == old(pending)[1..] && flying == old(flying)[1..] && days == Plussed(old(days), old(flying)[0])
      ensures flushed == (if reply.Refused? then old(flushed) else Plussed(old(flushed), old(flying)[0]))
      ensures doubled == (if reply.Unanswered? then Plussed(old(doubled), old(flying)[0]) else old(doubled))
    {
      hide Balanced, Sparse, Plus, AddListed;
      var date, counters := pending[0].0, pending[0].1;
      ghost var x, was, f0, dbl0 := flying[0].1, days, flushed, doubled;
      MergesBack(days[date], x);
      MergeSums(days[date], x);
      var day := days[date];
      var merged := Tally(Earliest(day.started, counters.started), day.count + counters.count, day.successful + counters.successful,
                          day.failed + counters.failed, AddListed(day.minutes, counters.minutes));
      assert merged == Merge(day, x);
      days := days[date := merged];
      if reply.Unanswered? { flushed, doubled := Plussed(flushed, flying[0]), Plussed(doubled, flying[0]); }
      pending, flying := pending[1..], flying[1..];
      forall d | d >= latest.value - 1 ensures DayBalanced(d) {
        assert old(DayBalanced(d));
        if d == date { FlushBalances(At(recorded, d), At(dbl0, d), At(f0, d), x, InFlight(flying, d), At(was, d)); }
      }
    }

    /** A day no longer kept is not put back. */
    method Abandon(ghost reply: Reply)
      requires Valid() && pending != [] && latest.Some? && pending[0].0 < latest.value - 1
      modifies this`pending, this`flying, this`flushed, this`doubled
      ensures Valid() && pending == old(pending)[1..] && flying == old(flying)[1..]
      ensures flushed == (if reply.Refused? then old(flushed) else Plussed(old(flushed), old(flying)[0]))
      ensures doubled == (if reply.Unanswered? then Plussed(old(doubled), old(flying)[0]) else old(doubled))
    {
      if !reply.Refused? { flushed := Plussed(flushed, flying[0]); }
      if reply.Unanswered? { doubled := Plussed(doubled, flying[0]); }
      pending, flying := pending[1..], flying[1..];
      forall d | d >= latest.value - 1 ensures DayBalanced(d) { assert old(DayBalanced(d)); }
    }

    /** Nothing recorded of a day still kept is lost, and only a lost reply counts anything twice. */
    lemma Conserved(d: int)
      requires Valid() && latest.Some? && d >= latest.value - 1
      ensures var r, dbl, f, i, b := At(recorded, d), At(doubled, d), At(flushed, d), InFlight(flying, d), At(days, d);
              && r.count + dbl.count == f.count + i.count + b.count
              && r.successful + dbl.successful == f.successful + i.successful + b.successful
              && r.failed + dbl.failed == f.failed + i.failed + b.failed
              && Earliest(r.started, dbl.started) == Earliest(f.started, Earliest(i.started, b.started))
              && (forall m :: 0 <= m < MINUTES_PER_DAY ==>
                    r.minutes[m] + dbl.minutes[m] == f.minutes[m] + i.minutes[m] + b.minutes[m])
              && (f.count + i.count + b.count == r.count <==> dbl.count == 0)
              && (d !in doubled ==> r == Merge(f, Merge(i, b)))
              && b.count == Sum(b.minutes, MINUTES_PER_DAY)
    {
      assert DayBalanced(d);
      var r, dbl, f, i, b := At(recorded, d), At(doubled, d), At(flushed, d), InFlight(flying, d), At(days, d);
      assert Plus(r.minutes, dbl.minutes) == Plus(f.minutes, Plus(i.minutes, b.minutes));
      MergeNothing(r);
      CountsSum(0, 0, true);
    }
  }

  /**
   * The store applied a flush and its reply was lost: the counters are put back, flushed again, and the
   * store ends with twice what was recorded.
   */
  method LostReplyCountsTwice(now: int, count: nat) returns (metrics: Metrics)
    requires count > 0
    ensures metrics.Valid() && metrics.pending == [] && metrics.days == map[]
    ensures At(metrics.recorded, DayOf(now)).count == count && At(metrics.flushed, DayOf(now)).count == 2 * count
  {
    ghost var d, x := DayOf(now), Work(now, count);
    metrics := new Metrics();
    metrics.Processed(now, count);
    MergeNothing(x);
    assert metrics.days == map[d := x];
    metrics.Drain();
    assert metrics.flying == [(d, x)];
    metrics.FlushNext(Unanswered);
    assert metrics.flushed == metrics.days == map[d := x];
    metrics.Drain();
    assert metrics.flying == [(d, x)];
    metrics.FlushNext(Stored);
  }

  function Taken(days: map<int, Tally>, d: int): seq<(int, Aggregated)> { if d in days then [(d, Into(days[d]))] else [] }

  ghost function Flown(days: map<int, Tally>, d: int): seq<(int, Tally)> { if d in days then [(d, days[d])] else [] }

  lemma FlownIs(days: map<int, Tally>, latest: int)
    requires forall d :: d in days ==> latest - 1 <= d <= latest
    ensures forall d :: InFlight(Flown(days, latest - 1) + Flown(days, latest), d) == At(days, d)
  {
    forall d ensures InFlight(Flown(days, latest - 1) + Flown(days, latest), d) == At(days, d) {
      MergeNothing(At(days, d));
      var early, late := Flown(days, latest - 1), Flown(days, latest);
      assert early != [] ==> (early + late)[1..] == late;
      assert early == [] ==> early + late == late;
      assert late != [] ==> late[1..] == [];
      assert InFlight(late, d) == if d == latest then At(days, d) else ZERO;
    }
  }
}
