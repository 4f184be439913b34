/** Deterministic task ids: how the scheduler builds them and how the registry reads them back. */
module TaskIds {
  import opened Options

  datatype Slice = Slice(date: string, session: string)

  predicate IsDigit(c: char) { '0' <= c <= '9' }

  predicate AllDigits(s: string) { forall i :: 0 <= i < |s| ==> IsDigit(s[i]) }

  /** `YYYY-MM-DD` by shape only, as the registry's pattern tests it. */
  predicate IsDate(s: string) {
    && |s| == 10
    && s[4] == '-' && s[7] == '-'
    && AllDigits(s[..4]) && AllDigits(s[5..7]) && AllDigits(s[8..])
  }

  function Digit(n: nat): char
    requires n < 10
  {
    "0123456789"[n]
  }

  function Decimal(n: nat): (s: string)
    ensures s != [] && AllDigits(s)
  {
    if n < 10 then [Digit(n)] else Decimal(n / 10) + [Digit(n % 10)]
  }

  /** The suffix of a retry; the first attempt has none. */
  function Suffix(attempt: nat): string {
    if attempt == 0 then "" else ":r" + Decimal(attempt)
  }

  function BaseId(run: string, slice: Slice): string {
    "clean:" + run + ":" + slice.date + ":" + slice.session
  }

  function BuildTaskId(run: string, slice: Slice, attempt: nat): string {
    BaseId(run, slice) + Suffix(attempt)
  }

  /** `s` ends in `:r` and one or more digits; `cut` is where the suffix starts. */
  predicate SuffixAt(s: string, cut: int) {
    0 <= cut && cut + 2 < |s| && s[cut] == ':' && s[cut + 1] == 'r' && AllDigits(s[cut + 2..])
  }

  predicate EndsLikeRetry(s: string) {
    exists cut: int | 0 <= cut < |s| :: SuffixAt(s, cut)
  }

  lemma LastColon(s: string, cut: int)
    requires SuffixAt(s, cut)
    ensures forall i :: cut < i < |s| ==> s[i] != ':'
  {
    forall i | cut < i < |s| ensures s[i] != ':' {
      if i > cut + 1 { assert s[i] == s[cut + 2..][i - cut - 2]; }
    }
  }

  lemma SuffixUnique(s: string, a: int, b: int)
    requires SuffixAt(s, a) && SuffixAt(s, b)
    ensures a == b
  {
    LastColon(s, a);
    LastColon(s, b);
  }

  /** The retry suffix removed, when there is one. */
  function StripRetry(s: string): (r: string)
    ensures !EndsLikeRetry(s) ==> r == s
    ensures forall cut :: SuffixAt(s, cut) ==> r == s[..cut]
  {
    if EndsLikeRetry(s) then
      var cut := CutFrom(s, 0);
      assert forall c :: SuffixAt(s, c) ==> c == cut by {
        forall c | SuffixAt(s, c) ensures c == cut { SuffixUnique(s, c, cut); }
      }
      s[..cut]
    else s
  }

  function CutFrom(s: string, from: nat): (cut: nat)
    requires exists c: int | from <= c < |s| :: SuffixAt(s, c)
    ensures SuffixAt(s, cut)
    decreases |s| - from
  {
    if SuffixAt(s, from) then from else CutFrom(s, from + 1)
  }

  function Split(s: string): (parts: seq<string>)
    ensures parts != []
    ensures forall i :: 0 <= i < |parts| ==> ':' !in parts[i]
  {
    if s == [] then [""]
    else if s[0] == ':' then [""] + Split(s[1..])
    else
      var rest := Split(s[1..]);
      [[s[0]] + rest[0]] + rest[1..]
  }

  function Join(parts: seq<string>): string {
    if parts == [] then ""
    else if |parts| == 1 then parts[0]
    else parts[0] + ":" + Join(parts[1..])
  }

  /** The run date is always read as the second colon field. */
  function RunOf(id: string): string {
    var parts := Split(id);
    if |parts| > 1 then parts[1] else ""
  }

  predicate HasPrefix(s: string, p: string) { |p| <= |s| && s[..|p|] == p }

  function RestoreSlice(id: string): Option<Slice> {
    if !HasPrefix(id, "clean:") then None
    else
      var parts := Split(StripRetry(id));
      if |parts| < 4 || !IsDate(parts[2]) then None
      else Some(Slice(parts[2], Join(parts[3..])))
  }

  // ----- splitting -----

  lemma {:induction false} SplitPlain(s: string)
    requires ':' !in s
    ensures Split(s) == [s]
  {
    if s != [] {
      assert ':' !in s[1..];
      SplitPlain(s[1..]);
      assert [s[0]] + s[1..] == s;
    }
  }

  lemma {:induction false} SplitField(head: string, rest: string)
    requires ':' !in head
    ensures Split(head + ":" + rest) == [head] + Split(rest)
  {
    var s := head + ":" + rest;
    if head == [] {
      assert s == [':'] + rest;
      assert s[1..] == rest;
    } else {
      assert s[1..] == head[1..] + ":" + rest;
      SplitField(head[1..], rest);
      assert [head[0]] + head[1..] == head;
    }
  }

  lemma {:induction false} JoinSplit(s: string)
    ensures Join(Split(s)) == s
  {
    if s != [] {
      JoinSplit(s[1..]);
      var rest := Split(s[1..]);
      if s[0] == ':' {
        assert ([""] + rest)[1..] == rest;
        assert s == "" + ":" + s[1..];
      } else if |rest| == 1 {
        assert s == [s[0]] + rest[0];
      } else {
        var all := [[s[0]] + rest[0]] + rest[1..];
        assert all[1..] == rest[1..];
        assert s == [s[0]] + s[1..];
        assert s == ([s[0]] + rest[0]) + ":" + Join(rest[1..]);
      }
    }
  }

  lemma SplitBase(run: string, date: string, tail: string)
    requires ':' !in run && ':' !in date
    ensures Split("clean:" + run + ":" + date + ":" + tail) == ["clean", run, date] + Split(tail)
  {
    var id := "clean:" + run + ":" + date + ":" + tail;
    assert id == "clean" + ":" + (run + ":" + (date + ":" + tail));
    SplitField("clean", run + ":" + (date + ":" + tail));
    SplitField(run, date + ":" + tail);
    SplitField(date, tail);
  }

  lemma DateHasNoColon(date: string)
    requires IsDate(date)
    ensures ':' !in date
  {
    forall i | 0 <= i < |date| ensures date[i] != ':' {
      if i < 4 { assert date[..4][i] == date[i]; }
      else if 5 <= i < 7 { assert date[5..7][i - 5] == date[i]; }
      else if 8 <= i { assert date[8..][i - 8] == date[i]; }
    }
  }

  /** The second colon field of every id the scheduler builds is its run date. */
  lemma RunDateField(run: string, slice: Slice, attempt: nat)
    requires ':' !in run && ':' !in slice.date
    ensures RunOf(BuildTaskId(run, slice, attempt)) == run
  {
    var tail := slice.session + Suffix(attempt);
    assert BuildTaskId(run, slice, attempt) == "clean:" + run + ":" + slice.date + ":" + tail;
    SplitBase(run, slice.date, tail);
  }

  // ----- the retry suffix -----

  lemma SuffixOfRetry(prefix: string, attempt: nat)
    requires attempt > 0
    ensures SuffixAt(prefix + Suffix(attempt), |prefix|)
  {
    var s := prefix + Suffix(attempt);
    assert s[|prefix| + 2..] == Decimal(attempt);
  }

  /** A suffix found in the whole id lies inside `:` + session, because a date holds no `r`. */
  lemma SuffixInsideSession(run: string, slice: Slice, cut: int)
    requires ':' !in run && IsDate(slice.date)
    requires SuffixAt(BaseId(run, slice), cut)
    ensures var front := |BaseId(run, slice)| - |slice.session| - 1;
            cut >= front && SuffixAt(":" + slice.session, cut - front)
  {
    var id := BaseId(run, slice);
    var front := |id| - |slice.session| - 1;
    var head := "clean:" + run + ":" + slice.date;
    assert id == head + (":" + slice.session);
    assert |head| == front;
    assert id[front] == ':';
    LastColon(id, cut);
    assert (":" + slice.session)[cut - front + 2..] == id[cut + 2..];
  }

  lemma SuffixInsideId(run: string, slice: Slice, cut: int)
    requires SuffixAt(":" + slice.session, cut)
    ensures SuffixAt(BaseId(run, slice), |BaseId(run, slice)| - |slice.session| - 1 + cut)
  {
    var id := BaseId(run, slice);
    var front := |id| - |slice.session| - 1;
    assert id == ("clean:" + run + ":" + slice.date) + (":" + slice.session);
    assert id[front + cut + 2..] == (":" + slice.session)[cut + 2..];
  }

  /**
   * Reading an id back gives the slice it was built for exactly when the id is a retry or when
   * `:` + session does not itself end like a retry. The separator counts: session `r5` fails too.
   */
  lemma RestoreRoundTrip(run: string, slice: Slice, attempt: nat)
    requires ':' !in run && IsDate(slice.date)
    ensures RestoreSlice(BuildTaskId(run, slice, attempt)) == Some(slice)
            <==> (attempt > 0 || !EndsLikeRetry(":" + slice.session))
  {
    DateHasNoColon(slice.date);
    var base := BaseId(run, slice);
    var id := BuildTaskId(run, slice, attempt);
    assert HasPrefix(id, "clean:");
    SplitBase(run, slice.date, slice.session);
    JoinSplit(slice.session);
    assert Split(base)[3..] == Split(slice.session);
    if attempt > 0 {
      SuffixOfRetry(base, attempt);
      assert StripRetry(id) == id[..|base|] == base;
    } else {
      assert id == base;
      if EndsLikeRetry(":" + slice.session) {
        var cut: int :| 0 <= cut < |slice.session| + 1 && SuffixAt(":" + slice.session, cut);
        SuffixInsideId(run, slice, cut);
        RestoreShortened(run, slice, cut);
      } else {
        if EndsLikeRetry(id) {
          var cut: int :| 0 <= cut < |id| && SuffixAt(id, cut);
          SuffixInsideSession(run, slice, cut);
          assert false;
        }
        assert StripRetry(id) == base;
      }
    }
  }

  /** Only ids of cleaning tasks are restored, and only to a slice with a date written as one. */
  lemma RestoredIsDated(id: string)
    ensures RestoreSlice(id).Some? ==>
      && "clean:" <= id
      && var date := RestoreSlice(id).value.date;
         |date| == 10 && date[4] == '-' && date[7] == '-' && forall i :: 0 <= i < 10 && i != 4 && i != 7 ==> '0' <= date[i] <= '9'
  {
    if RestoreSlice(id).Some? {
      var date := RestoreSlice(id).value.date;
      assert IsDate(date);
      forall i | 0 <= i < 10 && i != 4 && i != 7 ensures '0' <= date[i] <= '9' {
        if i < 4 { assert date[..4][i] == date[i]; } else if i < 7 { assert date[5..7][i - 5] == date[i]; } else { assert date[8..][i - 8] == date[i]; }
      }
    }
  }

  /** What is restored when the session's own tail is taken for a retry suffix. */
  lemma RestoreShortened(run: string, slice: Slice, cut: int)
    requires ':' !in run && IsDate(slice.date)
    requires SuffixAt(":" + slice.session, cut)
    ensures RestoreSlice(BaseId(run, slice))
            == (if cut == 0 then None else Some(Slice(slice.date, slice.session[..cut - 1])))
  {
    DateHasNoColon(slice.date);
    var id := BaseId(run, slice);
    var front := |id| - |slice.session| - 1;
    SuffixInsideId(run, slice, cut);
    assert StripRetry(id) == id[..front + cut];
    assert HasPrefix(id, "clean:");
    if cut == 0 {
      var head := "clean:" + run + ":" + slice.date;
      assert id[..front] == head;
      assert head == "clean" + ":" + (run + ":" + slice.date);
      SplitField("clean", run + ":" + slice.date);
      SplitField(run, slice.date);
      SplitPlain(slice.date);
      assert |Split(head)| == 3;
    } else {
      var short := slice.session[..cut - 1];
      assert id[..front + cut] == "clean:" + run + ":" + slice.date + ":" + short;
      SplitBase(run, slice.date, short);
      JoinSplit(short);
      assert (["clean", run, slice.date] + Split(short))[3..] == Split(short);
    }
  }

  // ----- when two ids collide -----

  lemma {:induction false} DecimalInjective(a: nat, b: nat)
    requires Decimal(a) == Decimal(b)
    ensures a == b
  {
    if a >= 10 && b >= 10 {
      var x, y := Decimal(a / 10), Decimal(b / 10);
      var da, db := [Digit(a % 10)], [Digit(b % 10)];
      assert x + da == y + db;
      assert x == (x + da)[..|x|] && y == (y + db)[..|y|];
      DecimalInjective(a / 10, b / 10);
      assert (x + da)[|x|] == Digit(a % 10) && (y + db)[|y|] == Digit(b % 10);
    }
  }

  lemma SameSplit(a: string, x: string, b: string, y: string)
    requires a + x == b + y && |a| == |b|
    ensures a == b && x == y
  {
    assert a == (a + x)[..|a|] && b == (b + y)[..|a|];
    assert x == (a + x)[|a|..] && y == (b + y)[|a|..];
  }

  lemma PlainSuffixTail(s: string, t: string, a: nat, b: nat)
    requires a > 0 && b > 0 && s + Suffix(a) == t + Suffix(b)
    ensures s == t && a == b
  {
    SuffixOfRetry(s, a);
    SuffixOfRetry(t, b);
    SuffixUnique(s + Suffix(a), |s|, |t|);
    SameSplit(s, Suffix(a), t, Suffix(b));
    SameSplit(":r", Decimal(a), ":r", Decimal(b));
    DecimalInjective(a, b);
  }

  lemma SameFields(run: string, date: string, tail: string, run': string, date': string, tail': string)
    requires ':' !in run && ':' !in date && ':' !in run' && ':' !in date'
    requires "clean:" + run + ":" + date + ":" + tail == "clean:" + run' + ":" + date' + ":" + tail'
    ensures run == run' && date == date' && tail == tail'
  {
    SplitBase(run, date, tail);
    SplitBase(run', date', tail');
    var p, q := ["clean", run, date] + Split(tail), ["clean", run', date'] + Split(tail');
    assert p == q;
    assert p[1] == run && q[1] == run' && p[2] == date && q[2] == date';
    assert p[3..] == Split(tail) && q[3..] == Split(tail');
    JoinSplit(tail);
    JoinSplit(tail');
  }

  /** One session is another session of the same day followed by a retry suffix. */
  predicate Twins(a: Slice, attempt: nat, b: Slice) {
    attempt > 0 && a.date == b.date && b.session == a.session + Suffix(attempt)
  }

  /** Exactly when two ids are the same string. */
  lemma IdCollision(run: string, a: Slice, m: nat, run': string, b: Slice, n: nat)
    requires ':' !in run && ':' !in run' && ':' !in a.date && ':' !in b.date
    ensures BuildTaskId(run, a, m) == BuildTaskId(run', b, n)
            <==> run == run' && ((a == b && m == n)
                                 || (n == 0 && Twins(a, m, b))
                                 || (m == 0 && Twins(b, n, a)))
  {
    var s, t := a.session + Suffix(m), b.session + Suffix(n);
    assert BuildTaskId(run, a, m) == "clean:" + run + ":" + a.date + ":" + s;
    assert BuildTaskId(run', b, n) == "clean:" + run' + ":" + b.date + ":" + t;
    if n == 0 && Twins(a, m, b) { assert t == b.session == s; }
    if m == 0 && Twins(b, n, a) { assert s == a.session == t; }
    if BuildTaskId(run, a, m) == BuildTaskId(run', b, n) {
      SameFields(run, a.date, s, run', b.date, t);
      if m > 0 && n > 0 {
        PlainSuffixTail(a.session, b.session, m, n);
      } else {
        assert a.session + "" == a.session && b.session + "" == b.session;
      }
    }
  }

  /** Attempts of a base are numbered 0, 1 and 2. */
  const MAX_ATTEMPTS: nat := 2

  /** No session of the log is another session's retry id in disguise. */
  ghost predicate TwinFree(log: set<Slice>) {
    forall a, b, n :: a in log && b in log && 1 <= n <= MAX_ATTEMPTS ==> !Twins(a, n, b)
  }

  /** Ids of one run tell the slices and the attempts of a log apart. */
  ghost predicate IdsIdentify(run: string, log: set<Slice>) {
    forall a, b, m: nat, n: nat ::
      (a in log && b in log && m <= MAX_ATTEMPTS && n <= MAX_ATTEMPTS
       && BuildTaskId(run, a, m) == BuildTaskId(run, b, n)) ==> a == b && m == n
  }

  /** They do exactly when the log is twin free. */
  lemma IdsIdentifySlices(run: string, log: set<Slice>)
    requires ':' !in run && forall s :: s in log ==> ':' !in s.date
    ensures IdsIdentify(run, log) <==> TwinFree(log)
  {
    if TwinFree(log) {
      forall a, b, m: nat, n: nat | a in log && b in log && m <= MAX_ATTEMPTS && n <= MAX_ATTEMPTS
                                    && BuildTaskId(run, a, m) == BuildTaskId(run, b, n)
        ensures a == b && m == n
      {
        IdCollision(run, a, m, run, b, n);
      }
    } else {
      var a, b, n: nat :| a in log && b in log && 1 <= n <= MAX_ATTEMPTS && Twins(a, n, b);
      IdCollision(run, a, n, run, b, 0);
      assert BuildTaskId(run, a, n) == BuildTaskId(run, b, 0);
    }
  }

  /** A concrete collision: the first retry of session `x` and the first attempt of `x:r1`. */
  lemma CollisionExample(run: string, date: string)
    requires ':' !in run && ':' !in date
    ensures BuildTaskId(run, Slice(date, "x"), 1) == BuildTaskId(run, Slice(date, "x:r1"), 0)
  {
    assert "x" + (":r" + Decimal(1)) == "x:r1";
    IdCollision(run, Slice(date, "x"), 1, run, Slice(date, "x:r1"), 0);
  }

  /** A concrete first attempt that is not read back, although `r5` does not end in `:r5`. */
  lemma LostSessionExample(run: string, date: string)
    requires ':' !in run && IsDate(date)
    ensures !EndsLikeRetry("r5") && RestoreSlice(BuildTaskId(run, Slice(date, "r5"), 0)) == None
  {
    var tail := ":" + "r5";
    assert tail[2..] == "5";
    assert SuffixAt(tail, 0);
    RestoreShortened(run, Slice(date, "r5"), 0);
    assert BuildTaskId(run, Slice(date, "r5"), 0) == BaseId(run, Slice(date, "r5"));
  }
}
