/** Attribution: how a conversion's credit is shared among the touches of its session that precede it. */
module AttributionWeights {
  datatype Model = FirstTouch | LastTouch | Linear | Position | TimeDecay

  /** `key`: what the result is grouped by, the touch event and its dimensions. */
  datatype Hop = Hop(session: string, time: int, key: string)

  datatype Conversion = Conversion(session: string, time: int)

  datatype Row = Row(key: string, weight: real)

  // ----- the weights -----

  /** Seconds between two times in milliseconds, as the count of second boundaries crossed. */
  function Seconds(from: int, to: int): int { to / 1000 - from / 1000 }

  ghost predicate Positive(decay: int -> real) { forall s :: decay(s) > 0.0 }

  function DecaySum(prefix: seq<Hop>, at: int, decay: int -> real): real {
    if prefix == [] then 0.0 else DecaySum(prefix[..|prefix| - 1], at, decay) + decay(Seconds(prefix[|prefix| - 1].time, at))
  }

  lemma {:induction false} DecaySumPositive(prefix: seq<Hop>, at: int, decay: int -> real)
    requires Positive(decay)
    ensures DecaySum(prefix, at, decay) >= 0.0 && (prefix != [] ==> DecaySum(prefix, at, decay) > 0.0)
  {
    if prefix != [] {
      DecaySumPositive(prefix[..|prefix| - 1], at, decay);
      assert decay(Seconds(prefix[|prefix| - 1].time, at)) > 0.0;
    }
  }

  /** The weight of the `i`-th of `n` touches, counted from 1; `share` is a touch's part of the decay sum. */
  function Weight(model: Model, i: nat, n: nat, share: real): real
    requires 1 <= i <= n
  {
    match model
    case FirstTouch => if i == 1 then 1.0 else 0.0
    case LastTouch => if i == n then 1.0 else 0.0
    case Linear => 1.0 / n as real
    case Position =>
      if n == 1 then 1.0 else if n == 2 then 0.5 else if i == 1 || i == n then 0.4 else 0.2 / (n - 2) as real
    case TimeDecay => share
  }

  function WeightAt(model: Model, prefix: seq<Hop>, at: int, decay: int -> real, i: nat): real
    requires i < |prefix|
  {
    var sum := DecaySum(prefix, at, decay);
    Weight(model, i + 1, |prefix|, if sum == 0.0 then 0.0 else decay(Seconds(prefix[i].time, at)) / sum)
  }

  /** The first `k` touches' weights together. */
  function WeightSum(model: Model, prefix: seq<Hop>, at: int, decay: int -> real, k: nat): real
    requires k <= |prefix|
  {
    if k == 0 then 0.0 else WeightSum(model, prefix, at, decay, k - 1) + WeightAt(model, prefix, at, decay, k - 1)
  }

  lemma DivideAdd(a: real, b: real, s: real)
    requires s > 0.0
    ensures a / s + b / s == (a + b) / s
  {
    var x, y := a / s, b / s;
    assert x * s == a && y * s == b;
    assert (x + y) * s == a + b;
  }

  /** What the first `k` of `n` touches hold, in closed form. */
  ghost function Share(model: Model, prefix: seq<Hop>, at: int, decay: int -> real, k: nat): real
    requires k <= |prefix| && 0 < |prefix| && Positive(decay)
  {
    var n := |prefix|;
    match model
    case FirstTouch => if k == 0 then 0.0 else 1.0
    case LastTouch => if k < n then 0.0 else 1.0
    case Linear => k as real / n as real
    case Position =>
      if k == 0 then 0.0 else if k == n then 1.0 else if n == 2 then 0.5 else 0.4 + (k - 1) as real * (0.2 / (n - 2) as real)
    case TimeDecay =>
      DecaySumPositive(prefix, at, decay);
      DecaySum(prefix[..k], at, decay) / DecaySum(prefix, at, decay)
  }

  lemma ShareGrows(model: Model, prefix: seq<Hop>, at: int, decay: int -> real, k: nat)
    requires 0 < k <= |prefix| && Positive(decay)
    ensures Share(model, prefix, at, decay, k - 1) + WeightAt(model, prefix, at, decay, k - 1) == Share(model, prefix, at, decay, k)
  {
    var n := |prefix|;
    if model.TimeDecay? {
      DecayShareGrows(prefix, at, decay, k);
    } else if model.Linear? {
      DivideAdd((k - 1) as real, 1.0, n as real);
    } else if model.Position? && n > 2 {
      MiddleShares(n, k);
    }
  }

  lemma DecayShareGrows(prefix: seq<Hop>, at: int, decay: int -> real, k: nat)
    requires 0 < k <= |prefix| && Positive(decay)
    ensures DecaySum(prefix, at, decay) > 0.0
    ensures DecaySum(prefix[..k - 1], at, decay) / DecaySum(prefix, at, decay) + decay(Seconds(prefix[k - 1].time, at)) / DecaySum(prefix, at, decay)
            == DecaySum(prefix[..k], at, decay) / DecaySum(prefix, at, decay)
  {
    DecaySumPositive(prefix, at, decay);
    assert prefix[..k][..k - 1] == prefix[..k - 1];
    DivideAdd(DecaySum(prefix[..k - 1], at, decay), decay(Seconds(prefix[k - 1].time, at)), DecaySum(prefix, at, decay));
  }

  lemma {:induction false} SharesAddUp(model: Model, prefix: seq<Hop>, at: int, decay: int -> real, k: nat)
    requires k <= |prefix| && 0 < |prefix| && Positive(decay)
    ensures WeightSum(model, prefix, at, decay, k) == Share(model, prefix, at, decay, k)
  {
    DecaySumPositive(prefix, at, decay);
    if k > 0 {
      SharesAddUp(model, prefix, at, decay, k - 1);
      ShareGrows(model, prefix, at, decay, k);
    }
  }

  lemma MiddleShares(n: nat, k: nat)
    requires n > 2 && 1 <= k <= n
    ensures var part := 0.2 / (n - 2) as real;
            1 < k < n ==> (k - 2) as real * part + part == (k - 1) as real * part
    ensures (n - 2) as real * (0.2 / (n - 2) as real) == 0.2
  {
  }

  /** Whatever the model, a conversion with any touch before it hands out exactly one credit. */
  lemma WeightsSumToOne(model: Model, prefix: seq<Hop>, at: int, decay: int -> real)
    requires prefix != [] && Positive(decay)
    ensures WeightSum(model, prefix, at, decay, |prefix|) == 1.0
  {
    SharesAddUp(model, prefix, at, decay, |prefix|);
    assert prefix[..|prefix|] == prefix;
    DecaySumPositive(prefix, at, decay);
    var sum := if model.TimeDecay? then DecaySum(prefix, at, decay) else |prefix| as real;
    assert sum / sum == 1.0;
  }

  /**
   * Which touch gets what. The first or the last takes all; linear weights are equal; by position the two ends
   * get 0.4 each and the touches between them equal parts; under time decay weights are in proportion to the
   * decay over the seconds that passed. With their sum this determines them.
   */
  lemma WeightsAre(prefix: seq<Hop>, at: int, decay: int -> real, i: nat, j: nat)
    requires i < |prefix| && j < |prefix| && Positive(decay)
    ensures WeightAt(FirstTouch, prefix, at, decay, i) == (if i == 0 then 1.0 else 0.0)
    ensures WeightAt(LastTouch, prefix, at, decay, i) == (if i == |prefix| - 1 then 1.0 else 0.0)
    ensures WeightAt(Linear, prefix, at, decay, i) == WeightAt(Linear, prefix, at, decay, j)
    ensures WeightAt(Position, prefix, at, decay, 0) == WeightAt(Position, prefix, at, decay, |prefix| - 1)
    ensures |prefix| > 2 ==> WeightAt(Position, prefix, at, decay, 0) == 0.4
    ensures 0 < i < |prefix| - 1 && 0 < j < |prefix| - 1 ==>
      WeightAt(Position, prefix, at, decay, i) == WeightAt(Position, prefix, at, decay, j)
    ensures WeightAt(TimeDecay, prefix, at, decay, i) * decay(at / 1000 - prefix[j].time / 1000)
            == WeightAt(TimeDecay, prefix, at, decay, j) * decay(at / 1000 - prefix[i].time / 1000)
  {
    DecaySumPositive(prefix, at, decay);
    var x, y, s := decay(Seconds(prefix[i].time, at)), decay(Seconds(prefix[j].time, at)), DecaySum(prefix, at, decay);
    Proportional(x, y, s);
  }

  lemma Proportional(x: real, y: real, s: real)
    requires s > 0.0
    ensures (x / s) * y == (y / s) * x
  {
    var a, b := x / s, y / s;
    assert a * s == x && b * s == y;
    assert a * y == a * (b * s) && b * x == b * (a * s);
  }

  /** No touch has a negative weight, and under time decay a later touch has no less than an earlier one. */
  lemma WeightsAreFair(model: Model, prefix: seq<Hop>, at: int, decay: int -> real, i: nat, j: nat)
    requires i <= j < |prefix| && Sorted(prefix) && Positive(decay)
    requires forall s, t :: s <= t ==> decay(t) <= decay(s)
    ensures WeightAt(model, prefix, at, decay, i) >= 0.0
    ensures model.TimeDecay? ==> WeightAt(model, prefix, at, decay, i) <= WeightAt(model, prefix, at, decay, j)
  {
    var sum := DecaySum(prefix, at, decay);
    DecaySumPositive(prefix, at, decay);
    var early, late := decay(Seconds(prefix[i].time, at)), decay(Seconds(prefix[j].time, at));
    assert prefix[i].time <= prefix[j].time;
    assert Seconds(prefix[j].time, at) <= Seconds(prefix[i].time, at);
    assert early > 0.0;
    DivideMonotone(early, late, sum);
  }

  lemma DivideMonotone(a: real, b: real, s: real)
    requires 0.0 <= a <= b && s > 0.0
    ensures 0.0 <= a / s <= b / s
  {
    var x, y := a / s, b / s;
    assert x * s == a && y * s == b;
    assert (y - x) * s == b - a;
    SignOf(x, s);
    SignOf(y - x, s);
  }

  lemma SignOf(x: real, s: real)
    requires s > 0.0 && x * s >= 0.0
    ensures x >= 0.0
  {
  }

  // ----- the touches of a conversion -----

  function Before(hops: seq<Hop>, at: int): seq<Hop> {
    if hops == [] then [] else (if hops[0].time <= at then [hops[0]] else []) + Before(hops[1..], at)
  }

  ghost predicate Sorted(hops: seq<Hop>) { forall i, j :: 0 <= i < j < |hops| ==> hops[i].time <= hops[j].time }

  /** Filtering a session sorted by time gives a prefix of it, and nothing after it is as early. */
  lemma {:induction false} BeforeIsPrefix(hops: seq<Hop>, at: int)
    requires Sorted(hops)
    ensures Before(hops, at) <= hops
    ensures forall i :: |Before(hops, at)| <= i < |hops| ==> hops[i].time > at
  {
    if hops != [] {
      BeforeIsPrefix(hops[1..], at);
      var rest := Before(hops[1..], at);
      if hops[0].time <= at {
        assert hops == [hops[0]] + hops[1..];
        forall i | |rest| + 1 <= i < |hops| ensures hops[i].time > at { assert hops[1..][i - 1] == hops[i]; }
      } else {
        forall i | 0 <= i < |hops| ensures hops[i].time > at {}
        NoneBefore(hops[1..], at);
      }
    }
  }

  lemma {:induction false} NoneBefore(hops: seq<Hop>, at: int)
    requires forall i :: 0 <= i < |hops| ==> hops[i].time > at
    ensures Before(hops, at) == []
  {
    if hops != [] { NoneBefore(hops[1..], at); }
  }

  lemma {:induction false} BeforeHas(hops: seq<Hop>, at: int)
    ensures Before(hops, at) != [] <==> exists h :: h in hops && h.time <= at
  {
    if hops != [] {
      BeforeHas(hops[1..], at);
      assert forall h :: h in hops <==> h == hops[0] || h in hops[1..];
    }
  }

  /** Every session with a touch has its touches together, sorted by time; the empty session is left out. */
  ghost predicate GroupsSessions(hops: seq<Hop>, sessions: map<string, seq<Hop>>) {
    && (forall s :: s in sessions ==> s != "" && Sorted(sessions[s]))
    && (forall h :: h in hops && h.session != "" ==> h.session in sessions)
    && (forall s, h: Hop :: s in sessions ==> (multiset(sessions[s])[h] == if h.session == s then multiset(hops)[h] else 0))
  }

  function PrefixOf(sessions: map<string, seq<Hop>>, c: Conversion): seq<Hop> {
    if c.session in sessions then Before(sessions[c.session], c.time) else []
  }

  /** A touch of the conversion's own session came no later than it. */
  ghost predicate HasTouch(hops: seq<Hop>, c: Conversion) {
    c.session != "" && exists h :: h in hops && h.session == c.session && h.time <= c.time
  }

  lemma TouchedHasPrefix(hops: seq<Hop>, sessions: map<string, seq<Hop>>, c: Conversion)
    requires GroupsSessions(hops, sessions)
    ensures PrefixOf(sessions, c) != [] <==> HasTouch(hops, c)
  {
    if c.session in sessions {
      var group := sessions[c.session];
      BeforeHas(group, c.time);
      forall h: Hop ensures h in group <==> h in hops && h.session == c.session {
        assert multiset(group)[h] == if h.session == c.session then multiset(hops)[h] else 0;
        assert h in group <==> h in multiset(group);
        assert h in hops <==> h in multiset(hops);
      }
    }
  }

  // ----- the credit of a group -----

  function RowsOf(model: Model, prefix: seq<Hop>, at: int, decay: int -> real, k: nat): seq<Row>
    requires k <= |prefix|
  {
    if k == 0 then []
    else RowsOf(model, prefix, at, decay, k - 1) + [Row(prefix[k - 1].key, WeightAt(model, prefix, at, decay, k - 1))]
  }

  /** One row for each conversion and touch that precedes it. */
  function Linked(model: Model, convs: seq<Conversion>, sessions: map<string, seq<Hop>>, decay: int -> real): seq<Row> {
    if convs == [] then []
    else
      var c := convs[|convs| - 1];
      var prefix := PrefixOf(sessions, c);
      Linked(model, convs[..|convs| - 1], sessions, decay) + RowsOf(model, prefix, c.time, decay, |prefix|)
  }

  function Total(rows: seq<Row>): real { if rows == [] then 0.0 else Total(rows[..|rows| - 1]) + rows[|rows| - 1].weight }

  function GroupSum(rows: seq<Row>, key: string): real {
    if rows == [] then 0.0
    else GroupSum(rows[..|rows| - 1], key) + if rows[|rows| - 1].key == key then rows[|rows| - 1].weight else 0.0
  }

  function GroupTotal(rows: seq<Row>, keys: seq<string>): real {
    if keys == [] then 0.0 else GroupTotal(rows, keys[..|keys| - 1]) + GroupSum(rows, keys[|keys| - 1])
  }

  /** The groups of a result: each key once, none missing. */
  ghost predicate IsGroups(rows: seq<Row>, keys: seq<string>) {
    (forall i, j :: 0 <= i < j < |keys| ==> keys[i] != keys[j]) && forall i :: 0 <= i < |rows| ==> rows[i].key in keys
  }

  lemma {:induction false} OneRow(rows: seq<Row>, row: Row, keys: seq<string>)
    requires forall i, j :: 0 <= i < j < |keys| ==> keys[i] != keys[j]
    ensures GroupTotal(rows + [row], keys) == GroupTotal(rows, keys) + if row.key in keys then row.weight else 0.0
  {
    if keys != [] {
      var last := |keys| - 1;
      OneRow(rows, row, keys[..last]);
      assert (rows + [row])[..|rows|] == rows;
      assert keys == keys[..last] + [keys[last]];
      assert keys[last] !in keys[..last];
    }
  }

  lemma {:induction false} NoRows(keys: seq<string>)
    ensures GroupTotal([], keys) == 0.0
  {
    if keys != [] { NoRows(keys[..|keys| - 1]); }
  }

  /** Grouping neither adds nor loses credit. */
  lemma {:induction false} GroupsKeepTotal(rows: seq<Row>, keys: seq<string>)
    requires IsGroups(rows, keys)
    ensures GroupTotal(rows, keys) == Total(rows)
  {
    if rows == [] {
      NoRows(keys);
    } else {
      var n := |rows| - 1;
      GroupsKeepTotal(rows[..n], keys);
      assert rows == rows[..n] + [rows[n]];
      OneRow(rows[..n], rows[n], keys);
    }
  }

  lemma {:induction false} TotalConcat(a: seq<Row>, b: seq<Row>)
    ensures Total(a + b) == Total(a) + Total(b)
  {
    if b == [] {
      assert a + b == a;
    } else {
      assert (a + b)[..|a + b| - 1] == a + b[..|b| - 1];
      TotalConcat(a, b[..|b| - 1]);
    }
  }

  lemma {:induction false} RowsTotal(model: Model, prefix: seq<Hop>, at: int, decay: int -> real, k: nat)
    requires k <= |prefix|
    ensures Total(RowsOf(model, prefix, at, decay, k)) == WeightSum(model, prefix, at, decay, k)
  {
    if k > 0 {
      RowsTotal(model, prefix, at, decay, k - 1);
      var rows := RowsOf(model, prefix, at, decay, k - 1);
      assert (rows + [Row(prefix[k - 1].key, WeightAt(model, prefix, at, decay, k - 1))])[..|rows|] == rows;
    }
  }

  /** Row `i` is touch `i`: its key, with its weight. */
  lemma {:induction false} RowsAreTouches(model: Model, prefix: seq<Hop>, at: int, decay: int -> real, k: nat)
    requires k <= |prefix|
    ensures var rows := RowsOf(model, prefix, at, decay, k);
            |rows| == k && forall i :: 0 <= i < k ==> rows[i] == Row(prefix[i].key, WeightAt(model, prefix, at, decay, i))
  {
    if k > 0 { RowsAreTouches(model, prefix, at, decay, k - 1); }
  }

  /** What the touches with a key hold of one conversion. */
  ghost function TouchCredit(model: Model, prefix: seq<Hop>, at: int, decay: int -> real, key: string, from: nat): real
    requires from <= |prefix|
    decreases |prefix| - from
  {
    if from == |prefix| then 0.0
    else (if prefix[from].key == key then WeightAt(model, prefix, at, decay, from) else 0.0) + TouchCredit(model, prefix, at, decay, key, from + 1)
  }

  ghost function KeyCredit(model: Model, convs: seq<Conversion>, sessions: map<string, seq<Hop>>, decay: int -> real, key: string): real {
    if convs == [] then 0.0
    else
      var c := convs[0];
      TouchCredit(model, PrefixOf(sessions, c), c.time, decay, key, 0) + KeyCredit(model, convs[1..], sessions, decay, key)
  }

  lemma {:induction false} GroupConcat(a: seq<Row>, b: seq<Row>, key: string)
    ensures GroupSum(a + b, key) == GroupSum(a, key) + GroupSum(b, key)
  {
    if b == [] {
      assert a + b == a;
    } else {
      assert (a + b)[..|a + b| - 1] == a + b[..|b| - 1];
      GroupConcat(a, b[..|b| - 1], key);
    }
  }

  lemma {:induction false} RowsGroup(model: Model, prefix: seq<Hop>, at: int, decay: int -> real, k: nat, key: string)
    requires k <= |prefix|
    ensures GroupSum(RowsOf(model, prefix, at, decay, k), key) + TouchCredit(model, prefix, at, decay, key, k)
            == TouchCredit(model, prefix, at, decay, key, 0)
  {
    if k > 0 {
      RowsGroup(model, prefix, at, decay, k - 1, key);
      var rows := RowsOf(model, prefix, at, decay, k - 1);
      assert (rows + [Row(prefix[k - 1].key, WeightAt(model, prefix, at, decay, k - 1))])[..|rows|] == rows;
    }
  }

  lemma {:induction false} KeyCreditLast(model: Model, convs: seq<Conversion>, sessions: map<string, seq<Hop>>, decay: int -> real, key: string)
    requires convs != []
    ensures var n := |convs| - 1; var c := convs[n];
            KeyCredit(model, convs, sessions, decay, key)
            == KeyCredit(model, convs[..n], sessions, decay, key) + TouchCredit(model, PrefixOf(sessions, c), c.time, decay, key, 0)
  {
    var n := |convs| - 1;
    if n > 0 {
      KeyCreditLast(model, convs[1..], sessions, decay, key);
      assert convs[1..][..n - 1] == convs[..n][1..];
    } else {
      assert convs[1..] == [] && convs[..n] == [];
    }
  }

  /** A group's credit is what the touches with its key hold of all conversions. */
  lemma {:induction false} GroupIsKeyCredit(model: Model, convs: seq<Conversion>, sessions: map<string, seq<Hop>>, decay: int -> real, key: string)
    ensures GroupSum(Linked(model, convs, sessions, decay), key) == KeyCredit(model, convs, sessions, decay, key)
  {
    if convs != [] {
      var n := |convs| - 1;
      var c := convs[n];
      var prefix := PrefixOf(sessions, c);
      GroupIsKeyCredit(model, convs[..n], sessions, decay, key);
      KeyCreditLast(model, convs, sessions, decay, key);
      RowsGroup(model, prefix, c.time, decay, |prefix|, key);
      GroupConcat(Linked(model, convs[..n], sessions, decay), RowsOf(model, prefix, c.time, decay, |prefix|), key);
    }
  }

  ghost function Touched(hops: seq<Hop>, convs: seq<Conversion>): nat {
    if convs == [] then 0 else Touched(hops, convs[..|convs| - 1]) + if HasTouch(hops, convs[|convs| - 1]) then 1 else 0
  }

  lemma {:induction false} LinkedTotal(model: Model, convs: seq<Conversion>, hops: seq<Hop>, sessions: map<string, seq<Hop>>, decay: int -> real)
    requires GroupsSessions(hops, sessions) && Positive(decay)
    ensures Total(Linked(model, convs, sessions, decay)) == Touched(hops, convs) as real
  {
    if convs != [] {
      var c := convs[|convs| - 1];
      var prefix := PrefixOf(sessions, c);
      LinkedTotal(model, convs[..|convs| - 1], hops, sessions, decay);
      TouchedHasPrefix(hops, sessions, c);
      TotalConcat(Linked(model, convs[..|convs| - 1], sessions, decay), RowsOf(model, prefix, c.time, decay, |prefix|));
      RowsTotal(model, prefix, c.time, decay, |prefix|);
      if prefix != [] { WeightsSumToOne(model, prefix, c.time, decay); }
    }
  }

  /** Over all groups of the result, the credit handed out is the number of conversions with a touch before them. */
  lemma CreditIsConversions(model: Model, convs: seq<Conversion>, hops: seq<Hop>, sessions: map<string, seq<Hop>>, decay: int -> real,
                            keys: seq<string>)
    requires GroupsSessions(hops, sessions) && Positive(decay) && IsGroups(Linked(model, convs, sessions, decay), keys)
    ensures GroupTotal(Linked(model, convs, sessions, decay), keys) == Touched(hops, convs) as real
  {
    GroupsKeepTotal(Linked(model, convs, sessions, decay), keys);
    LinkedTotal(model, convs, hops, sessions, decay);
  }
}
