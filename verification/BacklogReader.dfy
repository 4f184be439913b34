/** Finding the slices still to be cleaned: keyset paging over the event log, minus what is complete. */
module BacklogReader {
  import opened Options

  /** Calendar days are numbered; what is cleaned as a unit is one session of one day. */
  datatype Slice = Slice(day: int, session: string)

  datatype Key = Key(time: int, session: string, event: string)

  datatype Row = Row(key: Key, day: int)

  function SliceOf(row: Row): Slice { Slice(row.day, row.key.session) }

  /** `target` narrows a scan to one day. */
  datatype Range = Range(run: int, through: int, target: Option<int>) {
    predicate Has(day: int) { day <= through && (target.Some? ==> day == target.value) }
  }

  // ----- the sort order -----

  predicate Before(a: string, b: string) {
    b != [] && (a == [] || a[0] < b[0] || (a[0] == b[0] && Before(a[1..], b[1..])))
  }

  lemma {:induction false} BeforeTotal(a: string, b: string)
    ensures Before(a, b) || a == b || Before(b, a)
    ensures !(Before(a, b) && Before(b, a)) && !Before(a, a)
  {
    if a != [] {
      BeforeTotal(a[1..], a[1..]);
      if b != [] {
        BeforeTotal(a[1..], b[1..]);
        if a[1..] == b[1..] && a[0] == b[0] { assert a == [a[0]] + a[1..] == b; }
      }
    }
  }

  lemma {:induction false} BeforeTransitive(a: string, b: string, c: string)
    requires Before(a, b) && Before(b, c)
    ensures Before(a, c)
  {
    if a != [] && b != [] && a[0] == b[0] == c[0] { BeforeTransitive(a[1..], b[1..], c[1..]); }
  }

  predicate KeyBefore(a: Key, b: Key) {
    || a.time < b.time
    || (a.time == b.time && (Before(a.session, b.session) || (a.session == b.session && Before(a.event, b.event))))
  }

  lemma KeyTotal(a: Key, b: Key)
    ensures KeyBefore(a, b) || a == b || KeyBefore(b, a)
    ensures !(KeyBefore(a, b) && KeyBefore(b, a)) && !KeyBefore(a, a)
  {
    BeforeTotal(a.session, b.session);
    BeforeTotal(a.event, b.event);
    BeforeTotal(a.session, a.session);
    BeforeTotal(a.event, a.event);
  }

  lemma KeyTransitive(a: Key, b: Key, c: Key)
    requires !KeyBefore(b, a) && KeyBefore(b, c)
    ensures KeyBefore(a, c)
  {
    KeyTotal(a, b);
    if a != b && a.time == b.time == c.time {
      if Before(a.session, b.session) && Before(b.session, c.session) { BeforeTransitive(a.session, b.session, c.session); }
      if Before(a.event, b.event) && Before(b.event, c.event) { BeforeTransitive(a.event, b.event, c.event); }
    }
  }

  /** The event log as the sort key orders it; a row's day follows from its time. */
  ghost predicate IsLog(log: seq<Row>) { forall i, j :: 0 <= i < j < |log| ==> InOrder(log[i], log[j]) }

  ghost predicate InOrder(a: Row, b: Row) {
    && !KeyBefore(b.key, a.key)
    && (b.key.time <= a.key.time ==> b.day <= a.day) && (a.key.time <= b.key.time ==> a.day <= b.day)
  }

  /** Rows with the same sort key belong to the same slice. */
  lemma SameKeySameSlice(log: seq<Row>, i: nat, j: nat)
    requires IsLog(log) && i < |log| && j < |log| && log[i].key == log[j].key
    ensures SliceOf(log[i]) == SliceOf(log[j])
  {
    if i < j { assert InOrder(log[i], log[j]); }
    if j < i { assert InOrder(log[j], log[i]); }
  }

  // ----- the paged query -----

  predicate Matches(row: Row, range: Range, cursor: Option<Key>) {
    range.Has(row.day) && (cursor.Some? ==> KeyBefore(cursor.value, row.key))
  }

  function Matching(log: seq<Row>, range: Range, cursor: Option<Key>): seq<Row> {
    if log == [] then []
    else (if Matches(log[0], range, cursor) then [log[0]] else []) + Matching(log[1..], range, cursor)
  }

  function Query(log: seq<Row>, range: Range, cursor: Option<Key>, limit: nat): seq<Row> {
    var all := Matching(log, range, cursor);
    if |all| <= limit then all else all[..limit]
  }

  lemma {:induction false} MatchingHas(log: seq<Row>, range: Range, cursor: Option<Key>, r: Row)
    ensures r in Matching(log, range, cursor) <==> r in log && Matches(r, range, cursor)
  {
    if log != [] {
      MatchingHas(log[1..], range, cursor, r);
      assert log == [log[0]] + log[1..];
    }
  }

  lemma PrependInOrder(r: Row, rows: seq<Row>)
    requires IsLog(rows) && forall b :: b in rows ==> InOrder(r, b)
    ensures IsLog([r] + rows)
  {
    var all := [r] + rows;
    forall i, j | 0 <= i < j < |all| ensures InOrder(all[i], all[j]) { assert all[j] in rows; }
  }

  lemma {:induction false} MatchingIsSorted(log: seq<Row>, range: Range, cursor: Option<Key>)
    requires IsLog(log)
    ensures IsLog(Matching(log, range, cursor))
  {
    if log != [] {
      var later := Matching(log[1..], range, cursor);
      MatchingIsSorted(log[1..], range, cursor);
      forall b | b in later ensures InOrder(log[0], b) {
        MatchingHas(log[1..], range, cursor, b);
        var j :| 0 <= j < |log[1..]| && log[1..][j] == b;
        assert log[j + 1] == b;
      }
      PrependInOrder(log[0], later);
    }
  }

  ghost function SlicesOf(rows: seq<Row>): set<Slice> { set r | r in rows :: SliceOf(r) }

  /** Every slice with a row in the range. */
  ghost function SlicesIn(log: seq<Row>, range: Range): set<Slice> {
    set r | r in log && range.Has(r.day) :: SliceOf(r)
  }

  /** The slices of the rows at or before the cursor. */
  ghost function SlicesUpTo(log: seq<Row>, range: Range, cursor: Option<Key>): set<Slice> {
    set r | r in log && range.Has(r.day) && !Matches(r, range, cursor) :: SliceOf(r)
  }

  lemma LastIsGreatest(log: seq<Row>, rows: seq<Row>, n: nat, r: Row)
    requires IsLog(rows) && 0 < n <= |rows| && r in rows
    ensures r in rows[..n] || r.key == rows[n - 1].key || KeyBefore(rows[n - 1].key, r.key)
  {
    var j :| 0 <= j < |rows| && rows[j] == r;
    if j >= n { KeyTotal(rows[n - 1].key, r.key); } else { assert r == rows[..n][j]; }
  }

  lemma NotAfterLast(rows: seq<Row>, n: nat, r: Row)
    requires IsLog(rows) && 0 < n <= |rows| && r in rows[..n]
    ensures !KeyBefore(rows[n - 1].key, r.key)
  {
    var j :| 0 <= j < n && rows[j] == r;
    if j == n - 1 { KeyTotal(r.key, r.key); }
  }

  ghost predicate Gained(before: set<Slice>, page: set<Slice>, after: set<Slice>) { after == before + page }

  /**
   * One page moves the cursor over exactly the slices it read. Rows that share the last row's key are
   * skipped for good, and belong to a slice of this page.
   */
  lemma PageAdvances(log: seq<Row>, range: Range, cursor: Option<Key>, limit: nat)
    requires IsLog(log) && limit > 0
    ensures var page := Query(log, range, cursor, limit);
            && SlicesUpTo(log, range, cursor) + SlicesOf(page) <= SlicesIn(log, range)
            && (|page| < limit ==> SlicesUpTo(log, range, cursor) + SlicesOf(page) == SlicesIn(log, range))
            && (page != [] ==> Gained(SlicesUpTo(log, range, cursor), SlicesOf(page),
                                      SlicesUpTo(log, range, Some(page[|page| - 1].key))))
  {
    var page, all := Query(log, range, cursor, limit), Matching(log, range, cursor);
    assert page == all[..|page|];
    forall r | r in page ensures r in log && range.Has(r.day) && Matches(r, range, cursor) {
      MatchingHas(log, range, cursor, r);
    }
    if |page| < limit {
      forall s | s in SlicesIn(log, range) ensures s in SlicesUpTo(log, range, cursor) + SlicesOf(page) {
        var r :| r in log && range.Has(r.day) && SliceOf(r) == s;
        MatchingHas(log, range, cursor, r);
        if Matches(r, range, cursor) { assert r in page; }
      }
    }
    if page != [] { PageMovesCursor(log, range, cursor, limit); }
  }

  lemma PageMovesCursor(log: seq<Row>, range: Range, cursor: Option<Key>, limit: nat)
    requires IsLog(log) && Query(log, range, cursor, limit) != []
    ensures var page := Query(log, range, cursor, limit);
            Gained(SlicesUpTo(log, range, cursor), SlicesOf(page), SlicesUpTo(log, range, Some(page[|page| - 1].key)))
  {
    var page, all := Query(log, range, cursor, limit), Matching(log, range, cursor);
    var n := |page|;
    var last := page[n - 1];
    MatchingIsSorted(log, range, cursor);
    assert page == all[..n] && last == all[n - 1];
    MatchingHas(log, range, cursor, last);
    forall r | r in log && range.Has(r.day)
      ensures !Matches(r, range, cursor) ==> !Matches(r, range, Some(last.key))
      ensures r in page ==> !Matches(r, range, Some(last.key))
      ensures Matches(r, range, cursor) && !Matches(r, range, Some(last.key)) ==> SliceOf(r) in SlicesOf(page)
    {
      MatchingHas(log, range, cursor, r);
      if !Matches(r, range, cursor) && KeyBefore(last.key, r.key) {
        KeyTotal(cursor.value, last.key);
        KeyTransitive(cursor.value, last.key, r.key);
      }
      if r in page { NotAfterLast(all, n, r); }
      if Matches(r, range, cursor) {
        LastIsGreatest(log, all, n, r);
        if r.key == last.key {
          assert last in log;
          var i :| 0 <= i < |log| && log[i] == r;
          var j :| 0 <= j < |log| && log[j] == last;
          SameKeySameSlice(log, i, j);
          assert last in page;
        }
      }
    }
    forall r | r in page ensures r in log && range.Has(r.day) { MatchingHas(log, range, cursor, r); }
  }

  lemma {:induction false} MatchingShrinks(log: seq<Row>, range: Range, cursor: Option<Key>, last: Key)
    requires cursor.Some? ==> KeyBefore(cursor.value, last)
    ensures |Matching(log, range, Some(last))| <= |Matching(log, range, cursor)|
    ensures (exists r :: r in log && r.key == last && Matches(r, range, cursor))
            ==> |Matching(log, range, Some(last))| < |Matching(log, range, cursor)|
  {
    if log != [] {
      MatchingShrinks(log[1..], range, cursor, last);
      assert log == [log[0]] + log[1..];
      KeyTotal(last, last);
      if cursor.Some? && KeyBefore(last, log[0].key) {
        KeyTotal(cursor.value, last);
        KeyTransitive(cursor.value, last, log[0].key);
      }
    }
  }

  /** Pages of whatever sizes, from no cursor until a short one: it ends, and finds every slice of the range. */
  method Sweep(log: seq<Row>, range: Range) returns (found: set<Slice>)
    requires IsLog(log)
    ensures found == SlicesIn(log, range)
    ensures forall day, session :: Slice(day, session) in found <==>
      exists r :: r in log && r.day == day && r.key.session == session
                  && day <= range.through && (range.target.Some? ==> day == range.target.value)
  {
    var cursor := None;
    found := {};
    while true
      invariant found == SlicesUpTo(log, range, cursor)
      decreases |Matching(log, range, cursor)|
    {
      var limit: nat := *;
      if limit < 1 { limit := 1; }
      var page := Query(log, range, cursor, limit);
      PageAdvances(log, range, cursor, limit);
      found := found + set r | r in page :: SliceOf(r);
      if |page| < limit { return; }
      var last := page[|page| - 1];
      MatchingHas(log, range, cursor, last);
      MatchingShrinks(log, range, cursor, last.key);
      cursor := Some(last.key);
    }
  }

  // ----- which candidates of a page are still to be cleaned -----

  datatype Flag = Zero | One | Bad

  /** The answers of one pipeline, or no answer. */
  type Reply = (int, seq<string>) -> Option<seq<Flag>>

  function SessionsOf(candidates: seq<Slice>, day: int): seq<string> {
    if candidates == [] then []
    else
      var last := candidates[|candidates| - 1];
      SessionsOf(candidates[..|candidates| - 1], day) + if last.day == day then [last.session] else []
  }

  predicate Answered(reply: Reply, day: int, sessions: seq<string>) {
    var flags := reply(day, sessions);
    flags.Some? && |flags.value| == |sessions| && Bad !in flags.value
  }

  ghost predicate AllAnswered(candidates: seq<Slice>, reply: Reply) {
    forall c :: c in candidates ==> Answered(reply, c.day, SessionsOf(candidates, c.day))
  }

  /** An answer tells which sessions carry the incomplete marker. */
  ghost predicate Truthful(reply: Reply, marked: set<Slice>) {
    forall day, sessions :: Answered(reply, day, sessions) ==>
      forall i :: 0 <= i < |sessions| ==> (reply(day, sessions).value[i] == One <==> Slice(day, sessions[i]) in marked)
  }

  lemma {:induction false} SessionsOfHas(candidates: seq<Slice>, day: int, session: string)
    ensures session in SessionsOf(candidates, day) <==> Slice(day, session) in candidates
  {
    if candidates != [] {
      var front, last := candidates[..|candidates| - 1], candidates[|candidates| - 1];
      assert candidates == front + [last];
      SessionsOfHas(front, day, session);
    }
  }

  /** Asks one pipeline per day. Any pipeline that fails or answers oddly fails the whole reading. */
  method ReadIncomplete(ready: bool, candidates: seq<Slice>, reply: Reply, ghost marked: set<Slice>)
    returns (incomplete: Option<set<Slice>>)
    requires Truthful(reply, marked)
    ensures incomplete.Some? <==> ready && AllAnswered(candidates, reply)
    ensures incomplete.Some? ==> incomplete.value == set c | c in candidates && c in marked
    ensures incomplete.Some? ==> forall c :: c in candidates ==>
      var sessions := SessionsOf(candidates, c.day);
      var flags := reply(c.day, sessions);
      flags.Some? && |flags.value| == |sessions| && forall i :: 0 <= i < |sessions| ==> flags.value[i] == Zero || flags.value[i] == One
  {
    if !ready { return None; }
    var days, byDay := GroupByDay(candidates);
    var found: set<Slice> := {};
    for k := 0 to |days|
      invariant found == MarkedOn(candidates, marked, days[..k])
      invariant forall d :: d in days[..k] ==> Answered(reply, d, SessionsOf(candidates, d))
    {
      var day := days[k];
      assert days[..k + 1] == days[..k] + [day];
      GroupOf(candidates, days, byDay, day);
      var ones := AskDay(candidates, days[..k], day, byDay[day], reply, marked);
      if ones.None? { return None; }
      found := found + ones.value;
    }
    assert days[..|days|] == days;
    AllMarked(candidates, marked, days, byDay);
    incomplete := Some(found);
  }

  /** One pipeline's answer added to those of the earlier days. */
  method AskDay(ghost candidates: seq<Slice>, ghost earlier: seq<int>, day: int, sessions: seq<string>, reply: Reply, ghost marked: set<Slice>)
    returns (ones: Option<set<Slice>>)
    requires Truthful(reply, marked) && sessions == SessionsOf(candidates, day) != []
    ensures ones.Some? <==> Answered(reply, day, sessions)
    ensures ones.Some? ==> MarkedOn(candidates, marked, earlier + [day]) == MarkedOn(candidates, marked, earlier) + ones.value
    ensures ones.None? ==> !AllAnswered(candidates, reply)
  {
    if !Answered(reply, day, sessions) {
      SessionsOfHas(candidates, day, sessions[0]);
      return None;
    }
    var flags := reply(day, sessions).value;
    MarkedOnNext(candidates, marked, earlier, day, flags);
    ones := Some(Ones(day, sessions, flags));
  }

  function Ones(day: int, sessions: seq<string>, flags: seq<Flag>): set<Slice>
    requires |flags| == |sessions|
  {
    set i | 0 <= i < |sessions| && flags[i] == One :: Slice(day, sessions[i])
  }

  lemma GroupOf(candidates: seq<Slice>, days: seq<int>, byDay: map<int, seq<string>>, day: int)
    requires Grouped(candidates, days, byDay) && day in days
    ensures day in byDay && byDay[day] == SessionsOf(candidates, day) != []
  {
  }

  lemma AllMarked(candidates: seq<Slice>, marked: set<Slice>, days: seq<int>, byDay: map<int, seq<string>>)
    requires Grouped(candidates, days, byDay)
    ensures MarkedOn(candidates, marked, days) == set c | c in candidates && c in marked
  {
  }

  ghost function MarkedOn(candidates: seq<Slice>, marked: set<Slice>, days: seq<int>): set<Slice> {
    set c | c in candidates && c in marked && c.day in days
  }

  lemma MarkedOnNext(candidates: seq<Slice>, marked: set<Slice>, days: seq<int>, day: int, flags: seq<Flag>)
    requires |flags| == |SessionsOf(candidates, day)|
    requires forall i :: 0 <= i < |flags| ==> (flags[i] == One <==> Slice(day, SessionsOf(candidates, day)[i]) in marked)
    ensures MarkedOn(candidates, marked, days + [day])
            == MarkedOn(candidates, marked, days) + Ones(day, SessionsOf(candidates, day), flags)
  {
    var sessions := SessionsOf(candidates, day);
    forall c: Slice | c.day == day && c in marked
      ensures c in candidates <==> exists i :: 0 <= i < |sessions| && flags[i] == One && sessions[i] == c.session
    {
      SessionsOfHas(candidates, day, c.session);
    }
    forall i | 0 <= i < |sessions| ensures Slice(day, sessions[i]) in candidates {
      SessionsOfHas(candidates, day, sessions[i]);
    }
  }

  ghost predicate Grouped(candidates: seq<Slice>, days: seq<int>, byDay: map<int, seq<string>>) {
    && (forall d :: d in days <==> d in byDay)
    && (forall d :: d in byDay ==> byDay[d] == SessionsOf(candidates, d) && byDay[d] != [])
    && (forall c: Slice :: c in candidates ==> c.day in byDay)
  }

  lemma SessionsOfAppend(front: seq<Slice>, c: Slice, d: int)
    ensures SessionsOf(front + [c], d) == SessionsOf(front, d) + if c.day == d then [c.session] else []
  {
    assert (front + [c])[..|front|] == front;
  }

  lemma GroupNext(front: seq<Slice>, c: Slice, days: seq<int>, byDay: map<int, seq<string>>, days': seq<int>, byDay': map<int, seq<string>>)
    requires Grouped(front, days, byDay)
    requires days' == if c.day in byDay then days else days + [c.day]
    requires byDay' == byDay[c.day := (if c.day in byDay then byDay[c.day] else []) + [c.session]]
    ensures Grouped(front + [c], days', byDay')
  {
    if c.day !in byDay && SessionsOf(front, c.day) != [] {
      SessionsOfHas(front, c.day, SessionsOf(front, c.day)[0]);
    }
    forall d | d in byDay' ensures byDay'[d] == SessionsOf(front + [c], d) {
      SessionsOfAppend(front, c, d);
    }
  }

  method GroupByDay(candidates: seq<Slice>) returns (days: seq<int>, byDay: map<int, seq<string>>)
    ensures Grouped(candidates, days, byDay)
  {
    days, byDay := [], map[];
    for i := 0 to |candidates|
      invariant Grouped(candidates[..i], days, byDay)
    {
      var c := candidates[i];
      assert candidates[..i + 1] == candidates[..i] + [c];
      ghost var before := (days, byDay);
      if c.day !in byDay { days := days + [c.day]; }
      byDay := byDay[c.day := (if c.day in byDay then byDay[c.day] else []) + [c.session]];
      GroupNext(candidates[..i], c, before.0, before.1, days, byDay);
    }
    assert candidates[..|candidates|] == candidates;
  }

  // ----- a page -----

  datatype BacklogRow = BacklogRow(slice: Slice, rust: bool)

  datatype Page = Page(rows: seq<BacklogRow>, next: Option<Key>, done: bool)

  datatype PageResult = Read(page: Page) | BadLimit | NoMarkers

  /** What a reading rests on: the slices with final rows, and then the slices with a marker. */
  datatype Look = Look(stored: set<Slice>, marked: set<Slice>)

  ghost function Offered(rows: seq<BacklogRow>): set<Slice> { set r | r in rows :: r.slice }

  ghost predicate Shows(candidates: set<Slice>, stored: set<Slice>, marked: set<Slice>, rows: seq<BacklogRow>) {
    && (forall s :: s in Offered(rows) <==> s in candidates && (s !in stored || s in marked))
    && (forall i :: 0 <= i < |rows| ==> (rows[i].rust <==> rows[i].slice in marked))
    && (forall i, j :: 0 <= i < j < |rows| ==> rows[i].slice != rows[j].slice)
  }

  /**
   * What a page is: its candidates are the slices of the rows read; one is left out only when it has
   * final rows and no marker, and it is reserved for Rust nodes when it has a marker.
   */
  ghost predicate IsPage(log: seq<Row>, range: Range, cursor: Option<Key>, limit: nat, stored: set<Slice>, marked: set<Slice>, page: Page) {
    var source := Query(log, range, cursor, limit);
    && page.done == (|source| < limit)
    && page.next == (if source == [] then None else Some(source[|source| - 1].key))
    && Shows(SlicesOf(source), stored, marked, page.rows)
  }

  lemma {:induction false} FewSlices(rows: seq<Row>)
    ensures |SlicesOf(rows)| <= |rows|
  {
    if rows != [] {
      FewSlices(rows[1..]);
      assert rows == [rows[0]] + rows[1..];
      assert SlicesOf(rows) == {SliceOf(rows[0])} + SlicesOf(rows[1..]);
    }
  }

  lemma {:induction false} OfferedApart(rows: seq<BacklogRow>)
    requires forall i, j :: 0 <= i < j < |rows| ==> rows[i].slice != rows[j].slice
    ensures |Offered(rows)| == |rows|
  {
    if rows != [] {
      var last := |rows| - 1;
      OfferedApart(rows[..last]);
      assert rows == rows[..last] + [rows[last]];
      assert Offered(rows) == Offered(rows[..last]) + {rows[last].slice};
      assert rows[last].slice !in Offered(rows[..last]);
    }
  }

  lemma FewerInside(a: set<Slice>, b: set<Slice>)
    requires a <= b
    ensures |a| <= |b|
  {
    assert b == a + (b - a);
  }

  /** A page shows no more slices than rows were asked for, and each is that of a row of the log in the range. */
  lemma PageStaysInside(log: seq<Row>, range: Range, cursor: Option<Key>, limit: nat, stored: set<Slice>, marked: set<Slice>, page: Page)
    requires IsPage(log, range, cursor, limit, stored, marked, page)
    ensures |page.rows| <= limit
    ensures forall i :: 0 <= i < |page.rows| ==> Inside(log, range, page.rows[i].slice)
  {
    var source := Query(log, range, cursor, limit);
    FewSlices(source);
    OfferedApart(page.rows);
    FewerInside(Offered(page.rows), SlicesOf(source));
    forall i | 0 <= i < |page.rows| ensures Inside(log, range, page.rows[i].slice) {
      assert page.rows[i].slice in Offered(page.rows);
      var r :| r in source && SliceOf(r) == page.rows[i].slice;
      MatchingHas(log, range, cursor, r);
    }
  }

  ghost predicate Inside(log: seq<Row>, range: Range, s: Slice) {
    && s.day <= range.through && (range.target.Some? ==> s.day == range.target.value)
    && exists r :: r in log && r.day == s.day && r.key.session == s.session
  }

  function Pending(candidates: seq<Slice>, completed: set<Slice>, incomplete: set<Slice>): seq<BacklogRow> {
    if candidates == [] then []
    else
      var s := candidates[0];
      (if s !in completed || s in incomplete then [BacklogRow(s, s in incomplete)] else [])
      + Pending(candidates[1..], completed, incomplete)
  }

  lemma {:induction false} PendingHas(candidates: seq<Slice>, completed: set<Slice>, incomplete: set<Slice>, r: BacklogRow)
    ensures r in Pending(candidates, completed, incomplete)
            <==> r.slice in candidates && (r.slice !in completed || r.slice in incomplete) && r.rust == (r.slice in incomplete)
  {
    if candidates != [] { PendingHas(candidates[1..], completed, incomplete, r); }
  }

  ghost predicate Distinct(slices: seq<Slice>) { forall i, j :: 0 <= i < j < |slices| ==> slices[i] != slices[j] }

  lemma {:induction false} PendingIsDistinct(candidates: seq<Slice>, completed: set<Slice>, incomplete: set<Slice>)
    requires Distinct(candidates)
    ensures var rows := Pending(candidates, completed, incomplete);
            forall i, j :: 0 <= i < j < |rows| ==> rows[i].slice != rows[j].slice
  {
    if candidates != [] {
      var later := Pending(candidates[1..], completed, incomplete);
      PendingIsDistinct(candidates[1..], completed, incomplete);
      forall j | 0 <= j < |later| ensures later[j].slice != candidates[0] {
        PendingHas(candidates[1..], completed, incomplete, later[j]);
      }
    }
  }

  lemma PendingShows(candidates: seq<Slice>, stored: set<Slice>, marked: set<Slice>, completed: set<Slice>, incomplete: set<Slice>)
    requires Distinct(candidates)
    requires forall s :: s in candidates ==> (s in completed <==> s in stored) && (s in incomplete <==> s in marked)
    ensures Shows((set s | s in candidates), stored, marked, Pending(candidates, completed, incomplete))
  {
    var rows := Pending(candidates, completed, incomplete);
    PendingIsDistinct(candidates, completed, incomplete);
    forall s ensures s in Offered(rows) <==> s in candidates && (s !in stored || s in marked) {
      PendingHas(candidates, completed, incomplete, BacklogRow(s, s in incomplete));
      if s in Offered(rows) {
        var r :| r in rows && r.slice == s;
        PendingHas(candidates, completed, incomplete, r);
      }
    }
    forall i | 0 <= i < |rows| ensures rows[i].rust <==> rows[i].slice in marked {
      PendingHas(candidates, completed, incomplete, rows[i]);
    }
  }

  /** The slices of the rows, each once, in the order first met. */
  function FirstMet(source: seq<Row>): seq<Slice> {
    if source == [] then []
    else
      var front, last := FirstMet(source[..|source| - 1]), SliceOf(source[|source| - 1]);
      if last in front then front else front + [last]
  }

  /** The slices of the rows, and the days they span. */
  method Candidates(source: seq<Row>) returns (candidates: seq<Slice>, first: int, last: int)
    requires source != []
    ensures candidates == FirstMet(source) && Distinct(candidates) && forall s :: s in candidates <==> s in SlicesOf(source)
    ensures forall s :: s in candidates ==> first <= s.day <= last
  {
    candidates, first, last := [], source[0].day, source[0].day;
    for i := 0 to |source|
      invariant candidates == FirstMet(source[..i])
      invariant Distinct(candidates) && forall s :: s in candidates <==> s in SlicesOf(source[..i])
      invariant forall s :: s in candidates ==> first <= s.day <= last
    {
      var row := source[i];
      assert source[..i + 1] == source[..i] + [row] && source[..i + 1][..i] == source[..i];
      if SliceOf(row) !in candidates { candidates := candidates + [SliceOf(row)]; }
      if row.day < first { first := row.day; }
      if row.day > last { last := row.day; }
    }
    assert source[..|source|] == source;
  }

  /** `stored` is read from the final table first, `marked` from Redis afterwards. */
  method ReadPage(log: seq<Row>, range: Range, cursor: Option<Key>, limit: int, stored: set<Slice>,
                  ready: bool, reply: Reply, ghost marked: set<Slice>)
    returns (result: PageResult)
    requires Truthful(reply, marked)
    ensures result.BadLimit? <==> limit < 1
    ensures result.Read? ==> IsPage(log, range, cursor, limit, stored, marked, result.page)
    ensures result.Read? ==> |result.page.rows| <= limit && forall i :: 0 <= i < |result.page.rows| ==> Inside(log, range, result.page.rows[i].slice)
    ensures result.NoMarkers? <==>
      limit >= 1 && var source := Query(log, range, cursor, limit); source != [] && (!ready || !AllAnswered(FirstMet(source), reply))
  {
    if limit < 1 { return BadLimit; }
    var source := Query(log, range, cursor, limit);
    if |source| == 0 {
      result := Read(Page([], None, true));
      return;
    }
    var candidates, first, last := Candidates(source);
    var completed := set s | s in stored && first <= s.day <= last && s in candidates;
    var incomplete := ReadIncomplete(ready, candidates, reply, marked);
    if incomplete.None? { return NoMarkers; }
    PendingShows(candidates, stored, marked, completed, incomplete.value);
    assert SlicesOf(source) == set s | s in candidates;
    result := Read(Page(Pending(candidates, completed, incomplete.value), Some(source[|source| - 1].key), |source| < limit));
    PageStaysInside(log, range, cursor, limit, stored, marked, result.page);
  }
}
