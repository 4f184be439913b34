/** Which ranges of the backlog are still to be read, in what order, and what has been seen of each. */
module ScanPlan {
  import opened Options
  import opened BacklogReader

  const MAX_SCAN_RANGES: nat := 64

  datatype ScanKey = AllDays | OneDay(day: int)

  /** `next`: the range to start over with once everything the current one loaded is settled. */
  datatype Scan = Scan(range: Range, cursor: Option<Key>, failed: bool, next: Option<Range>, waiting: bool)

  datatype Entry = Entry(key: ScanKey, scan: Scan)

  datatype Request = Request(key: ScanKey, range: Range, cursor: Option<Key>, limit: nat)

  datatype Buffered = Buffered(key: ScanKey, page: Page, index: nat, through: int)

  /**
   * `seen`: the slices of each scan's range met so far. `swept`: the run of the last whole sweep.
   * `daily`: the day whose sweep is owed. `limit` and `look`: what the last page read was made of.
   */
  datatype Plan = Plan(scans: seq<Entry>, reading: Option<Request>, buffered: Option<Buffered>, limit: nat, look: Option<Look>,
                       seen: map<ScanKey, set<Slice>>, daily: Option<int>, swept: Option<int>)

  /** Run and slice pairs that owe nothing more, or are loaded and will be settled. */
  type Accounts = set<(int, Slice)>

  ghost predicate RangeFits(key: ScanKey, range: Range, today: int) {
    && range.run <= today
    && (if key == AllDays then range.target == None && range.through < today
        else range.target == Some(key.day) && range.through == key.day)
  }

  ghost predicate CursorOk(log: seq<Row>, range: Range, cursor: Option<Key>) {
    cursor.Some? ==> exists r :: r in log && range.Has(r.day) && r.key == cursor.value
  }

  /** The slices of the range that the scan must have met by now. */
  ghost function Passed(log: seq<Row>, scan: Scan): set<Slice> {
    if scan.waiting then SlicesIn(log, scan.range) else SlicesUpTo(log, scan.range, scan.cursor)
  }

  ghost predicate EntryOk(log: seq<Row>, acc: Accounts, run: int, today: int, seen: map<ScanKey, set<Slice>>, e: Entry) {
    && RangeFits(e.key, e.scan.range, today) && run <= e.scan.range.run
    && (e.scan.next.Some? ==> RangeFits(e.key, e.scan.next.value, today) && e.scan.range.run < e.scan.next.value.run
                              && e.scan.range.through <= e.scan.next.value.through)
    && (e.scan.waiting ==> e.scan.next.Some?)
    && CursorOk(log, e.scan.range, e.scan.cursor)
    && e.key in seen && Passed(log, e.scan) <= seen[e.key]
    && forall s :: s in seen[e.key] ==> (e.scan.range.run, s) in acc
  }

  function IndexOf(scans: seq<Entry>, key: ScanKey): (i: nat)
    ensures i <= |scans| && (i < |scans| ==> scans[i].key == key) && (i == |scans| ==> forall k :: 0 <= k < |scans| ==> scans[k].key != key)
  {
    if scans == [] || scans[0].key == key then 0 else 1 + IndexOf(scans[1..], key)
  }

  ghost predicate DistinctKeys(scans: seq<Entry>) { forall i, j :: 0 <= i < j < |scans| ==> scans[i].key != scans[j].key }

  /** The scan a page belongs to: the oldest run registered, and the run of whatever is loaded. */
  ghost predicate Leads(run: int, loaded: bool, scans: seq<Entry>, i: int) {
    && 0 <= i < |scans| && !scans[i].scan.waiting && (loaded ==> scans[i].scan.range.run == run)
    && forall k :: 0 <= k < |scans| ==> scans[i].scan.range.run <= scans[k].scan.range.run
  }

  ghost predicate ReadingOk(log: seq<Row>, run: int, loaded: bool, p: Plan) {
    p.reading.Some? ==>
      var r := p.reading.value;
      var i := IndexOf(p.scans, r.key);
      && p.buffered.None? && r.limit > 0 && Leads(run, loaded, p.scans, i)
      && r.cursor == p.scans[i].scan.cursor && CursorOk(log, r.range, r.cursor)
      && r.range == p.scans[i].scan.range.(through := r.range.through) && r.range.through <= p.scans[i].scan.range.through
      && (r.range.through < p.scans[i].scan.range.through ==> r.key == AllDays)
  }

  /** The page is what the reader makes of the look it took. */
  ghost predicate PageFits(log: seq<Row>, range: Range, cursor: Option<Key>, limit: nat, look: Option<Look>, page: Page) {
    limit > 0 && look.Some? && IsPage(log, range, cursor, limit, look.value.stored, look.value.marked, page)
  }

  /** A slice the page leaves out had final rows and, later, no marker. */
  lemma LeftOutIsDone(log: seq<Row>, range: Range, cursor: Option<Key>, limit: nat, look: Option<Look>, page: Page)
    requires PageFits(log, range, cursor, limit, look, page)
    ensures SlicesOf(Query(log, range, cursor, limit)) - Offered(page.rows) <= look.value.stored - look.value.marked
    ensures Offered(page.rows) <= SlicesOf(Query(log, range, cursor, limit))
  {
    var candidates := SlicesOf(Query(log, range, cursor, limit));
    assert Shows(candidates, look.value.stored, look.value.marked, page.rows);
    forall s | s in candidates - Offered(page.rows) ensures s in look.value.stored - look.value.marked {}
    forall s | s in Offered(page.rows) ensures s in candidates {}
  }

  ghost predicate BufferedOk(log: seq<Row>, acc: Accounts, run: int, loaded: bool, p: Plan) {
    p.buffered.Some? ==>
      var b := p.buffered.value;
      var i := IndexOf(p.scans, b.key);
      && Leads(run, loaded, p.scans, i) && b.index <= |b.page.rows|
      && b.through <= p.scans[i].scan.range.through && (b.through < p.scans[i].scan.range.through ==> b.key == AllDays)
      && CursorOk(log, p.scans[i].scan.range.(through := b.through), p.scans[i].scan.cursor)
      && PageFits(log, p.scans[i].scan.range.(through := b.through), p.scans[i].scan.cursor, p.limit, p.look, b.page)
      && forall k :: 0 <= k < b.index ==> (p.scans[i].scan.range.run, b.page.rows[k].slice) in acc
  }

  /** A sweep of every day up to the day before `day`, under a run no older than `day`. */
  ghost predicate Sweeps(range: Range, day: int) { range.run >= day && range.through >= day - 1 }

  ghost predicate WillSweep(e: Entry, day: int) {
    e.key == AllDays && (Sweeps(e.scan.range, day) || (e.scan.next.Some? && Sweeps(e.scan.next.value, day)))
  }

  /** Every slice of the log up to the day before is accounted for in run `run`. */
  ghost predicate SweptBy(log: seq<Row>, acc: Accounts, run: int, day: int) {
    run >= day && forall s :: s in SlicesOf(log) && s.day < day ==> (run, s) in acc
  }

  ghost predicate DailyOk(log: seq<Row>, acc: Accounts, p: Plan) {
    p.daily.Some? ==>
      || (exists i :: 0 <= i < |p.scans| && WillSweep(p.scans[i], p.daily.value))
      || (p.swept.Some? && SweptBy(log, acc, p.swept.value, p.daily.value))
  }

  ghost predicate EntriesOk(log: seq<Row>, acc: Accounts, run: int, today: int, p: Plan) {
    DistinctKeys(p.scans) && forall i :: 0 <= i < |p.scans| ==> EntryOk(log, acc, run, today, p.seen, p.scans[i])
  }

  ghost predicate PlanOk(log: seq<Row>, acc: Accounts, run: int, loaded: bool, today: int, p: Plan) {
    && EntriesOk(log, acc, run, today, p) && ReadingOk(log, run, loaded, p) && BufferedOk(log, acc, run, loaded, p)
    && DailyOk(log, acc, p) && (p.daily.Some? ==> p.daily.value <= today) && run <= today
  }

  // ----- the world moves on -----

  lemma PlanStays(log: seq<Row>, acc: Accounts, run: int, loaded: bool, today: int, p: Plan, acc': Accounts, loaded': bool, today': int)
    requires PlanOk(log, acc, run, loaded, today, p) && acc <= acc' && (loaded' ==> loaded) && today <= today'
    ensures PlanOk(log, acc', run, loaded', today', p)
  {
    forall i | 0 <= i < |p.scans| ensures EntryOk(log, acc', run, today', p.seen, p.scans[i]) {
      assert EntryOk(log, acc, run, today, p.seen, p.scans[i]);
    }
  }

  // ----- changing one scan -----

  lemma IndexIs(scans: seq<Entry>, i: nat)
    requires DistinctKeys(scans) && i < |scans|
    ensures IndexOf(scans, scans[i].key) == i
  {
    var j := IndexOf(scans, scans[i].key);
  }

  /** Another day of the sweep, or the same scan retried: nothing already passed changes. */
  lemma WiderRange(log: seq<Row>, range: Range, through: int, cursor: Option<Key>)
    requires IsLog(log) && range.target == None && range.through <= through && CursorOk(log, range, cursor)
    ensures SlicesUpTo(log, range.(through := through), cursor) == SlicesUpTo(log, range, cursor)
    ensures CursorOk(log, range.(through := through), cursor)
  {
    var wide := range.(through := through);
    if cursor.Some? {
      var c :| c in log && range.Has(c.day) && c.key == cursor.value;
      forall r | r in log && wide.Has(r.day) && !Matches(r, wide, cursor) ensures range.Has(r.day) {
        KeyTotal(cursor.value, r.key);
        NotAfter(log, r, c);
      }
      assert wide.Has(c.day);
    }
  }

  lemma NotAfter(log: seq<Row>, a: Row, b: Row)
    requires IsLog(log) && a in log && b in log && !KeyBefore(b.key, a.key)
    ensures a.day <= b.day
  {
    var i :| 0 <= i < |log| && log[i] == a;
    var j :| 0 <= j < |log| && log[j] == b;
    if i < j { assert InOrder(log[i], log[j]); }
    if j < i { assert InOrder(log[j], log[i]); }
  }

  /** Where a page takes its scan: the slices passed grow by the page's own, and a short page passes them all. */
  lemma PagePasses(log: seq<Row>, range: Range, cursor: Option<Key>, limit: nat, look: Option<Look>, page: Page)
    requires IsLog(log) && PageFits(log, range, cursor, limit, look, page) && CursorOk(log, range, cursor)
    ensures var cursor' := if page.next.Some? then page.next else cursor;
            var read := SlicesOf(Query(log, range, cursor, limit));
            && CursorOk(log, range, cursor')
            && SlicesUpTo(log, range, cursor') <= SlicesUpTo(log, range, cursor) + read
            && (page.done ==> SlicesIn(log, range) <= SlicesUpTo(log, range, cursor) + read)
  {
    PageAdvances(log, range, cursor, limit);
    var source := Query(log, range, cursor, limit);
    if source != [] {
      var last := source[|source| - 1];
      MatchingHas(log, range, cursor, last);
    }
  }

  /** A scan changes in place; a leader keeps its run, its cursor and at least its range. */
  ghost predicate Amends(log: seq<Row>, acc: Accounts, run: int, today: int, p: Plan, i: nat, e: Entry) {
    && i < |p.scans| && e.key == p.scans[i].key && EntryOk(log, acc, run, today, p.seen, e)
    && p.scans[i].scan.range.run == e.scan.range.run && p.scans[i].scan.cursor == e.scan.cursor
    && p.scans[i].scan.waiting == e.scan.waiting
    && e.scan.range == p.scans[i].scan.range.(through := e.scan.range.through)
    && p.scans[i].scan.range.through <= e.scan.range.through
    && (e.scan.range.through != p.scans[i].scan.range.through ==> e.key == AllDays)
    && forall d :: WillSweep(p.scans[i], d) ==> WillSweep(e, d)
  }

  lemma AmendIndex(scans: seq<Entry>, i: nat, e: Entry, key: ScanKey)
    requires DistinctKeys(scans) && i < |scans| && e.key == scans[i].key
    ensures DistinctKeys(scans[i := e]) && IndexOf(scans[i := e], key) == IndexOf(scans, key)
  {
    var j, j' := IndexOf(scans, key), IndexOf(scans[i := e], key);
    if j < |scans| { assert scans[i := e][j].key == key; }
    if j' < |scans| { assert scans[j'].key == key; }
  }

  lemma AmendReads(log: seq<Row>, acc: Accounts, run: int, loaded: bool, today: int, p: Plan, i: nat, e: Entry, p': Plan)
    requires PlanOk(log, acc, run, loaded, today, p) && Amends(log, acc, run, today, p, i, e) && p' == p.(scans := p.scans[i := e])
    ensures ReadingOk(log, run, loaded, p')
  {
    hide EntryOk, BufferedOk, DailyOk, WillSweep;
    AmendIndex(p.scans, i, e, e.key);
    if p.reading.Some? {
      var r := p.reading.value;
      AmendIndex(p.scans, i, e, r.key);
      LeadsStill(run, loaded, p.scans, p'.scans, IndexOf(p.scans, r.key));
    }
  }

  lemma AmendBuffers(log: seq<Row>, acc: Accounts, run: int, loaded: bool, today: int, p: Plan, i: nat, e: Entry, p': Plan)
    requires PlanOk(log, acc, run, loaded, today, p) && Amends(log, acc, run, today, p, i, e) && p' == p.(scans := p.scans[i := e])
    ensures BufferedOk(log, acc, run, loaded, p')
  {
    hide EntryOk, ReadingOk, DailyOk, WillSweep, PageFits;
    AmendIndex(p.scans, i, e, e.key);
    if p.buffered.Some? {
      var b := p.buffered.value;
      AmendIndex(p.scans, i, e, b.key);
      LeadsStill(run, loaded, p.scans, p'.scans, IndexOf(p.scans, b.key));
    }
  }

  lemma AmendKeeps(log: seq<Row>, acc: Accounts, run: int, loaded: bool, today: int, p: Plan, i: nat, e: Entry, p': Plan)
    requires PlanOk(log, acc, run, loaded, today, p) && Amends(log, acc, run, today, p, i, e) && p' == p.(scans := p.scans[i := e])
    ensures PlanOk(log, acc, run, loaded, today, p')
  {
    hide ReadingOk, BufferedOk, DailyOk, WillSweep;
    forall j | 0 <= j < |p'.scans| ensures EntryOk(log, acc, run, today, p'.seen, p'.scans[j]) {
      assert j != i ==> p'.scans[j] == p.scans[j];
    }
    AmendIndex(p.scans, i, e, e.key);
    AmendReads(log, acc, run, loaded, today, p, i, e, p');
    AmendBuffers(log, acc, run, loaded, today, p, i, e, p');
    AmendDaily(log, acc, p, i, e, p');
  }

  lemma AmendDaily(log: seq<Row>, acc: Accounts, p: Plan, i: nat, e: Entry, p': Plan)
    requires DailyOk(log, acc, p) && i < |p.scans| && p'.scans == p.scans[i := e] && p'.daily == p.daily && p'.swept == p.swept
    requires forall d :: WillSweep(p.scans[i], d) ==> WillSweep(e, d)
    ensures DailyOk(log, acc, p')
  {
    if p.daily.Some? && exists j :: 0 <= j < |p.scans| && WillSweep(p.scans[j], p.daily.value) {
      var j :| 0 <= j < |p.scans| && WillSweep(p.scans[j], p.daily.value);
      assert WillSweep(p'.scans[j], p.daily.value);
    }
  }

  /** A leader stays one while no run gets older. */
  lemma LeadsStill(run: int, loaded: bool, scans: seq<Entry>, scans': seq<Entry>, i: nat)
    requires Leads(run, loaded, scans, i) && |scans| <= |scans'| && scans'[i].scan.range.run == scans[i].scan.range.run
    requires !scans'[i].scan.waiting
    requires forall k :: 0 <= k < |scans| ==> scans[k].scan.range.run <= scans'[k].scan.range.run
    requires forall k :: |scans| <= k < |scans'| ==> scans[i].scan.range.run <= scans'[k].scan.range.run
    ensures Leads(run, loaded, scans', i)
  {
  }

  /** A failed page, or another chance for one: only the flag changes. */
  lemma FlagKeeps(log: seq<Row>, acc: Accounts, run: int, loaded: bool, today: int, p: Plan, i: nat, failed: bool)
    requires PlanOk(log, acc, run, loaded, today, p) && i < |p.scans|
    ensures PlanOk(log, acc, run, loaded, today, p.(scans := p.scans[i := Entry(p.scans[i].key, p.scans[i].scan.(failed := failed))]))
  {
    var e := Entry(p.scans[i].key, p.scans[i].scan.(failed := failed));
    assert EntryOk(log, acc, run, today, p.seen, p.scans[i]);
    AmendKeeps(log, acc, run, loaded, today, p, i, e, p.(scans := p.scans[i := e]));
  }

  /** A trigger on a later day: the range is gone over again once the current round is settled. */
  lemma NextKeeps(log: seq<Row>, acc: Accounts, run: int, loaded: bool, today: int, p: Plan, i: nat, next: Range)
    requires PlanOk(log, acc, run, loaded, today, p) && i < |p.scans|
    requires RangeFits(p.scans[i].key, next, today) && p.scans[i].scan.range.run < next.run && p.scans[i].scan.range.through <= next.through
    requires p.scans[i].scan.next.Some? ==> p.scans[i].scan.next.value.run <= next.run && p.scans[i].scan.next.value.through <= next.through
    ensures PlanOk(log, acc, run, loaded, today, p.(scans := p.scans[i := Entry(p.scans[i].key, p.scans[i].scan.(next := Some(next)))]))
  {
    var e := Entry(p.scans[i].key, p.scans[i].scan.(next := Some(next)));
    assert EntryOk(log, acc, run, today, p.seen, p.scans[i]);
    AmendKeeps(log, acc, run, loaded, today, p, i, e, p.(scans := p.scans[i := e]));
  }

  /** The same day's sweep reaches one day further. */
  lemma ExtendKeeps(log: seq<Row>, acc: Accounts, run: int, loaded: bool, today: int, p: Plan, i: nat, through: int)
    requires IsLog(log) && PlanOk(log, acc, run, loaded, today, p) && i < |p.scans| && p.scans[i].key == AllDays
    requires p.scans[i].scan.next.None? && p.scans[i].scan.range.through <= through < today
    ensures var scan := p.scans[i].scan;
            PlanOk(log, acc, run, loaded, today, p.(scans := p.scans[i := Entry(AllDays, scan.(range := scan.range.(through := through)))]))
  {
    var scan := p.scans[i].scan;
    assert EntryOk(log, acc, run, today, p.seen, p.scans[i]);
    WiderRange(log, scan.range, through, scan.cursor);
    var e := Entry(AllDays, scan.(range := scan.range.(through := through)));
    AmendKeeps(log, acc, run, loaded, today, p, i, e, p.(scans := p.scans[i := e]));
  }

  lemma AddIndex(scans: seq<Entry>, e: Entry, key: ScanKey)
    requires DistinctKeys(scans) && IndexOf(scans, e.key) == |scans|
    ensures DistinctKeys(scans + [e]) && (IndexOf(scans, key) < |scans| ==> IndexOf(scans + [e], key) == IndexOf(scans, key))
  {
    var j, j' := IndexOf(scans, key), IndexOf(scans + [e], key);
    if j < |scans| { assert (scans + [e])[j].key == key; }
    if j' < |scans| { assert scans[j'].key == key; }
  }

  function Fresh(key: ScanKey, range: Range): Entry { Entry(key, Scan(range, None, false, None, false)) }

  lemma FreshOk(log: seq<Row>, acc: Accounts, run: int, today: int, seen: map<ScanKey, set<Slice>>, key: ScanKey, range: Range)
    requires RangeFits(key, range, today) && run <= range.run
    ensures EntryOk(log, acc, run, today, seen[key := {}], Fresh(key, range))
  {
  }

  ghost predicate Adds(log: seq<Row>, acc: Accounts, run: int, loaded: bool, today: int, p: Plan, key: ScanKey, range: Range, p': Plan) {
    && PlanOk(log, acc, run, loaded, today, p) && IndexOf(p.scans, key) == |p.scans|
    && RangeFits(key, range, today) && range.run >= run
    && (forall k :: 0 <= k < |p.scans| ==> p.scans[k].scan.range.run <= range.run)
    && p' == p.(scans := p.scans + [Fresh(key, range)], seen := p.seen[key := {}])
  }

  lemma AddReads(log: seq<Row>, acc: Accounts, run: int, loaded: bool, today: int, p: Plan, key: ScanKey, range: Range, p': Plan)
    requires Adds(log, acc, run, loaded, today, p, key, range, p')
    ensures ReadingOk(log, run, loaded, p') && BufferedOk(log, acc, run, loaded, p')
  {
    hide EntryOk, DailyOk, PageFits;
    var e := Fresh(key, range);
    if p.reading.Some? {
      AddIndex(p.scans, e, p.reading.value.key);
      LeadsStill(run, loaded, p.scans, p'.scans, IndexOf(p.scans, p.reading.value.key));
    }
    if p.buffered.Some? {
      AddIndex(p.scans, e, p.buffered.value.key);
      LeadsStill(run, loaded, p.scans, p'.scans, IndexOf(p.scans, p.buffered.value.key));
    }
  }

  /** A new range is registered behind the others. */
  lemma AddKeeps(log: seq<Row>, acc: Accounts, run: int, loaded: bool, today: int, p: Plan, key: ScanKey, range: Range, p': Plan)
    requires Adds(log, acc, run, loaded, today, p, key, range, p')
    ensures PlanOk(log, acc, run, loaded, today, p')
  {
    hide ReadingOk, BufferedOk;
    var e := Fresh(key, range);
    FreshOk(log, acc, run, today, p.seen, key, range);
    forall j | 0 <= j < |p'.scans| ensures EntryOk(log, acc, run, today, p'.seen, p'.scans[j]) {
      if j < |p.scans| { assert EntryOk(log, acc, run, today, p.seen, p.scans[j]) && p.scans[j].key != key; }
    }
    AddIndex(p.scans, e, key);
    AddReads(log, acc, run, loaded, today, p, key, range, p');
    if p.daily.Some? && exists i :: 0 <= i < |p.scans| && WillSweep(p.scans[i], p.daily.value) {
      var i :| 0 <= i < |p.scans| && WillSweep(p.scans[i], p.daily.value);
      assert WillSweep(p'.scans[i], p.daily.value);
    }
  }

  /** Everything loaded is settled: a waiting scan starts over with its next range. */
  lemma RestartKeeps(log: seq<Row>, acc: Accounts, run: int, loaded: bool, today: int, p: Plan, i: nat, e: Entry, p': Plan)
    requires PlanOk(log, acc, run, loaded, today, p) && i < |p.scans| && p.scans[i].scan.waiting && p.reading.None?
    requires e == Entry(p.scans[i].key, Scan(p.scans[i].scan.next.value, None, p.scans[i].scan.failed, None, false))
    requires p' == p.(scans := p.scans[i := e], seen := p.seen[e.key := {}])
    ensures PlanOk(log, acc, run, loaded, today, p')
  {
    assert EntryOk(log, acc, run, today, p.seen, p.scans[i]);
    FreshOk(log, acc, run, today, p.seen, e.key, e.scan.range);
    forall j | 0 <= j < |p'.scans| ensures EntryOk(log, acc, run, today, p'.seen, p'.scans[j]) {
      if j != i { assert EntryOk(log, acc, run, today, p.seen, p.scans[j]) && p.scans[j].key != e.key; }
    }
    AmendIndex(p.scans, i, e, e.key);
    if p.buffered.Some? {
      var b := p.buffered.value;
      AmendIndex(p.scans, i, e, b.key);
      LeadsStill(run, loaded, p.scans, p'.scans, IndexOf(p.scans, b.key));
    }
    AmendDaily(log, acc, p, i, e, p');
  }

  // ----- all scans at once -----

  function Restarted(e: Entry): Entry {
    if e.scan.waiting && e.scan.next.Some? then Entry(e.key, Scan(e.scan.next.value, None, e.scan.failed, None, false)) else e
  }

  /** Every waiting scan from position `i` on starts over. */
  ghost function RestartFrom(p: Plan, i: nat): Plan
    requires i <= |p.scans|
    decreases |p.scans| - i
  {
    if i == |p.scans| then p
    else
      var e := p.scans[i];
      RestartFrom(if Restarted(e) == e then p else p.(scans := p.scans[i := Restarted(e)], seen := p.seen[e.key := {}]), i + 1)
  }

  /** Exactly the waiting scans take up their next range from its start; no other changes, and none changes its place. */
  ghost predicate StartsOver(scans: seq<Entry>, scans': seq<Entry>, from: nat) {
    && |scans'| == |scans|
    && forall k :: 0 <= k < |scans| ==>
         if k >= from && scans[k].scan.waiting && scans[k].scan.next.Some? then
           scans'[k].key == scans[k].key && scans'[k].scan.range == scans[k].scan.next.value && scans'[k].scan.cursor.None?
           && !scans'[k].scan.waiting && scans'[k].scan.next.None? && scans'[k].scan.failed == scans[k].scan.failed
         else scans'[k] == scans[k]
  }

  lemma {:induction false} RestartFromStartsOver(p: Plan, i: nat)
    requires i <= |p.scans|
    ensures StartsOver(p.scans, RestartFrom(p, i).scans, i)
    decreases |p.scans| - i
  {
    if i < |p.scans| {
      var e := p.scans[i];
      RestartFromStartsOver(if Restarted(e) == e then p else p.(scans := p.scans[i := Restarted(e)], seen := p.seen[e.key := {}]), i + 1);
    }
  }

  lemma {:induction false} RestartFromKeeps(log: seq<Row>, acc: Accounts, run: int, loaded: bool, today: int, p: Plan, i: nat)
    requires PlanOk(log, acc, run, loaded, today, p) && p.reading.None? && i <= |p.scans|
    ensures PlanOk(log, acc, run, loaded, today, RestartFrom(p, i))
    ensures RestartFrom(p, i).daily == p.daily && |RestartFrom(p, i).scans| == |p.scans|
    decreases |p.scans| - i
  {
    if i < |p.scans| {
      var e := p.scans[i];
      if Restarted(e) == e {
        RestartFromKeeps(log, acc, run, loaded, today, p, i + 1);
      } else {
        var p' := p.(scans := p.scans[i := Restarted(e)], seen := p.seen[e.key := {}]);
        RestartKeeps(log, acc, run, loaded, today, p, i, Restarted(e), p');
        RestartFromKeeps(log, acc, run, loaded, today, p', i + 1);
      }
    }
  }

  ghost predicate SomeSweep(scans: seq<Entry>, day: int) { exists i :: 0 <= i < |scans| && WillSweep(scans[i], day) }

  lemma {:induction false} RestartFromLeaves(p: Plan, i: nat)
    requires i <= |p.scans|
    ensures |RestartFrom(p, i).scans| == |p.scans| && RestartFrom(p, i).look == p.look && RestartFrom(p, i).reading == p.reading
    ensures forall k :: 0 <= k < |p.scans| && !p.scans[k].scan.waiting ==> RestartFrom(p, i).scans[k] == p.scans[k]
    decreases |p.scans| - i
  {
    if i < |p.scans| {
      var e := p.scans[i];
      RestartFromLeaves(if Restarted(e) == e then p else p.(scans := p.scans[i := Restarted(e)], seen := p.seen[e.key := {}]), i + 1);
    }
  }

  lemma SweepsOn(log: seq<Row>, acc: Accounts, run: int, today: int, p: Plan, i: nat, day: int)
    requires EntriesOk(log, acc, run, today, p) && i < |p.scans| && SomeSweep(p.scans, day)
    ensures SomeSweep(p.scans[i := Restarted(p.scans[i])], day)
  {
    var k :| 0 <= k < |p.scans| && WillSweep(p.scans[k], day);
    assert EntryOk(log, acc, run, today, p.seen, p.scans[i]);
    assert WillSweep(p.scans[i := Restarted(p.scans[i])][k], day);
  }

  /** Starting over keeps every sweep that is planned. */
  lemma {:induction false} RestartFromSweeps(log: seq<Row>, acc: Accounts, run: int, loaded: bool, today: int, p: Plan, i: nat, day: int)
    requires PlanOk(log, acc, run, loaded, today, p) && p.reading.None? && i <= |p.scans| && SomeSweep(p.scans, day)
    ensures SomeSweep(RestartFrom(p, i).scans, day)
    decreases |p.scans| - i
  {
    if i < |p.scans| {
      var e := p.scans[i];
      if Restarted(e) == e {
        RestartFromSweeps(log, acc, run, loaded, today, p, i + 1, day);
      } else {
        var p' := p.(scans := p.scans[i := Restarted(e)], seen := p.seen[e.key := {}]);
        RestartKeeps(log, acc, run, loaded, today, p, i, Restarted(e), p');
        SweepsOn(log, acc, run, today, p, i, day);
        RestartFromSweeps(log, acc, run, loaded, today, p', i + 1, day);
      }
    }
  }

  /** A sweep for the day is planned, so the day may be owed. */
  lemma OwedKeeps(log: seq<Row>, acc: Accounts, run: int, loaded: bool, today: int, p: Plan, day: int)
    requires PlanOk(log, acc, run, loaded, today, p) && SomeSweep(p.scans, day) && day <= today
    ensures PlanOk(log, acc, run, loaded, today, p.(daily := Some(day)))
  {
    forall i | 0 <= i < |p.scans| ensures EntryOk(log, acc, run, today, p.seen, p.scans[i]) {}
  }

  lemma PaidKeeps(log: seq<Row>, acc: Accounts, run: int, loaded: bool, today: int, p: Plan)
    requires PlanOk(log, acc, run, loaded, today, p)
    ensures PlanOk(log, acc, run, loaded, today, p.(daily := None))
  {
    forall i | 0 <= i < |p.scans| ensures EntryOk(log, acc, run, today, p.seen, p.scans[i]) {}
  }

  function Flagged(e: Entry, failed: bool): Entry { Entry(e.key, e.scan.(failed := failed)) }

  /** Every failed scan from position `i` on gets another chance. */
  ghost function ResumeFrom(p: Plan, i: nat): Plan
    requires i <= |p.scans|
    decreases |p.scans| - i
  {
    if i == |p.scans| then p else ResumeFrom(p.(scans := p.scans[i := Flagged(p.scans[i], false)]), i + 1)
  }

  lemma {:induction false} ResumeFromKeeps(log: seq<Row>, acc: Accounts, run: int, loaded: bool, today: int, p: Plan, i: nat)
    requires PlanOk(log, acc, run, loaded, today, p) && i <= |p.scans|
    ensures PlanOk(log, acc, run, loaded, today, ResumeFrom(p, i)) && ResumeFrom(p, i).look == p.look
    decreases |p.scans| - i
  {
    if i < |p.scans| {
      FlagKeeps(log, acc, run, loaded, today, p, i, false);
      ResumeFromKeeps(log, acc, run, loaded, today, p.(scans := p.scans[i := Flagged(p.scans[i], false)]), i + 1);
    }
  }

  // ----- reading pages -----

  /** The oldest run that is registered or still loaded. */
  ghost predicate OldestRun(run: int, loaded: bool, scans: seq<Entry>, oldest: int) {
    && (forall k :: 0 <= k < |scans| ==> oldest <= scans[k].scan.range.run)
    && (loaded ==> oldest <= run)
    && ((loaded && oldest == run) || exists k :: 0 <= k < |scans| && scans[k].scan.range.run == oldest)
  }

  lemma OldestLeads(log: seq<Row>, acc: Accounts, run: int, loaded: bool, today: int, p: Plan, oldest: int, i: nat)
    requires PlanOk(log, acc, run, loaded, today, p) && OldestRun(run, loaded, p.scans, oldest)
    requires i < |p.scans| && p.scans[i].scan.range.run == oldest && !p.scans[i].scan.waiting
    ensures Leads(run, loaded, p.scans, i)
  {
    forall k | 0 <= k < |p.scans| ensures run <= p.scans[k].scan.range.run { assert EntryOk(log, acc, run, today, p.seen, p.scans[k]); }
  }

  lemma BeginKeeps(log: seq<Row>, acc: Accounts, run: int, loaded: bool, today: int, p: Plan, i: nat, limit: nat, p': Plan)
    requires PlanOk(log, acc, run, loaded, today, p) && p.reading.None? && p.buffered.None?
    requires Leads(run, loaded, p.scans, i) && limit > 0
    requires p' == p.(reading := Some(Request(p.scans[i].key, p.scans[i].scan.range, p.scans[i].scan.cursor, limit)))
    ensures PlanOk(log, acc, run, loaded, today, p')
  {
    IndexIs(p.scans, i);
  }

  lemma EndReadKeeps(log: seq<Row>, acc: Accounts, run: int, loaded: bool, today: int, p: Plan, p': Plan)
    requires PlanOk(log, acc, run, loaded, today, p) && p' == p.(reading := None)
    ensures PlanOk(log, acc, run, loaded, today, p')
  {
    forall i | 0 <= i < |p.scans| ensures EntryOk(log, acc, run, today, p'.seen, p'.scans[i]) {
      assert EntryOk(log, acc, run, today, p.seen, p.scans[i]);
    }
  }

  lemma ArriveKeeps(log: seq<Row>, acc: Accounts, run: int, loaded: bool, today: int, p: Plan, look: Look, page: Page, p': Plan)
    requires PlanOk(log, acc, run, loaded, today, p) && p.reading.Some?
    requires var r := p.reading.value;
             && PageFits(log, r.range, r.cursor, r.limit, Some(look), page)
             && p' == p.(reading := None, buffered := Some(Buffered(r.key, page, 0, r.range.through)), limit := r.limit, look := Some(look))
    ensures PlanOk(log, acc, run, loaded, today, p')
  {
    EndReadKeeps(log, acc, run, loaded, today, p, p.(reading := None));
    forall i | 0 <= i < |p.scans| ensures EntryOk(log, acc, run, today, p'.seen, p'.scans[i]) {
      assert EntryOk(log, acc, run, today, p.seen, p.scans[i]);
    }
  }

  /** The scan whose page is buffered. */
  ghost function Leader(p: Plan): (i: nat)
    requires p.buffered.Some?
  {
    IndexOf(p.scans, p.buffered.value.key)
  }

  /** Nothing is loaded: the run of the page to come becomes the run of what will be loaded. */
  lemma AdoptKeeps(log: seq<Row>, acc: Accounts, run: int, today: int, p: Plan, run': int)
    requires PlanOk(log, acc, run, false, today, p) && p.buffered.Some? && run' == p.scans[Leader(p)].scan.range.run
    ensures PlanOk(log, acc, run', false, today, p) && run <= run'
  {
    assert EntryOk(log, acc, run, today, p.seen, p.scans[Leader(p)]);
    forall k | 0 <= k < |p.scans| ensures EntryOk(log, acc, run', today, p.seen, p.scans[k]) {
      assert EntryOk(log, acc, run, today, p.seen, p.scans[k]);
    }
  }

  /** One more row of the buffered page is offered; the first one loaded sets the run. */
  lemma TakeRowKeeps(log: seq<Row>, acc: Accounts, run: int, loaded: bool, today: int, p: Plan, acc': Accounts, run': int, loaded': bool, p': Plan)
    requires PlanOk(log, acc, run, loaded, today, p) && p.buffered.Some? && acc <= acc'
    requires var b, i := p.buffered.value, Leader(p);
             && b.index < |b.page.rows| && p' == p.(buffered := Some(b.(index := b.index + 1)))
             && run' == p.scans[i].scan.range.run && (run', b.page.rows[b.index].slice) in acc'
    ensures PlanOk(log, acc', run', loaded', today, p')
  {
    var i := Leader(p);
    forall k | 0 <= k < |p.scans| ensures EntryOk(log, acc', run', today, p'.seen, p'.scans[k]) {
      assert EntryOk(log, acc, run, today, p.seen, p.scans[k]);
    }
  }

  /** What becomes of the scan when its buffered page is used up. */
  function FinishedScan(scan: Scan, b: Buffered): Option<Scan> {
    var moved := scan.(cursor := if b.page.next.Some? then b.page.next else scan.cursor);
    if !b.page.done || scan.range.through != b.through then Some(moved)
    else if scan.next.Some? then Some(moved.(waiting := true))
    else None
  }

  ghost function Finished(p: Plan, i: nat, b: Buffered, read: set<Slice>): Plan
    requires i < |p.scans| && p.scans[i].key in p.seen
  {
    var e := p.scans[i];
    var rest := p.scans[..i] + p.scans[i + 1..];
    var scan := FinishedScan(e.scan, b);
    p.(buffered := None, seen := p.seen[e.key := p.seen[e.key] + read],
       scans := if scan.Some? then rest + [Entry(e.key, scan.value)] else rest,
       swept := if scan.None? && p.daily.Some? && e.key == AllDays && Sweeps(e.scan.range, p.daily.value) then Some(e.scan.range.run)
                else p.swept)
  }

  lemma FinishedEntry(log: seq<Row>, acc: Accounts, run: int, today: int, p: Plan, i: nat, b: Buffered, read: set<Slice>)
    requires IsLog(log) && i < |p.scans| && EntryOk(log, acc, run, today, p.seen, p.scans[i]) && !p.scans[i].scan.waiting
    requires var scan := p.scans[i].scan;
             var range := scan.range.(through := b.through);
             && b.through <= scan.range.through && (b.through < scan.range.through ==> p.scans[i].key == AllDays)
             && PageFits(log, range, scan.cursor, p.limit, p.look, b.page) && CursorOk(log, range, scan.cursor)
             && read == SlicesOf(Query(log, range, scan.cursor, p.limit))
             && forall s :: s in read ==> (range.run, s) in acc
    ensures var e, p' := p.scans[i], Finished(p, i, b, read);
            var scan' := FinishedScan(e.scan, b);
            && (scan'.Some? ==> EntryOk(log, acc, run, today, p'.seen, Entry(e.key, scan'.value)))
            && (scan'.None? ==> forall s :: s in SlicesIn(log, e.scan.range) ==> (e.scan.range.run, s) in acc)
  {
    hide IsPage, IsLog, Query, SlicesUpTo;
    var scan := p.scans[i].scan;
    var range := scan.range.(through := b.through);
    var cursor' := if b.page.next.Some? then b.page.next else scan.cursor;
    PagePasses(log, range, scan.cursor, p.limit, p.look, b.page);
    if b.through < scan.range.through {
      WiderRange(log, range, scan.range.through, scan.cursor);
      WiderRange(log, range, scan.range.through, cursor');
    }
    assert scan.range == range.(through := scan.range.through);
  }

  lemma WithoutEntry(scans: seq<Entry>, i: nat)
    requires DistinctKeys(scans) && i < |scans|
    ensures var rest := scans[..i] + scans[i + 1..];
            && DistinctKeys(rest) && IndexOf(rest, scans[i].key) == |rest|
            && (forall k :: 0 <= k < |rest| ==> rest[k] == scans[if k < i then k else k + 1])
  {
    var rest := scans[..i] + scans[i + 1..];
    var j := IndexOf(rest, scans[i].key);
  }

  lemma FinishedEntries(log: seq<Row>, acc: Accounts, run: int, today: int, p: Plan, i: nat, b: Buffered, read: set<Slice>, p': Plan)
    requires EntriesOk(log, acc, run, today, p) && i < |p.scans| && p' == Finished(p, i, b, read)
    requires var scan := FinishedScan(p.scans[i].scan, b);
             scan.Some? ==> EntryOk(log, acc, run, today, p'.seen, Entry(p.scans[i].key, scan.value))
    ensures EntriesOk(log, acc, run, today, p')
  {
    var e := p.scans[i];
    var rest := p.scans[..i] + p.scans[i + 1..];
    WithoutEntry(p.scans, i);
    var scan := FinishedScan(e.scan, b);
    if scan.Some? { AddIndex(rest, Entry(e.key, scan.value), e.key); }
    forall k | 0 <= k < |p'.scans| ensures EntryOk(log, acc, run, today, p'.seen, p'.scans[k]) {
      if k < |rest| {
        var j := if k < i then k else k + 1;
        assert EntryOk(log, acc, run, today, p.seen, p.scans[j]) && p.scans[j].key != e.key;
      }
    }
  }

  lemma FinishedDaily(log: seq<Row>, acc: Accounts, p: Plan, i: nat, b: Buffered, read: set<Slice>, p': Plan)
    requires DailyOk(log, acc, p) && i < |p.scans| && p.scans[i].key in p.seen && p' == Finished(p, i, b, read)
    requires p.scans[i].key == AllDays ==> p.scans[i].scan.range.target == None
    requires FinishedScan(p.scans[i].scan, b).None? ==>
               forall s :: s in SlicesIn(log, p.scans[i].scan.range) ==> (p.scans[i].scan.range.run, s) in acc
    requires forall k :: 0 <= k < |p.scans| && k != i ==> p.scans[k].key != p.scans[i].key
    ensures DailyOk(log, acc, p')
  {
    if p.daily.Some? {
      var e, day := p.scans[i], p.daily.value;
      var scan := FinishedScan(e.scan, b);
      if exists k :: 0 <= k < |p.scans| && WillSweep(p.scans[k], day) {
        var k :| 0 <= k < |p.scans| && WillSweep(p.scans[k], day);
        if k != i {
          assert p'.scans[if k < i then k else k - 1] == p.scans[k];
        } else if scan.Some? {
          assert WillSweep(p'.scans[|p'.scans| - 1], day);
        } else {
          SweepSees(log, e.scan.range, day);
        }
      } else if p'.swept != p.swept {
        SweepSees(log, e.scan.range, day);
      }
    }
  }

  lemma SweepSees(log: seq<Row>, range: Range, day: int)
    requires Sweeps(range, day) && range.target == None
    ensures forall s :: s in SlicesOf(log) && s.day < day ==> s in SlicesIn(log, range)
  {
  }

  /** When a page is used up its scan moves on, waits or is done with, and nothing it owes is lost. */
  lemma FinishKeeps(log: seq<Row>, acc: Accounts, run: int, loaded: bool, today: int, p: Plan, read: set<Slice>, p': Plan)
    requires IsLog(log) && PlanOk(log, acc, run, loaded, today, p) && p.buffered.Some? && p.reading.None?
    requires var i, b := Leader(p), p.buffered.value;
             var range := p.scans[i].scan.range.(through := b.through);
             && read == SlicesOf(Query(log, range, p.scans[i].scan.cursor, p.limit))
             && (forall s :: s in read ==> (range.run, s) in acc)
             && p' == Finished(p, i, b, read)
    ensures PlanOk(log, acc, run, loaded, today, p')
  {
    var i, b := Leader(p), p.buffered.value;
    assert EntryOk(log, acc, run, today, p.seen, p.scans[i]);
    FinishedEntry(log, acc, run, today, p, i, b, read);
    FinishedEntries(log, acc, run, today, p, i, b, read, p');
    FinishedDaily(log, acc, p, i, b, read, p');
  }
}
