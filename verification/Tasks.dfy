/** Cleaning tasks, and what the scheduler and the registry rely on in their ids. */
module Tasks {
  import opened Options
  import TaskIds
  import BacklogReader

  /** Calendar days are numbered here; an id renders them as text. */
  type Slice = BacklogReader.Slice

  /** `rust`: only a Rust node may run it. */
  datatype Task = Task(id: string, slice: Slice, rust: bool)

  /** How ids are built (first attempt, retry of a base id) and what is read back from them. */
  datatype IdScheme = IdScheme(first: (int, Slice) -> string, retry: (string, nat) -> string,
                               runOf: string -> int, restore: string -> Option<Slice>)

  function Id(ids: IdScheme, run: int, s: Slice, attempt: nat): string {
    if attempt == 0 then ids.first(run, s) else ids.retry(ids.first(run, s), attempt)
  }

  /** Witnesses that ids are one to one. */
  datatype Decoder = Decoder(slice: string -> Slice, attempt: string -> nat)

  ghost predicate Decodes(ids: IdScheme, decode: Decoder, run: int, s: Slice, attempt: nat) {
    var id := Id(ids, run, s, attempt);
    ids.runOf(id) == run && decode.slice(id) == s && decode.attempt(id) == attempt
  }

  /** Within a log, an id tells its run, its slice and its attempt. */
  ghost predicate Tells(ids: IdScheme, decode: Decoder, log: set<Slice>) {
    forall run: int, s, attempt: nat :: s in log && attempt <= TaskIds.MAX_ATTEMPTS ==> Decodes(ids, decode, run, s, attempt)
  }

  // ----- the ids the system uses -----

  ghost predicate IsCalendar(text: int -> string) {
    && (forall d :: ':' !in text(d))
    && (forall a, b :: text(a) == text(b) ==> a == b)
  }

  function Dated(text: int -> string, s: Slice): TaskIds.Slice { TaskIds.Slice(text(s.day), s.session) }

  ghost function DayOf(text: int -> string, date: string): int {
    if d :| text(d) == date then d else 0
  }

  ghost function CleaningIds(text: int -> string): IdScheme {
    IdScheme((run, s) => TaskIds.BaseId(text(run), Dated(text, s)),
             (base: string, attempt: nat) => base + TaskIds.Suffix(attempt),
             id => DayOf(text, TaskIds.RunOf(id)),
             id => match TaskIds.RestoreSlice(id)
                   case None => None
                   case Some(s) => Some(BacklogReader.Slice(DayOf(text, s.date), s.session)))
  }

  ghost function DatedLog(text: int -> string, log: set<Slice>): set<TaskIds.Slice> {
    set s | s in log :: Dated(text, s)
  }

  lemma CleaningIdIs(text: int -> string, run: int, s: Slice, attempt: nat)
    ensures Id(CleaningIds(text), run, s, attempt) == TaskIds.BuildTaskId(text(run), Dated(text, s), attempt)
  {
    assert TaskIds.BaseId(text(run), Dated(text, s)) + "" == TaskIds.BaseId(text(run), Dated(text, s));
  }

  ghost predicate Encodes(ids: IdScheme, log: set<Slice>, id: string, s: Slice, attempt: nat) {
    s in log && attempt <= TaskIds.MAX_ATTEMPTS && exists run: int :: Id(ids, run, s, attempt) == id
  }

  ghost function DecoderOf(ids: IdScheme, log: set<Slice>): Decoder {
    Decoder(id => if s, n: nat :| Encodes(ids, log, id, s, n) then s else BacklogReader.Slice(0, ""),
            id => if s, n: nat :| Encodes(ids, log, id, s, n) then n else 0)
  }

  lemma CleaningIdsDiffer(text: int -> string, log: set<Slice>, run: int, a: Slice, m: nat, run': int, b: Slice, n: nat)
    requires IsCalendar(text) && TaskIds.TwinFree(DatedLog(text, log))
    requires a in log && b in log && m <= TaskIds.MAX_ATTEMPTS && n <= TaskIds.MAX_ATTEMPTS
    requires Id(CleaningIds(text), run, a, m) == Id(CleaningIds(text), run', b, n)
    ensures a == b && m == n
  {
    CleaningIdIs(text, run, a, m);
    CleaningIdIs(text, run', b, n);
    var x, y := Dated(text, a), Dated(text, b);
    TaskIds.IdCollision(text(run), x, m, text(run'), y, n);
    assert x in DatedLog(text, log) && y in DatedLog(text, log);
  }

  lemma DecoderWorks(ids: IdScheme, log: set<Slice>, id: string, s: Slice, attempt: nat)
    requires Encodes(ids, log, id, s, attempt)
    requires forall b, n: nat :: Encodes(ids, log, id, b, n) ==> b == s && n == attempt
    ensures DecoderOf(ids, log).slice(id) == s && DecoderOf(ids, log).attempt(id) == attempt
  {
  }

  lemma RunReadsBack(text: int -> string, run: int, s: Slice, attempt: nat)
    requires IsCalendar(text)
    ensures CleaningIds(text).runOf(Id(CleaningIds(text), run, s, attempt)) == run
  {
    CleaningIdIs(text, run, s, attempt);
    TaskIds.RunDateField(text(run), Dated(text, s), attempt);
  }

  lemma OnlyOneMeaning(text: int -> string, log: set<Slice>, id: string, s: Slice, m: nat, b: Slice, n: nat)
    requires IsCalendar(text) && TaskIds.TwinFree(DatedLog(text, log))
    requires Encodes(CleaningIds(text), log, id, s, m) && Encodes(CleaningIds(text), log, id, b, n)
    ensures b == s && n == m
  {
    var ids := CleaningIds(text);
    var run: int :| Id(ids, run, s, m) == id;
    var run': int :| Id(ids, run', b, n) == id;
    CleaningIdsDiffer(text, log, run, s, m, run', b, n);
  }

  /** The system's ids tell tasks apart in every log without twins. */
  lemma CleaningIdsTell(text: int -> string, log: set<Slice>)
    requires IsCalendar(text) && TaskIds.TwinFree(DatedLog(text, log))
    ensures Tells(CleaningIds(text), DecoderOf(CleaningIds(text), log), log)
  {
    var ids := CleaningIds(text);
    forall run: int, s, attempt: nat | s in log && attempt <= TaskIds.MAX_ATTEMPTS
      ensures Decodes(ids, DecoderOf(ids, log), run, s, attempt)
    {
      var id := Id(ids, run, s, attempt);
      RunReadsBack(text, run, s, attempt);
      assert Encodes(ids, log, id, s, attempt);
      forall b, n: nat | Encodes(ids, log, id, b, n) ensures b == s && n == attempt {
        OnlyOneMeaning(text, log, id, s, attempt, b, n);
      }
      DecoderWorks(ids, log, id, s, attempt);
    }
  }
}
