/** A Rust node's front door: slots, the tasks under way, and the last outcomes it still remembers. */
module RustNode {
  const TERMINAL_LIMIT: nat := 1000

  datatype Outcome = Outcome(id: string, failed: bool)

  /** `ended`: every outcome ever noted; `at[i]`: where in it the remembered outcome `i` was noted last. */
  datatype Memory = Memory(terminal: seq<Outcome>, ended: seq<Outcome>, at: seq<nat>)

  predicate Remembers(terminal: seq<Outcome>, id: string) { exists i | 0 <= i < |terminal| :: terminal[i].id == id }

  ghost predicate EntryOk(m: Memory, i: nat) {
    i < |m.at| && i < |m.terminal| ==>
      m.at[i] < |m.ended| && m.ended[m.at[i]] == m.terminal[i] && forall k :: m.at[i] < k < |m.ended| ==> m.ended[k].id != m.terminal[i].id
  }

  /** The memory holds outcomes in the order noted, each id once, and the last thousand are all there. */
  ghost predicate MemoryOk(m: Memory) {
    && |m.at| == |m.terminal| <= TERMINAL_LIMIT
    && (forall i: nat {:trigger EntryOk(m, i)} :: EntryOk(m, i))
    && (forall i, j :: 0 <= i < j < |m.at| ==> m.at[i] < m.at[j])
    && (forall k :: 0 <= k < |m.ended| && k >= |m.ended| - TERMINAL_LIMIT ==> Remembers(m.terminal, m.ended[k].id))
  }

  lemma MemoryFits(m: Memory)
    requires MemoryOk(m)
    ensures |m.at| == |m.terminal| <= TERMINAL_LIMIT
  {
  }

  lemma StillFits(m: Memory)
    requires Longer(m) && |m.terminal| <= TERMINAL_LIMIT
    ensures MemoryOk(m)
  {
  }

  lemma EachOnce(m: Memory, i: nat, j: nat)
    requires MemoryOk(m) && i < j < |m.terminal|
    ensures m.terminal[i].id != m.terminal[j].id
  {
    assert EntryOk(m, i) && EntryOk(m, j);
  }

  function RemoveAt<T>(s: seq<T>, i: nat): seq<T>
    requires i < |s|
  {
    s[..i] + s[i + 1..]
  }

  /** Noted again: an older outcome of the id is forgotten first. */
  ghost function Noted(m: Memory, o: Outcome, i: nat): Memory
    requires |m.at| == |m.terminal|
  {
    var terminal := (if i < |m.terminal| then RemoveAt(m.terminal, i) else m.terminal) + [o];
    var at := (if i < |m.at| then RemoveAt(m.at, i) else m.at) + [|m.ended|];
    Memory(terminal, m.ended + [o], at)
  }

  ghost predicate IsWhere(m: Memory, id: string, i: nat) {
    i <= |m.terminal| && (i < |m.terminal| ==> m.terminal[i].id == id) && (i == |m.terminal| ==> !Remembers(m.terminal, id))
  }

  lemma RemovedRemembers(terminal: seq<Outcome>, i: nat, id: string)
    requires i < |terminal| && Remembers(terminal, id) && terminal[i].id != id
    ensures Remembers(RemoveAt(terminal, i), id)
  {
    var k :| 0 <= k < |terminal| && terminal[k].id == id;
    assert RemoveAt(terminal, i)[if k < i then k else k - 1].id == id;
  }

  /** Before the limit is enforced, everything but the limit holds, and all that was remembered still is. */
  ghost predicate Longer(m: Memory) {
    && |m.at| == |m.terminal| <= TERMINAL_LIMIT + 1
    && (forall i: nat {:trigger EntryOk(m, i)} :: EntryOk(m, i))
    && (forall i, j :: 0 <= i < j < |m.at| ==> m.at[i] < m.at[j])
    && (forall k :: 0 <= k < |m.ended| && k >= |m.ended| - TERMINAL_LIMIT ==> Remembers(m.terminal, m.ended[k].id))
  }

  lemma NoteKeeps(m: Memory, o: Outcome, i: nat)
    requires MemoryOk(m) && IsWhere(m, o.id, i)
    ensures Longer(Noted(m, o, i))
  {
    var m' := Noted(m, o, i);
    var last := |m'.terminal| - 1;
    forall p: nat ensures EntryOk(m', p) {
      if p < last {
        var q := if p < i then p else if i < |m.terminal| then p + 1 else p;
        assert EntryOk(m, q) && m'.terminal[p] == m.terminal[q] && m'.at[p] == m.at[q];
        if i < |m.terminal| {
          if q < i { EachOnce(m, q, i); } else { EachOnce(m, i, q); }
        }
      }
    }
    forall p: nat | p < |m.at| ensures m.at[p] < |m.ended| { assert EntryOk(m, p); }
    forall k | 0 <= k < |m'.ended| && k >= |m'.ended| - TERMINAL_LIMIT ensures Remembers(m'.terminal, m'.ended[k].id) {
      assert m'.terminal[last] == o;
      if m'.ended[k].id != o.id {
        assert m'.ended[k] == m.ended[k] && Remembers(m.terminal, m.ended[k].id);
        StillRemembers(m, o, i, m.ended[k].id);
      }
    }
  }

  lemma StillRemembers(m: Memory, o: Outcome, i: nat, id: string)
    requires |m.at| == |m.terminal| && IsWhere(m, o.id, i) && Remembers(m.terminal, id) && id != o.id
    ensures Remembers(Noted(m, o, i).terminal, id)
  {
    var kept := if i < |m.terminal| then RemoveAt(m.terminal, i) else m.terminal;
    if i < |m.terminal| { RemovedRemembers(m.terminal, i, id); }
    var k :| 0 <= k < |kept| && kept[k].id == id;
    assert Noted(m, o, i).terminal[k].id == id;
  }

  /** Nothing is remembered that was not before, save the outcome itself. */
  lemma NothingElse(m: Memory, o: Outcome, i: nat, id: string)
    requires |m.at| == |m.terminal| && !Remembers(m.terminal, id) && id != o.id
    ensures !Remembers(Noted(m, o, i).terminal, id)
    ensures var longer := Noted(m, o, i).terminal; !Remembers(longer[1..], id)
  {
    var kept := if i < |m.terminal| then RemoveAt(m.terminal, i) else m.terminal;
    forall k | 0 <= k < |kept| ensures kept[k].id != id {
      assert kept[k] == m.terminal[if i < |m.terminal| && k >= i then k + 1 else k];
    }
  }

  lemma {:induction false} AscendingGap(at: seq<nat>, bound: nat)
    requires (forall i, j :: 0 <= i < j < |at| ==> at[i] < at[j]) && at != [] && at[|at| - 1] < bound
    ensures at[0] + |at| <= bound
  {
    if |at| > 1 {
      var n := |at| - 1;
      AscendingGap(at[..n], at[n]);
    }
  }

  /** Only an outcome followed by a thousand others is ever forgotten. */
  lemma ForgetKeeps(m: Memory)
    requires Longer(m) && |m.terminal| > TERMINAL_LIMIT
    ensures MemoryOk(m.(terminal := m.terminal[1..], at := m.at[1..]))
  {
    var m' := m.(terminal := m.terminal[1..], at := m.at[1..]);
    assert EntryOk(m, 0) && EntryOk(m, |m.at| - 1);
    AscendingGap(m.at, |m.ended|);
    forall p: nat ensures EntryOk(m', p) { assert EntryOk(m, p + 1); }
    forall k | 0 <= k < |m.ended| && k >= |m.ended| - TERMINAL_LIMIT ensures Remembers(m'.terminal, m.ended[k].id) {
      var p :| 0 <= p < |m.terminal| && m.terminal[p].id == m.ended[k].id;
      assert p != 0;
      assert m'.terminal[p - 1] == m.terminal[p];
    }
  }

  class ComputeNode {
    const concurrency: nat
    var permits: nat
    var active: set<string>
    var terminal: seq<Outcome>
    var stopping: bool
    ghost var running: set<string>
    ghost var ended: seq<Outcome>
    ghost var at: seq<nat>
    ghost var started: seq<string>

    ghost function Past(): Memory
      reads this
    {
      Memory(terminal, ended, at)
    }

    /** Slots in use and free add up, and an id is under way or remembered, never both. */
    ghost predicate Valid()
      reads this
    {
      && MemoryOk(Past()) && running <= active && |active| <= concurrency && permits + |running| == concurrency
      && forall id :: id in active ==> !Remembers(terminal, id)
    }

    constructor (concurrency: nat)
      ensures Valid() && active == {} && started == [] && !stopping
    {
      this.concurrency, permits, active, terminal, stopping := concurrency, concurrency, {}, [], false;
      running, ended, at, started := {}, [], [], [];
    }

    /** The outcome is noted, and the task is no longer under way. */
    method Terminal(o: Outcome)
      requires Valid() && o.id !in running
      modifies this`active, this`terminal, this`ended, this`at
      ensures Valid() && active == old(active) - {o.id} && ended == old(ended) + [o] && Remembers(terminal, o.id)
    {
      hide MemoryOk, Remembers, IsWhere;
      active := active - {o.id};
      var i := Find(o.id);
      Remember(o, i);
    }

    /** An outcome noted again moves to the end; the oldest goes when there are too many. */
    method Remember(o: Outcome, i: nat)
      requires MemoryOk(Past()) && IsWhere(Past(), o.id, i)
      modifies this`terminal, this`ended, this`at
      ensures MemoryOk(Past()) && ended == old(ended) + [o] && Remembers(terminal, o.id)
      ensures forall id :: id != o.id && !Remembers(old(terminal), id) ==> !Remembers(terminal, id)
    {
      hide MemoryOk;
      ghost var m := Past();
      NoteKeeps(m, o, i);
      MemoryFits(m);
      if i < |terminal| {
        terminal := RemoveAt(terminal, i);
        at := RemoveAt(at, i);
      }
      terminal, at, ended := terminal + [o], at + [|ended|], ended + [o];
      assert Past() == Noted(m, o, i) && terminal[|terminal| - 1] == o;
      if |terminal| > TERMINAL_LIMIT {
        ForgetKeeps(Past());
        terminal, at := terminal[1..], at[1..];
      } else {
        StillFits(Past());
      }
      assert terminal[|terminal| - 1] == o;
      forall id | id != o.id && !Remembers(m.terminal, id) ensures !Remembers(terminal, id) { NothingElse(m, o, i, id); }
    }

    method Find(id: string) returns (i: nat)
      requires MemoryOk(Past())
      ensures IsWhere(Past(), id, i)
    {
      i := 0;
      while i < |terminal| && terminal[i].id != id
        invariant i <= |terminal| && forall k :: 0 <= k < i ==> terminal[k].id != id
      {
        i := i + 1;
      }
    }

    /**
     * A task is started, or refused at once; one that is under way or remembered is not started again -
     * and every task whose outcome is among the last thousand is remembered.
     */
    method Submit(id: string) returns (accepted: bool)
      requires Valid()
      modifies this`permits, this`active, this`terminal, this`running, this`ended, this`at, this`started
      ensures Valid() && (id in active || Remembers(terminal, id))
      ensures old(id in active || Remembers(terminal, id)) ==> !accepted && active == old(active) && ended == old(ended)
      ensures started == if accepted then old(started) + [id] else old(started)
      ensures accepted <==> old(!(id in active || Remembers(terminal, id)) && !stopping && permits > 0 && |active| < concurrency)
      ensures accepted ==> id in running && id in active && (forall k :: |ended| - TERMINAL_LIMIT <= k < |ended| && 0 <= k ==> ended[k].id != id)
      ensures !accepted && old(!(id in active || Remembers(terminal, id))) ==> ended == old(ended) + [Outcome(id, true)]
    {
      if id in active || Remembers(terminal, id) { return false; }
      if stopping || permits == 0 || |active| >= concurrency {
        Terminal(Outcome(id, true));
        return false;
      }
      permits, active := permits - 1, active + {id};
      running, started := running + {id}, started + [id];
      accepted := true;
    }

    /** The run is over; its slot is free before its outcome is told. */
    method Release(id: string)
      requires Valid() && id in running
      modifies this`permits, this`running
      ensures Valid() && id !in running && id in active && permits == old(permits) + 1
    {
      running := running - {id};
      permits := permits + 1;
    }

    method Ended(id: string, failed: bool)
      requires Valid() && id in active && id !in running
      modifies this`active, this`terminal, this`ended, this`at
      ensures Valid() && id !in active && Remembers(terminal, id) && ended == old(ended) + [Outcome(id, failed)]
    {
      Terminal(Outcome(id, failed));
    }

    method Stop()
      requires Valid()
      modifies this`stopping
      ensures Valid() && stopping
    {
      stopping := true;
    }
  }
}
