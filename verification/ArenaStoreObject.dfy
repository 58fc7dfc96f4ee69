/**
 * The store as one replica uses it (ArenaRunStore.cs, lines 56-111): the record and its deadline in place, and the
 * retry loop of a change, with whatever other replicas commit between its read and its write.
 */
module ArenaStoreObject {
  import opened Options
  import opened ArenaTypes
  import opened ArenaTransitions
  import opened ArenaCalls
  import opened ArenaWholeRun
  import opened ArenaStore

  datatype Outcome =
    | NoRun
    | NotTaken(run: Run)
    | Taken(run: Run, effects: seq<Effect>)
    | Conflict

  class ArenaRunStore {
    const o: Opening
    var record: Option<Run>
    var due: Option<int>
    ghost var moves: seq<Move>

    /**
     * The record, while there is one, is what one order of accepted transitions made of the start, and its deadline
     * agrees.
     */
    ghost predicate Valid()
      reads this
    {
      && Opens(o) && Ordered(o, moves)
      && (record.Some? ==> record.value == StateAt(o, moves, |moves|) && due == DueOf(record.value))
    }

    /** The order went through this run, and it refused the transition. */
    ghost predicate RefusedAt(m: Move, k: int, run: Run)
      reads this
      requires Valid()
    {
      0 <= k <= |moves| && Playing(m) && run == StateAt(o, moves, k) && !Apply(o.setup, run, m).1.accepted
    }

    constructor (o: Opening)
      requires Opens(o)
      ensures Valid() && record.None? && due.None? && moves == [] && this.o == o
    {
      this.o, record, due, moves := o, None, None, [];
    }

    /** The record and its deadline, together. */
    method Write(run: Run)
      modifies `record, `due
      ensures record == Some(run) && due == DueOf(run)
    {
      record := Some(run);
      if run.deadlineMs > 0 { due := Some(run.deadlineMs); } else { due := None; }
    }

    /** A new run; nothing is written when one is there already. */
    method CreateAsync() returns (created: bool)
      requires Valid() && (record.None? ==> moves == [])
      modifies this
      ensures Valid() && created == old(record).None? && moves == old(moves)
      ensures if created then record == Some(First(o)) else record == old(record) && due == old(due)
    {
      hide Inv, Opens, Playing, StateAt, First, Ordered;
      if record.Some? { return false; }
      StartState(o);
      Write(First(o));
      created := true;
    }

    /** What other replicas commit meanwhile: each a transition accepted on the record it found. */
    method OtherWriters(ms: seq<Move>)
      requires Valid() && AllPlayable(ms)
      modifies this
      ensures Valid() && old(moves) <= moves && record.Some? == old(record).Some?
      ensures moves == old(moves) ==> record == old(record) && due == old(due)
    {
      hide Inv, Opens, Playing, StateAt, Apply;
      for i := 0 to |ms|
        invariant Valid() && old(moves) <= moves && record.Some? == old(record).Some?
        invariant moves == old(moves) ==> record == old(record) && due == old(due)
      {
        assert ms[i] in ms;
        if record.Some? {
          var r := Apply(o.setup, record.value, ms[i]);
          if r.1.accepted {
            OrderGrows(o, moves, ms[i]);
            NextState(o, moves, ms[i]);
            Write(r.0);
            moves := moves + [ms[i]];
          }
        }
      }
    }

    /**
     * Runs a transition on the stored run and writes it if the run is still what was read, else tries again. Taken, it
     * is the last of the order, applied to what all before it left; refused, it was refused on a run the order went
     * through; given up, every attempt met another replica's commit. Only a change taken is written.
     */
    method UpdateAsync(tries: seq<Move>, others: seq<seq<Move>>) returns (outcome: Outcome)
      requires Valid() && |tries| == |others| == ATTEMPTS && AllPlayable(tries)
        && forall ms | ms in others :: AllPlayable(ms)
      modifies this
      ensures Valid() && old(moves) <= moves
      ensures outcome.NoRun? <==> old(record).None?
      ensures outcome.Taken? ==> |old(moves)| < |moves| && record == Some(outcome.run) && moves[|moves| - 1] in tries
      ensures outcome.Taken? ==>
        Apply(o.setup, StateAt(o, moves, |moves| - 1), moves[|moves| - 1]) == (outcome.run, Step(true, outcome.effects))
      ensures outcome.NotTaken? ==> exists m, k :: RefusedAt(m, k, outcome.run) && m in tries && |old(moves)| <= k
      ensures outcome.Conflict? ==> |old(moves)| + ATTEMPTS <= |moves|
    {
      hide Inv, Opens, Playing, StateAt, Apply;
      for attempt := 0 to ATTEMPTS
        invariant Valid() && old(moves) <= moves && |old(moves)| + attempt <= |moves|
          && record.Some? == old(record).Some?
        invariant attempt > 0 ==> record.Some?
      {
        if record.None? { return NoRun; }
        var raw := record.value;
        assert tries[attempt] in tries && others[attempt] in others;
        var r := Apply(o.setup, raw, tries[attempt]);
        if !r.1.accepted {
          assert RefusedAt(tries[attempt], |moves|, raw);
          return NotTaken(raw);
        }
        OtherWriters(others[attempt]);
        if record == Some(raw) {
          OrderGrows(o, moves, tries[attempt]);
          NextState(o, moves, tries[attempt]);
          StatesStay(o, moves, tries[attempt], |moves|);
          Write(r.0);
          moves := moves + [tries[attempt]];
          return Taken(r.0, r.1.effects);
        }
      }
      outcome := Conflict;
    }
  }
}
