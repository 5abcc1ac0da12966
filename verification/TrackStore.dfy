/** The Track a single process keeps in memory (track.py): appends under one lock, and readers that page by cursor. */
module TrackStore {
  import opened Wrappers
  import opened RunMachine

  /** An event as its writer builds it. The store assigns the sequence, and refuses one that has it already. */
  datatype TrackEvent = TrackEvent(run: string, id: string, event: Event, numbered: Option<nat>)

  datatype Row = Row(run: string, id: string, event: Event, sequence: nat)

  datatype Refusal = SequenceAssigned | AlreadyOnTrack | OneSubmissionPerRun

  predicate Increasing(rows: seq<Row>) {
    forall i, j :: 0 <= i < j < |rows| ==> rows[i].sequence < rows[j].sequence
  }

  /** The rows of a log past a cursor. */
  function After(log: seq<Row>, cursor: nat): (rest: seq<Row>) {
    if log == [] then []
    else After(log[..|log| - 1], cursor) + (if log[|log| - 1].sequence > cursor then [log[|log| - 1]] else [])
  }

  lemma {:induction false} AfterCut(log: seq<Row>, n: nat, cursor: nat)
    requires n <= |log|
    requires forall i :: 0 <= i < n ==> log[i].sequence <= cursor
    requires forall i :: n <= i < |log| ==> log[i].sequence > cursor
    ensures After(log, cursor) == log[n..]
  {
    if log != [] {
      var k := |log| - 1;
      AfterCut(log[..k], if n <= k then n else k, cursor);
      if n <= k {
        assert log[n..] == log[..k][n..] + [log[k]];
      }
    }
  }

  /** In an increasing log, what is past a cursor is a suffix. */
  lemma Cut(log: seq<Row>, cursor: nat) returns (n: nat)
    requires Increasing(log)
    ensures n <= |log|
    ensures forall i :: 0 <= i < n ==> log[i].sequence <= cursor
    ensures forall i :: n <= i < |log| ==> log[i].sequence > cursor
  {
    n := |log|;
    while n > 0 && log[n - 1].sequence > cursor
      invariant n <= |log| && forall i :: n <= i < |log| ==> log[i].sequence > cursor
    {
      n := n - 1;
    }
  }

  /** A log that only grew, read from its old last row: exactly what it gained. */
  lemma AfterGained(before: seq<Row>, now: seq<Row>, cursor: nat)
    requires before <= now && Increasing(now)
    requires if before == [] then cursor == 0 else cursor == before[|before| - 1].sequence
    requires forall i :: 0 <= i < |now| ==> now[i].sequence > 0
    ensures After(now, cursor) == now[|before|..]
  {
    hide After;
    assert before == [] || now[|before| - 1] == before[|before| - 1];
    AfterCut(now, |before|, cursor);
  }

  /** Reading on from the last row yielded gives what a reader starting over would have had besides: a cursor
      never skips. */
  lemma Resumes(before: seq<Row>, now: seq<Row>, after: nat, cursor: nat)
    requires before <= now && Increasing(now)
    requires var y := After(before, after); cursor == if y == [] then after else y[|y| - 1].sequence
    ensures After(now, after) == After(before, after) + After(now, cursor)
  {
    hide After;
    var n := Cut(now, after);
    AfterCut(now, n, after);
    if n < |before| {
      AfterCut(before, n, after);
      AfterCut(now, |before|, cursor);
      assert now[n..] == before[n..] + now[|before|..];
    } else {
      AfterCut(before, |before|, after);
    }
  }

  predicate HasSubmission(log: seq<Row>) {
    exists k :: 0 <= k < |log| && log[k].event.OpSubmitted?
  }

  predicate OnceSubmitted(log: seq<Row>) {
    forall i, j :: 0 <= i < j < |log| ==> !(log[i].event.OpSubmitted? && log[j].event.OpSubmitted?)
  }

  /** Yield one read's rows, the cursor following. */
  method Yield(before: seq<Row>, gained: seq<Row>, from: nat) returns (yielded: seq<Row>, cursor: nat)
    ensures yielded == before + gained
    ensures cursor == if gained == [] then from else gained[|gained| - 1].sequence
  {
    yielded, cursor := before, from;
    for i := 0 to |gained|
      invariant yielded == before + gained[..i]
      invariant cursor == if i == 0 then from else gained[i - 1].sequence
    {
      cursor := gained[i].sequence;
      yielded := yielded + [gained[i]];
    }
  }

  class InMemoryTrackStore {
    var nextSequence: nat
    var events: map<string, seq<Row>>
    var ids: set<string>

    constructor ()
      ensures Valid() && ids == {} && forall run :: Log(run) == []
    {
      nextSequence, events, ids := 1, map[], {};
    }

    function Log(run: string): seq<Row>
      reads this
    {
      if run in events then events[run] else []
    }

    predicate ValidLog(run: string)
      reads this
    {
      && Increasing(Log(run)) && OnceSubmitted(Log(run))
      && (forall i :: 0 <= i < |Log(run)| ==>
            var r := Log(run)[i]; r.run == run && r.id in ids && 0 < r.sequence < nextSequence)
    }

    ghost predicate Valid()
      reads this
    {
      0 < nextSequence && forall run :: ValidLog(run)
    }

    /** Refused, it changes nothing; stored, its row follows every other of its run, and no other run moves. */
    method Append(e: TrackEvent) returns (r: Result<Row, Refusal>)
      requires Valid()
      modifies this
      ensures Valid() && old(nextSequence) <= nextSequence
      ensures r.Err? <==> e.numbered.Some? || e.id in old(ids) || (e.event.OpSubmitted? && old(HasSubmission(Log(e.run))))
      ensures r == Err(OneSubmissionPerRun) ==> e.event.OpSubmitted?
      ensures r.Err? ==> events == old(events) && ids == old(ids) && nextSequence == old(nextSequence)
      ensures r.Ok? ==> r.value == Row(e.run, e.id, e.event, old(nextSequence)) && ids == old(ids) + {e.id}
      ensures r.Ok? ==> Log(e.run) == old(Log(e.run)) + [r.value]
      ensures forall run :: run != e.run ==> Log(run) == old(Log(run))
    {
      if e.numbered.Some? {
        return Err(SequenceAssigned);
      }
      if e.id in ids {
        return Err(AlreadyOnTrack);
      }
      if e.event.OpSubmitted? && HasSubmission(Log(e.run)) {
        return Err(OneSubmissionPerRun);
      }
      ghost var before := Log(e.run);
      assert ValidLog(e.run);
      var stored := Row(e.run, e.id, e.event, nextSequence);
      nextSequence := nextSequence + 1;
      events := events[e.run := Log(e.run) + [stored]];
      ids := ids + {e.id};
      forall run ensures ValidLog(run) {
        assert old(ValidLog(run));
        if run == e.run {
          assert Log(run) == before + [stored];
          assert OnceSubmitted(before);
        } else {
          assert Log(run) == old(Log(run));
        }
      }
      r := Ok(stored);
    }

    /** The check and the append are one step: what the condition saw is what the event follows. */
    method AppendIf(e: TrackEvent, condition: seq<Row> -> bool) returns (r: Result<Option<Row>, Refusal>)
      requires Valid()
      modifies this
      ensures Valid() && old(nextSequence) <= nextSequence
      ensures r == Ok(None) <==> !condition(old(Log(e.run)))
      ensures r.Err? <==> condition(old(Log(e.run)))
                          && (e.numbered.Some? || e.id in old(ids) || (e.event.OpSubmitted? && old(HasSubmission(Log(e.run)))))
      ensures !(r.Ok? && r.value.Some?) ==> events == old(events) && ids == old(ids) && nextSequence == old(nextSequence)
      ensures r.Ok? && r.value.Some? ==>
                condition(old(Log(e.run))) && Log(e.run) == old(Log(e.run)) + [r.value.value] && r.value.value.event == e.event
      ensures forall run :: run != e.run ==> Log(run) == old(Log(run))
    {
      var before := Replay(e.run, 0);
      assert ValidLog(e.run);
      AfterGained([], Log(e.run), 0);
      if condition(before) {
        var stored := Append(e);
        match stored {
          case Ok(row) => r := Ok(Some(row));
          case Err(refusal) => r := Err(refusal);
        }
      } else {
        r := Ok(None);
      }
    }

    method Replay(run: string, after: nat) returns (rows: seq<Row>)
      requires Valid()
      ensures rows == After(Log(run), after)
    {
      rows := [];
      var log := Log(run);
      for i := 0 to |log|
        invariant rows == After(log[..i], after)
      {
        assert log[..i + 1][..i] == log[..i];
        if log[i].sequence > after {
          rows := rows + [log[i]];
        }
      }
      assert log[..|log|] == log;
    }

    lemma LogIncreases(run: string)
      requires Valid()
      ensures Increasing(Log(run))
    {
      assert ValidLog(run);
    }

    lemma LogPositive(run: string)
      requires Valid()
      ensures forall i :: 0 <= i < |Log(run)| ==> Log(run)[i].sequence > 0
    {
      assert ValidLog(run);
    }

    lemma WholeLog(run: string)
      requires Valid()
      ensures After(Log(run), 0) == Log(run)
    {
      LogPositive(run);
      AfterCut(Log(run), 0, 0);
    }

    /** What other threads append between two calls of one. */
    method Others()
      requires Valid()
      modifies this
      ensures Valid() && forall run :: old(Log(run)) <= Log(run)
    {
      var n: nat :| true;
      for i := 0 to n
        invariant Valid() && forall run :: old(Log(run)) <= Log(run)
      {
        var e: TrackEvent := *;
        var _ := Append(e);
      }
    }

    /** `_poll`, reading `rounds` more times while others append: it yields every row past the cursor it was
        given, in order, once each, up to what the run held at its last read. */
    method Poll(run: string, after: nat, rounds: nat) returns (yielded: seq<Row>)
      requires Valid()
      modifies this
      ensures Valid() && forall run :: old(Log(run)) <= Log(run)
      ensures yielded == After(Log(run), after)
    {
      hide After, ValidLog, Increasing;
      yielded := Replay(run, after);
      var cursor := if yielded == [] then after else yielded[|yielded| - 1].sequence;
      for round := 0 to rounds
        invariant Valid() && forall run :: old(Log(run)) <= Log(run)
        invariant yielded == After(Log(run), after)
        invariant cursor == if yielded == [] then after else yielded[|yielded| - 1].sequence
      {
        ghost var before := Log(run);
        Others();
        var gained := Replay(run, cursor);
        LogIncreases(run);
        Resumes(before, Log(run), after, cursor);
        yielded, cursor := Yield(yielded, gained, cursor);
      }
    }
  }
}
