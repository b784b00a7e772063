/**
 An independent reading of the event log.  The monitor knows nothing of the
 queue: it accepts a log in which jobs are queued, started from the head of the
 line, run one at a time, and end exactly once.
 */
module MotionMonitor {
  import opened Common
  import opened Motion

  /** Who is in line and who is running, as far as the log tells. */
  datatype Board = Board(line: seq<Id>, running: Option<Id>)

  const EMPTY_BOARD := Board([], None)

  function RemoveFirst(ids: seq<Id>, id: Id): seq<Id> {
    if ids == [] then []
    else if ids[0] == id then ids[1..]
    else [ids[0]] + RemoveFirst(ids[1..], id)
  }

  /** None means that the log broke the discipline. */
  function Observe(b: Board, e: Event): Option<Board> {
    match e
    case Accepted(id, _, queued) =>
      if !queued then Some(b)
      else if id in b.line || b.running == Some(id) then None
      else Some(b.(line := b.line + [id]))
    case Started(id, _, _, _) =>
      if b.running.None? && b.line != [] && b.line[0] == id then Some(Board(b.line[1..], Some(id))) else None
    case Progress(id, _, _, _, _) =>
      if b.running == Some(id) then Some(b) else None
    case Finished(id, _, outcome, _, _) =>
      if b.running == Some(id) then Some(b.(running := None))
      else if id in b.line && outcome.Cancelled? then Some(b.(line := RemoveFirst(b.line, id)))
      else None
    case _ => Some(b)
  }

  function Monitor(b: Board, log: seq<Event>): Option<Board>
    decreases |log|
  {
    if log == [] then Some(b)
    else
      var next := Observe(b, log[0]);
      if next.None? then None else Monitor(next.value, log[1..])
  }

  lemma {:induction false} MonitorConcat(b: Board, first: seq<Event>, second: seq<Event>)
    requires Monitor(b, first).Some?
    ensures Monitor(b, first + second) == Monitor(Monitor(b, first).value, second)
    decreases |first|
  {
    if first == [] {
      assert first + second == second;
    } else {
      assert (first + second)[1..] == first[1..] + second;
      MonitorConcat(Observe(b, first[0]).value, first[1..], second);
    }
  }

  // ---- every accepted job ends exactly once ---------------------------------------

  function AcceptedCount(log: seq<Event>, id: Id): nat {
    if log == [] then 0
    else (if log[0].Accepted? && log[0].queued && log[0].id == id then 1 else 0) + AcceptedCount(log[1..], id)
  }

  function FinishedCount(log: seq<Event>, id: Id): nat {
    if log == [] then 0
    else (if log[0].Finished? && log[0].id == id then 1 else 0) + FinishedCount(log[1..], id)
  }

  function OnBoard(b: Board, id: Id): nat {
    multiset(b.line)[id] + if b.running == Some(id) then 1 else 0
  }

  lemma {:induction false} RemoveFirstCounts(ids: seq<Id>, id: Id)
    requires id in ids
    ensures multiset(RemoveFirst(ids, id)) == multiset(ids) - multiset{id}
  {
    assert ids == [ids[0]] + ids[1..];
    if ids[0] != id {
      RemoveFirstCounts(ids[1..], id);
    }
  }

  lemma ObserveCounts(b: Board, e: Event, id: Id)
    requires Observe(b, e).Some?
    ensures OnBoard(Observe(b, e).value, id) + FinishedCount([e], id) == OnBoard(b, id) + AcceptedCount([e], id)
  {
    if e.Finished? && b.running != Some(e.id) {
      RemoveFirstCounts(b.line, e.id);
    } else if e.Started? {
      assert b.line == [b.line[0]] + b.line[1..];
    }
  }

  /** For each id: acceptances = completions, cancellations and failures, plus one while it is still on the board. */
  lemma {:induction false} EveryJobEndsOnce(b: Board, log: seq<Event>, id: Id)
    requires Monitor(b, log).Some?
    ensures OnBoard(b, id) + AcceptedCount(log, id) == FinishedCount(log, id) + OnBoard(Monitor(b, log).value, id)
    decreases |log|
  {
    if log != [] {
      ObserveCounts(b, log[0], id);
      EveryJobEndsOnce(Observe(b, log[0]).value, log[1..], id);
    }
  }

  // ---- first come, first served ------------------------------------------------------

  function StartedIds(log: seq<Event>): seq<Id> {
    if log == [] then []
    else (if log[0].Started? then [log[0].id] else []) + StartedIds(log[1..])
  }

  function AcceptedIds(log: seq<Event>): seq<Id> {
    if log == [] then []
    else (if log[0].Accepted? && log[0].queued then [log[0].id] else []) + AcceptedIds(log[1..])
  }

  /** s arises from t by leaving elements out. */
  ghost predicate Subsequence(s: seq<Id>, t: seq<Id>)
    decreases |t|
  {
    if s == [] then true
    else if t == [] then false
    else
      || (s[|s| - 1] == t[|t| - 1] && Subsequence(s[..|s| - 1], t[..|t| - 1]))
      || Subsequence(s, t[..|t| - 1])
  }

  lemma SubsequenceBoth(s: seq<Id>, t: seq<Id>, x: Id)
    requires Subsequence(s, t)
    ensures Subsequence(s + [x], t + [x])
  {
    assert (s + [x])[..|s|] == s && (t + [x])[..|t|] == t;
  }

  lemma {:induction false} SubsequenceWithout(s: seq<Id>, t: seq<Id>, k: nat)
    requires Subsequence(s, t) && k < |s|
    ensures Subsequence(s[..k] + s[k + 1..], t)
    decreases |t|
  {
    var r := s[..k] + s[k + 1..];
    var t' := t[..|t| - 1];
    if Subsequence(s, t') {
      SubsequenceWithout(s, t', k);
      if r != [] {
        assert Subsequence(r, t');
      }
    } else {
      var s' := s[..|s| - 1];
      if k == |s| - 1 {
        assert r == s';
      } else {
        SubsequenceWithout(s', t', k);
        assert r[..|r| - 1] == s'[..k] + s'[k + 1..];
      }
    }
  }

  lemma {:induction false} RemoveFirstIndex(ids: seq<Id>, id: Id) returns (k: nat)
    requires id in ids
    ensures k < |ids| && RemoveFirst(ids, id) == ids[..k] + ids[k + 1..]
  {
    if ids[0] == id {
      k := 0;
    } else {
      var j := RemoveFirstIndex(ids[1..], id);
      k := j + 1;
      assert ids[..k] + ids[k + 1..] == [ids[0]] + (ids[1..][..j] + ids[1..][j + 1..]);
    }
  }

  lemma {:induction false} StartedConcat(a: seq<Event>, b: seq<Event>)
    ensures StartedIds(a + b) == StartedIds(a) + StartedIds(b)
  {
    if a == [] {
      assert a + b == b;
    } else {
      var first := if a[0].Started? then [a[0].id] else [];
      assert (a + b)[0] == a[0] && (a + b)[1..] == a[1..] + b;
      assert StartedIds(a) == first + StartedIds(a[1..]);
      assert StartedIds(a + b) == first + StartedIds(a[1..] + b);
      StartedConcat(a[1..], b);
      assert first + (StartedIds(a[1..]) + StartedIds(b)) == first + StartedIds(a[1..]) + StartedIds(b);
    }
  }

  lemma {:induction false} AcceptedConcat(a: seq<Event>, b: seq<Event>)
    ensures AcceptedIds(a + b) == AcceptedIds(a) + AcceptedIds(b)
  {
    if a == [] {
      assert a + b == b;
    } else {
      var first := if a[0].Accepted? && a[0].queued then [a[0].id] else [];
      assert (a + b)[0] == a[0] && (a + b)[1..] == a[1..] + b;
      assert AcceptedIds(a) == first + AcceptedIds(a[1..]);
      assert AcceptedIds(a + b) == first + AcceptedIds(a[1..] + b);
      AcceptedConcat(a[1..], b);
      assert first + (AcceptedIds(a[1..]) + AcceptedIds(b)) == first + AcceptedIds(a[1..]) + AcceptedIds(b);
    }
  }

  /** What has started, followed by who still waits, is what was accepted with some left out. */
  lemma {:induction false} ServedInOrder(log: seq<Event>)
    requires Monitor(EMPTY_BOARD, log).Some?
    ensures Subsequence(StartedIds(log) + Monitor(EMPTY_BOARD, log).value.line, AcceptedIds(log))
    decreases |log|
  {
    if log != [] {
      var front, e := log[..|log| - 1], log[|log| - 1];
      assert log == front + [e];
      MonitorPrefix(EMPTY_BOARD, front, [e]);
      MonitorConcat(EMPTY_BOARD, front, [e]);
      ServedInOrder(front);
      StartedConcat(front, [e]);
      AcceptedConcat(front, [e]);
      var b := Monitor(EMPTY_BOARD, front).value;
      ServedStep(StartedIds(front), AcceptedIds(front), b, e);
    }
  }

  lemma ServedFinish(started: seq<Id>, accepted: seq<Id>, line: seq<Id>, id: Id)
    requires Subsequence(started + line, accepted) && id in line
    ensures Subsequence(started + RemoveFirst(line, id), accepted)
  {
    var k := RemoveFirstIndex(line, id);
    var all := started + line;
    SubsequenceWithout(all, accepted, |started| + k);
    assert started + RemoveFirst(line, id) == all[..|started| + k] + all[|started| + k + 1..];
  }

  lemma OneEvent(e: Event)
    ensures StartedIds([e]) == if e.Started? then [e.id] else []
    ensures AcceptedIds([e]) == if e.Accepted? && e.queued then [e.id] else []
  {
    assert [e][1..] == [];
  }

  lemma ServedAccepted(started: seq<Id>, accepted: seq<Id>, line: seq<Id>, id: Id)
    requires Subsequence(started + line, accepted)
    ensures Subsequence(started + (line + [id]), accepted + [id])
  {
    SubsequenceBoth(started + line, accepted, id);
    assert started + line + [id] == started + (line + [id]);
  }

  lemma ServedStarted(started: seq<Id>, accepted: seq<Id>, line: seq<Id>)
    requires Subsequence(started + line, accepted) && line != []
    ensures Subsequence(started + [line[0]] + line[1..], accepted)
  {
    assert started + [line[0]] + line[1..] == started + line;
  }

  lemma ServedStep(started: seq<Id>, accepted: seq<Id>, b: Board, e: Event)
    requires Subsequence(started + b.line, accepted) && Observe(b, e).Some?
    ensures Subsequence(started + StartedIds([e]) + Observe(b, e).value.line, accepted + AcceptedIds([e]))
  {
    OneEvent(e);
    assert started + [] == started && accepted + [] == accepted;
    if e.Accepted? && e.queued {
      ServedAccepted(started, accepted, b.line, e.id);
    } else if e.Finished? && b.running != Some(e.id) {
      ServedFinish(started, accepted, b.line, e.id);
    } else if e.Started? {
      ServedStarted(started, accepted, b.line);
    }
  }

  lemma {:induction false} MonitorPrefix(b: Board, first: seq<Event>, second: seq<Event>)
    requires Monitor(b, first + second).Some?
    ensures Monitor(b, first).Some?
    decreases |first|
  {
    if first != [] {
      assert (first + second)[1..] == first[1..] + second;
      MonitorPrefix(Observe(b, first[0]).value, first[1..], second);
    }
  }

  // ---- who is left out ------------------------------------------------------------------

  /** The ids whose jobs ended while they stood in line. */
  function CancelledInLine(b: Board, log: seq<Event>): seq<Id>
    decreases |log|
  {
    if log == [] || Observe(b, log[0]).None? then []
    else
      (if log[0].Finished? && b.running != Some(log[0].id) then [log[0].id] else [])
      + CancelledInLine(Observe(b, log[0]).value, log[1..])
  }

  /** One event moves an id from the acceptances into the line, and from the line to the starts or to the cancelled. */
  lemma ObserveMoves(b: Board, e: Event, id: Id)
    requires Observe(b, e).Some?
    ensures multiset(b.line)[id] + multiset(AcceptedIds([e]))[id] ==
      multiset(StartedIds([e]))[id] + multiset(Observe(b, e).value.line)[id]
      + if e.Finished? && b.running != Some(e.id) && e.id == id then 1 else 0
  {
    OneEvent(e);
    if e.Finished? && b.running != Some(e.id) {
      RemoveFirstCounts(b.line, e.id);
    } else if e.Started? {
      assert b.line == [b.line[0]] + b.line[1..];
    }
  }

  /** Whoever is accepted starts, still waits, or was cancelled in line; there is no other way out of the line. */
  lemma {:induction false} EveryoneIsAccountedFor(b: Board, log: seq<Event>, id: Id)
    requires Monitor(b, log).Some?
    ensures multiset(b.line)[id] + multiset(AcceptedIds(log))[id] ==
      multiset(StartedIds(log))[id] + multiset(Monitor(b, log).value.line)[id] + multiset(CancelledInLine(b, log))[id]
    decreases |log|
  {
    if log != [] {
      var next := Observe(b, log[0]).value;
      assert log == [log[0]] + log[1..];
      ObserveMoves(b, log[0], id);
      EveryoneIsAccountedFor(next, log[1..], id);
      AcceptedConcat([log[0]], log[1..]);
      StartedConcat([log[0]], log[1..]);
    }
  }

  lemma AllAreAccountedFor(log: seq<Event>)
    requires Monitor(EMPTY_BOARD, log).Some?
    ensures forall id ::
      multiset(AcceptedIds(log))[id] ==
      multiset(StartedIds(log))[id] + multiset(Monitor(EMPTY_BOARD, log).value.line)[id]
      + multiset(CancelledInLine(EMPTY_BOARD, log))[id]
  {
    forall id
      ensures multiset(AcceptedIds(log))[id] ==
        multiset(StartedIds(log))[id] + multiset(Monitor(EMPTY_BOARD, log).value.line)[id]
        + multiset(CancelledInLine(EMPTY_BOARD, log))[id]
    {
      EveryoneIsAccountedFor(EMPTY_BOARD, log, id);
    }
  }

  // ---- a job that is not in line does not start ----------------------------------------

  /** Until it is accepted again, an id that is not in line is not started. */
  lemma {:induction false} NoStartWithoutAcceptance(b: Board, log: seq<Event>, id: Id)
    requires Monitor(b, log).Some? && id !in b.line
    requires AcceptedCount(log, id) == 0
    ensures id !in StartedIds(log)
    decreases |log|
  {
    if log != [] {
      var next := Observe(b, log[0]).value;
      if log[0].Finished? && b.running != Some(log[0].id) {
        var k := RemoveFirstIndex(b.line, log[0].id);
        assert id !in next.line;
      }
      NoStartWithoutAcceptance(next, log[1..], id);
    }
  }
}
