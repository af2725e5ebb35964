// Sequence tracking of a depth stream: which deltas are accepted, and what the state then says
// about the ids covered since the last snapshot.
module BookIntegrity {
  import opened Wrappers

  // Why the book was invalidated: a jump past the next expected id, or a caller's reason.
  datatype Reason = SequenceGap(expected: int, got: int) | Given(text: string)

  datatype State = State(
    hasSnapshot: bool, lastUpdateId: int, isValid: bool,
    gapDetectedAtMs: Option<int>, invalidatedReason: Option<Reason>,
    snapshotReceivedAtMs: int, deltasApplied: nat, deltasSkipped: nat)

  const INITIAL: State := State(false, 0, false, None, None, 0, 0, 0)

  datatype Event =
    | Snapshot(id: int, at: int)
    | Delta(first: int, last: int, at: int)
    | Invalidation(reason: string, at: int)

  datatype Verdict = NoSnapshot | Stale | Gap | Accepted

  function Judge(s: State, first: int, last: int): Verdict {
    if !s.hasSnapshot then NoSnapshot
    else if last <= s.lastUpdateId then Stale
    else if first > s.lastUpdateId + 1 then Gap
    else Accepted
  }

  function Step(s: State, e: Event): State {
    match e
    case Snapshot(id, at) => State(true, id, true, None, None, at, 0, 0)
    case Invalidation(reason, at) =>
      s.(isValid := false, gapDetectedAtMs := Some(at), invalidatedReason := Some(Given(reason)))
    case Delta(first, last, at) =>
      match Judge(s, first, last)
      case Accepted => s.(lastUpdateId := last, deltasApplied := s.deltasApplied + 1)
      case Gap => s.(isValid := false, gapDetectedAtMs := Some(at),
                     invalidatedReason := Some(SequenceGap(s.lastUpdateId + 1, first)),
                     deltasSkipped := s.deltasSkipped + 1)
      case _ => s.(deltasSkipped := s.deltasSkipped + 1)
  }

  function Run(es: seq<Event>): State {
    if es == [] then INITIAL else Step(Run(es[..|es| - 1]), es[|es| - 1])
  }

  // ---- Reading a run ----

  // The position after the last snapshot, or 0 if there was none.
  function Mark(es: seq<Event>): (m: nat)
    ensures m <= |es| && (m > 0 ==> es[m - 1].Snapshot?)
    ensures forall i | m <= i < |es| :: !es[i].Snapshot?
  {
    if es == [] then 0 else if es[|es| - 1].Snapshot? then |es| else Mark(es[..|es| - 1])
  }

  predicate AcceptedAt(es: seq<Event>, i: int) {
    0 <= i < |es| && es[i].Delta? && Judge(Run(es[..i]), es[i].first, es[i].last) == Accepted
  }

  predicate GapAt(es: seq<Event>, i: int) {
    0 <= i < |es| && es[i].Delta? && Judge(Run(es[..i]), es[i].first, es[i].last) == Gap
  }

  predicate Covers(e: Event, id: int) {
    e.Delta? && e.first <= id <= e.last
  }

  lemma SameVerdicts(es: seq<Event>, e: Event, i: int)
    requires 0 <= i < |es|
    ensures AcceptedAt(es + [e], i) == AcceptedAt(es, i) && GapAt(es + [e], i) == GapAt(es, i)
  {
    assert (es + [e])[..i] == es[..i] && (es + [e])[i] == es[i];
  }

  // ---- Coverage ----

  // No id is skipped: every id after the snapshot up to the tracked one lies in an accepted delta.
  lemma {:induction false} EveryIdIsCovered(es: seq<Event>, id: int)
    requires Mark(es) > 0 && es[Mark(es) - 1].id < id <= Run(es).lastUpdateId
    ensures exists i | Mark(es) <= i < |es| :: AcceptedAt(es, i) && Covers(es[i], id)
  {
    var init, e := es[..|es| - 1], es[|es| - 1];
    assert es == init + [e];
    if !e.Snapshot? {
      if id <= Run(init).lastUpdateId {
        EveryIdIsCovered(init, id);
        var i :| Mark(init) <= i < |init| && AcceptedAt(init, i) && Covers(init[i], id);
        SameVerdicts(init, e, i);
        assert AcceptedAt(es, i) && Covers(es[i], id);
      } else {
        SnapshotIsSeen(init);
        assert AcceptedAt(es, |es| - 1) && Covers(es[|es| - 1], id);
      }
    }
  }

  lemma {:induction false} SnapshotIsSeen(es: seq<Event>)
    ensures Run(es).hasSnapshot <==> Mark(es) > 0
    ensures Mark(es) > 0 ==> Run(es).lastUpdateId >= es[Mark(es) - 1].id
  {
    if es != [] { SnapshotIsSeen(es[..|es| - 1]); }
  }

  // The tracked id is the last one of the latest accepted delta, else the snapshot's, and every
  // acceptance moves it strictly forward.
  lemma AcceptanceMovesForward(es: seq<Event>, e: Event)
    requires !e.Snapshot?
    ensures AcceptedAt(es + [e], |es|) ==> Run(es + [e]).lastUpdateId == e.last > Run(es).lastUpdateId
    ensures !AcceptedAt(es + [e], |es|) ==> Run(es + [e]).lastUpdateId == Run(es).lastUpdateId
  {
    assert (es + [e])[..|es|] == es;
  }

  // Which deltas of a run are applied and which are gaps: after a snapshot, a delta that contains the next
  // id, however far back it starts, is applied; one that starts beyond it is a gap and invalidates the book;
  // one that ends before it, and any delta without a snapshot, leaves position and validity alone.
  lemma AppliedExactly(es: seq<Event>, first: int, last: int, at: int)
    ensures
      var e, next := Delta(first, last, at), Run(es).lastUpdateId + 1;
      && (AcceptedAt(es + [e], |es|) <==> Mark(es) > 0 && first <= next <= last)
      && (GapAt(es + [e], |es|) <==> Mark(es) > 0 && next < first && next <= last)
      && (AcceptedAt(es + [e], |es|) ==> Run(es + [e]).lastUpdateId == last && Run(es + [e]).isValid == Run(es).isValid)
      && (GapAt(es + [e], |es|) ==> Run(es + [e]).lastUpdateId == Run(es).lastUpdateId && !Run(es + [e]).isValid)
      && (Mark(es) == 0 || last < next ==>
            Run(es + [e]).lastUpdateId == Run(es).lastUpdateId && Run(es + [e]).isValid == Run(es).isValid)
  {
    SnapshotIsSeen(es);
    assert (es + [Delta(first, last, at)])[..|es|] == es;
  }

  // ---- Validity ----

  ghost predicate DisturbedSince(es: seq<Event>, m: nat) {
    exists i | m <= i < |es| :: GapAt(es, i) || es[i].Invalidation?
  }

  // The book is valid exactly if there is a snapshot with no gap and no invalidation after it.
  lemma {:induction false} ValidityIsExact(es: seq<Event>)
    ensures Run(es).isValid <==> Mark(es) > 0 && !DisturbedSince(es, Mark(es))
  {
    if es != [] {
      var init, e := es[..|es| - 1], es[|es| - 1];
      assert es == init + [e];
      ValidityIsExact(init);
      if !e.Snapshot? {
        DisturbanceAppend(init, e, Mark(es));
        SnapshotIsSeen(init);
      }
    }
  }

  lemma DisturbanceAppend(es: seq<Event>, e: Event, m: nat)
    requires m <= |es|
    ensures DisturbedSince(es + [e], m) <==> DisturbedSince(es, m) || GapAt(es + [e], |es|) || e.Invalidation?
  {
    var out := es + [e];
    forall i | 0 <= i < |es| ensures GapAt(out, i) == GapAt(es, i) && out[i] == es[i] {
      SameVerdicts(es, e, i);
    }
    if DisturbedSince(es, m) {
      var i :| m <= i < |es| && (GapAt(es, i) || es[i].Invalidation?);
      assert GapAt(out, i) || out[i].Invalidation?;
    }
    if GapAt(out, |es|) || e.Invalidation? {
      assert GapAt(out, |es|) || out[|es|].Invalidation?;
    }
  }

  // Acceptance looks at the ids alone.  A delta that still fits is accepted, and reported as valid to
  // the caller, on a book that a gap has invalidated: acceptance implies validity exactly while no
  // gap or invalidation followed the snapshot.
  lemma AcceptedDeltaOnABrokenBook(es: seq<Event>, e: Event)
    requires AcceptedAt(es + [e], |es|)
    ensures Run(es + [e]).isValid <==> !DisturbedSince(es, Mark(es))
  {
    assert (es + [e])[..|es|] == es;
    ValidityIsExact(es);
    SnapshotIsSeen(es);
  }

  lemma AcceptanceDoesNotImplyValidity()
    ensures exists es, e :: AcceptedAt(es + [e], |es|) && !Run(es + [e]).isValid
  {
    var es, e := [Snapshot(10, 0), Delta(20, 25, 1)], Delta(11, 12, 2);
    var s1 := [Snapshot(10, 0)];
    assert s1[..0] == [] && es[..1] == s1 && (es + [e])[..2] == es;
    assert Run([]) == INITIAL;
    assert Run(s1) == State(true, 10, true, None, None, 0, 0, 0);
    assert Run(es) == State(true, 10, false, Some(1), Some(SequenceGap(11, 20)), 0, 0, 1);
    assert AcceptedAt(es + [e], |es|) && !Run(es + [e]).isValid;
  }

  // ---- Counting ----

  function DeltasIn(es: seq<Event>, m: nat): nat
    requires m <= |es|
  {
    if |es| == m then 0 else DeltasIn(es[..|es| - 1], m) + (if es[|es| - 1].Delta? then 1 else 0)
  }

  // Every delta since the last snapshot is counted once, as applied or as skipped.
  lemma {:induction false} CountersAddUp(es: seq<Event>)
    ensures Run(es).deltasApplied + Run(es).deltasSkipped == DeltasIn(es, Mark(es))
  {
    if es != [] { CountersAddUp(es[..|es| - 1]); }
  }

  // ---- The tracker ----

  class BookIntegrityState {
    var hasSnapshot: bool
    var lastUpdateId: int
    var isValid: bool
    var gapDetectedAtMs: Option<int>
    var invalidatedReason: Option<Reason>
    var snapshotReceivedAtMs: int
    var deltasApplied: nat
    var deltasSkipped: nat

    function Contents(): State
      reads this
    {
      State(hasSnapshot, lastUpdateId, isValid, gapDetectedAtMs, invalidatedReason, snapshotReceivedAtMs,
            deltasApplied, deltasSkipped)
    }

    constructor ()
      ensures Contents() == Run([])
    {
      hasSnapshot, lastUpdateId, isValid, gapDetectedAtMs, invalidatedReason := false, 0, false, None, None;
      snapshotReceivedAtMs, deltasApplied, deltasSkipped := 0, 0, 0;
    }

    method OnSnapshot(id: int, receivedMs: int)
      modifies this
      ensures Contents() == Step(old(Contents()), Snapshot(id, receivedMs))
      ensures hasSnapshot && isValid && lastUpdateId == id && snapshotReceivedAtMs == receivedMs
      ensures gapDetectedAtMs == None && invalidatedReason == None && deltasApplied == 0 && deltasSkipped == 0
    {
      hasSnapshot := true;
      lastUpdateId := id;
      isValid := true;
      gapDetectedAtMs := None;
      invalidatedReason := None;
      snapshotReceivedAtMs := receivedMs;
      deltasApplied, deltasSkipped := 0, 0;
    }

    method OnDelta(first: int, last: int, receivedMs: int) returns (applied: bool)
      modifies this
      ensures Contents() == Step(old(Contents()), Delta(first, last, receivedMs))
      ensures applied <==> Judge(old(Contents()), first, last) == Accepted
      // Applied exactly if there is a snapshot and the next id lies in the delta.
      ensures applied <==> old(hasSnapshot) && first <= old(lastUpdateId) + 1 <= last
      ensures lastUpdateId == if applied then last else old(lastUpdateId)
      ensures deltasApplied == old(deltasApplied) + (if applied then 1 else 0)
      ensures deltasSkipped == old(deltasSkipped) + (if applied then 0 else 1)
      // Invalidated exactly if it starts beyond the next id, whatever the book was before.
      ensures
        if old(hasSnapshot) && first > old(lastUpdateId) + 1 && last > old(lastUpdateId) then
          && !isValid && gapDetectedAtMs == Some(receivedMs)
          && invalidatedReason == Some(SequenceGap(old(lastUpdateId) + 1, first))
        else
          && isValid == old(isValid) && gapDetectedAtMs == old(gapDetectedAtMs)
          && invalidatedReason == old(invalidatedReason)
      ensures hasSnapshot == old(hasSnapshot) && snapshotReceivedAtMs == old(snapshotReceivedAtMs)
    {
      if !hasSnapshot {
        deltasSkipped := deltasSkipped + 1;
        return false;
      }
      if last <= lastUpdateId {
        deltasSkipped := deltasSkipped + 1;
        return false;
      }
      var expectedNext := lastUpdateId + 1;
      if first > expectedNext {
        isValid := false;
        gapDetectedAtMs := Some(receivedMs);
        invalidatedReason := Some(SequenceGap(expectedNext, first));
        deltasSkipped := deltasSkipped + 1;
        return false;
      }
      lastUpdateId := last;
      deltasApplied := deltasApplied + 1;
      applied := true;
    }

    method Invalidate(reason: string, receivedMs: int)
      modifies this
      ensures Contents() == Step(old(Contents()), Invalidation(reason, receivedMs))
      ensures !isValid && gapDetectedAtMs == Some(receivedMs) && invalidatedReason == Some(Given(reason))
      ensures hasSnapshot == old(hasSnapshot) && lastUpdateId == old(lastUpdateId)
      ensures snapshotReceivedAtMs == old(snapshotReceivedAtMs)
      ensures deltasApplied == old(deltasApplied) && deltasSkipped == old(deltasSkipped)
    {
      isValid := false;
      gapDetectedAtMs := Some(receivedMs);
      invalidatedReason := Some(Given(reason));
    }
  }
}
