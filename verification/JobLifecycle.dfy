// The job status table of the execution service and what every path through it has in common.
module JobLifecycle {

  // Unlisted stands for any status string that is not a key of the table.
  datatype JobStatus =
    | Queued | Approved | Blocked | Submitted | Acknowledged
    | PartiallyFilled | Filled | Canceled | Failed | RolledBack
    | Unlisted(name: string)

  function NextStatuses(s: JobStatus): set<JobStatus> {
    match s
    case Queued => {Approved, Blocked, Failed}
    case Approved => {Submitted, Failed}
    case Submitted => {Acknowledged, Failed, Canceled}
    case Acknowledged => {PartiallyFilled, Filled, Canceled, Failed}
    case PartiallyFilled => {Filled, Canceled, Failed}
    case Failed => {RolledBack}
    case _ => {}
  }

  predicate CanTransition(from: JobStatus, to: JobStatus) {
    to in NextStatuses(from)
  }

  predicate IsTerminal(s: JobStatus) {
    !s.Unlisted? && NextStatuses(s) == {}
  }

  // The table read by target: which statuses lead to each status, and which lead nowhere.
  lemma EnteredFrom(from: JobStatus, to: JobStatus)
    ensures CanTransition(from, to) <==>
      match to
      case Queued => false
      case Approved => from == Queued
      case Blocked => from == Queued
      case Submitted => from == Approved
      case Acknowledged => from == Submitted
      case PartiallyFilled => from == Acknowledged
      case Filled => from in {Acknowledged, PartiallyFilled}
      case Canceled => from in {Submitted, Acknowledged, PartiallyFilled}
      case Failed => from in {Queued, Approved, Submitted, Acknowledged, PartiallyFilled}
      case RolledBack => from == Failed
      case Unlisted(_) => false
    ensures IsTerminal(from) <==> from in {Blocked, Filled, Canceled, RolledBack}
  {
    assert from.Queued? ==> Approved in NextStatuses(from);
    assert from.Approved? ==> Submitted in NextStatuses(from);
    assert from.Submitted? ==> Acknowledged in NextStatuses(from);
    assert from.Acknowledged? || from.PartiallyFilled? ==> Filled in NextStatuses(from);
    assert from.Failed? ==> RolledBack in NextStatuses(from);
  }

  // A history of statuses in which every step is allowed by the table.
  predicate LegalPath(p: seq<JobStatus>) {
    |p| > 0 && forall i {:trigger p[i]} :: 0 < i < |p| ==> CanTransition(p[i - 1], p[i])
  }

  lemma LegalPathExtends(p: seq<JobStatus>, s: JobStatus)
    requires LegalPath(p) && CanTransition(p[|p| - 1], s)
    ensures LegalPath(p + [s])
  {
    var q := p + [s];
    forall i | 0 < i < |q| ensures CanTransition(q[i - 1], q[i]) {
      assert i < |p| ==> q[i] == p[i] && q[i - 1] == p[i - 1];
    }
  }

  // The number of transitions still possible from a status.
  function Rank(s: JobStatus): nat {
    match s
    case Queued => 6
    case Approved => 5
    case Submitted => 4
    case Acknowledged => 3
    case PartiallyFilled => 2
    case Failed => 1
    case _ => 0
  }

  // Every legal path strictly descends, so it is short, never repeats a status, and can only end
  // in a terminal status once that status is reached; seven statuses is the exact maximum.
  lemma {:induction false} LegalPathsDescend(p: seq<JobStatus>)
    requires LegalPath(p)
    ensures |p| - 1 <= Rank(p[0]) - Rank(p[|p| - 1]) <= 6
    ensures forall i, j :: 0 <= i < j < |p| ==> Rank(p[i]) > Rank(p[j])
    ensures forall i :: 0 <= i < |p| - 1 ==> !IsTerminal(p[i])
  {
    if |p| > 1 {
      var init := p[..|p| - 1];
      forall i | 0 < i < |init| ensures CanTransition(init[i - 1], init[i]) {
        assert init[i] == p[i] && init[i - 1] == p[i - 1];
      }
      LegalPathsDescend(init);
      assert CanTransition(p[|p| - 2], p[|p| - 1]);
      assert init[|init| - 1] == p[|p| - 2];
      forall i, j | 0 <= i < j < |p| ensures Rank(p[i]) > Rank(p[j]) {
        if j == |p| - 1 {
          assert Rank(init[i]) >= Rank(init[|init| - 1]);
        } else {
          assert Rank(init[i]) > Rank(init[j]);
        }
      }
      forall i | 0 <= i < |p| - 1 ensures !IsTerminal(p[i]) {
        assert p[i] == init[i];
      }
    }
  }

  lemma SixTransitionsIsTheMaximum()
    ensures exists p :: LegalPath(p) && |p| == 7 && p[0] == Queued
    ensures forall p :: LegalPath(p) ==> |p| <= 7
  {
    var p := [Queued, Approved, Submitted, Acknowledged, PartiallyFilled, Failed, RolledBack];
    assert CanTransition(p[0], p[1]) && CanTransition(p[1], p[2]) && CanTransition(p[2], p[3]);
    assert CanTransition(p[3], p[4]) && CanTransition(p[4], p[5]) && CanTransition(p[5], p[6]);
    assert LegalPath(p);
    forall q | LegalPath(q) ensures |q| <= 7 {
      LegalPathsDescend(q);
    }
  }
}
