/** The work-order lifecycle: a fixed transition table and one membership check. */
module Lifecycle {
  datatype Status = Open | Assigned | InProgress | Blocked | Completed | Cancelled

  function AllowedTransitions(from: Status): set<Status> {
    match from
    case Open => {Assigned, Cancelled}
    case Assigned => {InProgress, Cancelled}
    case InProgress => {Completed, Blocked, Cancelled}
    case Blocked => {InProgress, Cancelled}
    case Completed => {}
    case Cancelled => {}
  }

  predicate CanTransition(from: Status, to: Status) {
    to in AllowedTransitions(from)
  }

  /** The statuses the partial unique index and the monitoring checks call active. */
  predicate IsActive(s: Status) {
    s in {Open, Assigned, InProgress, Blocked}
  }

  /** Every active order can be cancelled; besides that there are five moves. */
  lemma TransitionsAre(from: Status, to: Status)
    ensures CanTransition(from, to) <==>
              || (to == Cancelled && from != Completed && from != Cancelled)
              || (from == Open && to == Assigned)
              || (from == Assigned && to == InProgress)
              || (from == InProgress && (to == Completed || to == Blocked))
              || (from == Blocked && to == InProgress)
    ensures IsActive(from) <==> from != Completed && from != Cancelled
  {
  }

  predicate IsPath(path: seq<Status>) {
    forall i :: 0 < i < |path| ==> CanTransition(path[i - 1], path[i])
  }

  /** Terminal statuses are absorbing: along any sequence of transitions only the last status can
      be inactive, and an inactive status is exactly one with no way out. */
  lemma TerminalIsAbsorbing(path: seq<Status>)
    requires IsPath(path)
    ensures forall i :: 0 <= i < |path| && !IsActive(path[i]) ==> i == |path| - 1
    ensures forall s: Status :: !IsActive(s) <==> AllowedTransitions(s) == {}
  {
    forall s: Status
      ensures !IsActive(s) <==> AllowedTransitions(s) == {}
    {
      assert IsActive(s) ==> Cancelled in AllowedTransitions(s);
    }
    forall i | 0 <= i < |path| && !IsActive(path[i])
      ensures i == |path| - 1
    {
      var next := i + 1;
      assert next < |path| ==> CanTransition(path[next - 1], path[next]);
    }
  }
}
