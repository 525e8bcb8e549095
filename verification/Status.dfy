/** The persisted status of an upgrade. */
module Status {

  datatype Status = Unset | Init | Running | Completed | Error {
    /** Membership in FiniteStates. */
    predicate Finite() {
      Completed? || Error?
    }

    function Rank(): nat {
      match this
      case Unset => 0
      case Init => 1
      case Running => 2
      case Completed => 3
      case Error => 3
    }

    /** The status may change from this to `next`: forwards only, and never out of a finite state. */
    predicate MayBecome(next: Status) {
      this == next || (!Finite() && Rank() < next.Rank())
    }
  }

  lemma MayBecomeTransitive(a: Status, b: Status, c: Status)
    requires a.MayBecome(b) && b.MayBecome(c)
    ensures a.MayBecome(c)
  {
  }

  /** Where no single change goes backwards, none between any two points does. */
  lemma {:induction false} ForwardThroughout(statuses: seq<Status>, m: nat, n: nat)
    requires m <= n < |statuses|
    requires forall i :: m <= i < n ==> statuses[i].MayBecome(statuses[i + 1])
    ensures statuses[m].MayBecome(statuses[n])
  {
    if m < n {
      ForwardThroughout(statuses, m, n - 1);
      assert statuses[n - 1].MayBecome(statuses[n - 1 + 1]);
      MayBecomeTransitive(statuses[m], statuses[n - 1], statuses[n]);
    }
  }
}
