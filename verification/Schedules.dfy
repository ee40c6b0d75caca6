/** Infinite schedules: if every step that is not idle lowers a well-founded measure, a schedule with
    boundedly many idle steps comes to its end. */
module Schedules {
  import opened FetchingProgress

  /** The rank of the fetch protocol, and below it the work inside a backend. */
  datatype Measure = Measure(rank: Rank, first: nat, second: nat)

  predicate Falls(m: Measure, n: Measure) {
    || Below(m.rank, n.rank)
    || (m.rank == n.rank && (m.first < n.first || (m.first == n.first && m.second < n.second)))
  }

  /** How many of the first `k` steps are idle. */
  function IdleUpTo(idle: nat -> bool, k: nat): nat {
    if k == 0 then 0 else IdleUpTo(idle, k - 1) + if idle(k - 1) then 1 else 0
  }

  predicate PatientAt(idle: nat -> bool, over: nat -> bool, patience: nat, k: nat) {
    over(k) || IdleUpTo(idle, k) <= patience
  }

  ghost predicate Patient(idle: nat -> bool, over: nat -> bool, patience: nat) {
    forall k: nat :: PatientAt(idle, over, patience, k)
  }

  predicate FallsAt(measure: nat -> Measure, idle: nat -> bool, over: nat -> bool, k: nat) {
    over(k) || idle(k) || Falls(measure(k + 1), measure(k))
  }

  ghost predicate Falling(measure: nat -> Measure, idle: nat -> bool, over: nat -> bool) {
    forall k: nat :: FallsAt(measure, idle, over, k)
  }

  /** Induction along a schedule. */
  predicate GoesOn(holds: nat -> bool, k: nat) { holds(k) ==> holds(k + 1) }

  lemma {:induction false} AlwaysHolds(holds: nat -> bool, k: nat)
    requires holds(0) && forall i: nat :: GoesOn(holds, i)
    ensures holds(k)
  {
    if k > 0 {
      AlwaysHolds(holds, k - 1);
      assert GoesOn(holds, k - 1);
    }
  }

  lemma {:induction false} ScheduleEnds(measure: nat -> Measure, idle: nat -> bool, over: nat -> bool,
                                        patience: nat, k: nat) returns (n: nat)
    requires Patient(idle, over, patience) && Falling(measure, idle, over)
    ensures over(n)
    decreases patience - IdleUpTo(idle, k), measure(k).rank.derivations, measure(k).rank.addrRequests,
              measure(k).rank.addrResponses, measure(k).rank.scan, measure(k).rank.txRequests,
              measure(k).rank.txResponses, measure(k).rank.store, measure(k).rank.distance,
              measure(k).rank.running, measure(k).first, measure(k).second
  {
    if over(k) {
      n := k;
    } else {
      assert FallsAt(measure, idle, over, k);
      assert PatientAt(idle, over, patience, k) && PatientAt(idle, over, patience, k + 1);
      n := ScheduleEnds(measure, idle, over, patience, k + 1);
    }
  }
}
