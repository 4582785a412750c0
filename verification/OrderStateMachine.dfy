/** The order lifecycle as a finite state machine (src/modules/orders/order-state-machine.ts). */
module OrderStateMachine {

  datatype OrderStatus = PENDING | RESERVED | PAID | COMPLETED | FAILED | CANCELLED

  /** ORDER_TRANSITIONS. */
  function OrderTransitions(from: OrderStatus): seq<OrderStatus> {
    match from
    case PENDING => [RESERVED, FAILED, CANCELLED]
    case RESERVED => [PAID, FAILED, CANCELLED]
    case PAID => [COMPLETED]
    case COMPLETED => []
    case FAILED => []
    case CANCELLED => []
  }

  predicate IsTransitionAllowed(from: OrderStatus, to: OrderStatus) {
    to in OrderTransitions(from)
  }

  predicate IsTerminalStatus(status: OrderStatus) {
    |OrderTransitions(status)| == 0
  }

  /** The rules of the lifecycle: what leads to each status, and no move back or in place. */
  lemma TransitionRules(from: OrderStatus, to: OrderStatus)
    ensures IsTransitionAllowed(from, RESERVED) <==> from == PENDING
    ensures IsTransitionAllowed(from, PAID) <==> from == RESERVED
    ensures IsTransitionAllowed(from, COMPLETED) <==> from == PAID
    ensures IsTransitionAllowed(from, FAILED) <==> from in {PENDING, RESERVED}
    ensures IsTransitionAllowed(from, CANCELLED) <==> from in {PENDING, RESERVED}
    ensures !IsTransitionAllowed(from, PENDING)
    ensures IsTerminalStatus(from) <==> from in {COMPLETED, FAILED, CANCELLED}
    ensures IsTransitionAllowed(from, to) ==> Rank(from) < Rank(to)
  {
  }

  /** A history of statuses in which every consecutive pair is a legal transition. */
  ghost predicate LegalHistory(h: seq<OrderStatus>) {
    forall i :: 0 <= i < |h| - 1 ==> IsTransitionAllowed(h[i], h[i + 1])
  }

  /** Distance from the start of the happy path; strictly grows along legal transitions. */
  function Rank(status: OrderStatus): nat {
    match status
    case PENDING => 0
    case RESERVED => 1
    case PAID => 2
    case COMPLETED => 3
    case FAILED => 3
    case CANCELLED => 3
  }

  /** A legal history climbs at least one rank a step. */
  lemma {:induction false} HistoryClimbs(h: seq<OrderStatus>, i: nat, j: nat)
    requires LegalHistory(h)
    requires i <= j < |h|
    ensures Rank(h[i]) + (j - i) <= Rank(h[j])
  {
    if i < j {
      HistoryClimbs(h, i, j - 1);
      assert IsTransitionAllowed(h[j - 1], h[j]);
    }
  }

  /** Every life is short, visits no status twice, and stops at the first terminal status. */
  lemma LifeIsFinite(h: seq<OrderStatus>)
    requires LegalHistory(h)
    ensures |h| <= 4
    ensures forall i, j :: 0 <= i < j < |h| ==> h[i] != h[j]
    ensures forall i :: 0 <= i < |h| - 1 ==> !IsTerminalStatus(h[i])
  {
    if |h| > 0 {
      HistoryClimbs(h, 0, |h| - 1);
    }
    forall i, j | 0 <= i < j < |h| ensures h[i] != h[j] {
      HistoryClimbs(h, i, j);
    }
    forall i | 0 <= i < |h| - 1 ensures !IsTerminalStatus(h[i]) {
      assert IsTransitionAllowed(h[i], h[i + 1]);
    }
  }
}
