/** The simulated bridge: an order is taken once per reference, and its status is computed
    from the order and the clock. */
module Bridge {
  import opened Basics
  import opened Ledger

  datatype Order = Order(
    ref: string, amount: Money, source: string, destination: string, address: string)

  datatype Accepted = Accepted(order: Order, bridgeRef: string, submittedAt: int)

  datatype Mode = Healthy | SubmitUnavailable | SubmitRejected | TransferFailed | Stuck

  datatype BridgeState = BridgeState(accepted: map<string, Accepted>, fee: nat, latency: nat, mode: Mode)

  datatype Status = InFlight | Completed | Failed

  datatype Transfer = Transfer(bridgeRef: string, status: Status, amountIn: Money, amountOut: Option<Money>)

  /** `Unavailable` is worth repeating; `Refused` is not. */
  datatype Answer = Took(transfer: Transfer) | Unavailable | Refused

  function RefFor(orderRef: string): string {
    "sim_" + orderRef
  }

  function View(b: BridgeState, a: Accepted, now: int): Transfer {
    if b.mode == Stuck || now < a.submittedAt + b.latency then
      Transfer(a.bridgeRef, InFlight, a.order.amount, None)
    else if b.mode == TransferFailed then
      Transfer(a.bridgeRef, Failed, a.order.amount, None)
    else
      Transfer(a.bridgeRef, Completed, a.order.amount,
               Some(Money(a.order.amount.minor - b.fee, a.order.amount.currency)))
  }

  function Submit(b: BridgeState, order: Order, now: int): (BridgeState, Answer) {
    if order.amount.minor <= 0 || b.fee >= order.amount.minor then (b, Refused)
    else if order.ref in b.accepted then
      if b.accepted[order.ref].order != order then (b, Refused)
      else (b, Took(View(b, b.accepted[order.ref], now)))
    else if b.mode == SubmitUnavailable then (b, Unavailable)
    else if b.mode == SubmitRejected then (b, Refused)
    else
      var a := Accepted(order, RefFor(order.ref), now);
      (b.(accepted := b.accepted[order.ref := a]), Took(View(b, a, now)))
  }

  /** The order a bridge reference was derived from, if it was accepted. */
  function OrderBehind(b: BridgeState, bridgeRef: string): Option<string> {
    if |bridgeRef| >= 4 && bridgeRef[..4] == "sim_" && bridgeRef[4..] in b.accepted
    then Some(bridgeRef[4..]) else None
  }

  function StatusOf(b: BridgeState, bridgeRef: string, now: int): Answer {
    var key := OrderBehind(b, bridgeRef);
    if key.None? then Refused else Took(View(b, b.accepted[key.value], now))
  }

  /** Each accepted order is filed under its own reference and leaves something to deliver. */
  ghost predicate Filed(b: BridgeState) {
    forall r :: r in b.accepted ==>
      && b.accepted[r].order.ref == r
      && b.accepted[r].bridgeRef == RefFor(r)
      && b.accepted[r].order.amount.minor > b.fee
  }

  /** Repeating an order changes nothing, and no order is ever replaced. */
  lemma SubmitTwice(b: BridgeState, order: Order, other: Order, now: int, later: int)
    requires Filed(b) && Submit(b, order, now).1.Took?
    ensures
      var after := Submit(b, order, now).0;
      && Filed(after) && order.ref in after.accepted && after.accepted[order.ref].order == order
      && Submit(after, order, later).0 == after && Submit(after, order, later).1.Took?
      && Submit(after, order, later).1.transfer.bridgeRef == Submit(b, order, now).1.transfer.bridgeRef
      && (other.ref == order.ref && other != order ==> Submit(after, other, later) == (after, Refused))
      && (forall r :: r in b.accepted ==> r in after.accepted && after.accepted[r] == b.accepted[r])
  {}

  /** Something is left to deliver. */
  predicate Carriable(b: BridgeState, order: Order) {
    order.amount.minor > 0 && order.amount.minor > b.fee
  }

  /** An order is taken exactly when it is worth carrying and is new to a bridge that takes orders,
      or is the one already taken; a new one is filed as of now, and nothing else changes. */
  lemma SubmitIsExact(b: BridgeState, order: Order, now: int)
    requires Filed(b)
    ensures var (after, answer) := Submit(b, order, now);
            var known := order.ref in b.accepted;
            && (answer.Took? <==>
                  && Carriable(b, order)
                  && if known then b.accepted[order.ref].order == order
                     else b.mode != SubmitUnavailable && b.mode != SubmitRejected)
            && (answer.Unavailable? <==> Carriable(b, order) && !known && b.mode == SubmitUnavailable)
            && (answer.Took? ==> answer == StatusOf(after, RefFor(order.ref), now))
            && (if answer.Took? && !known
                then
                  && after.accepted.Keys == b.accepted.Keys + {order.ref}
                  && (forall r :: r in b.accepted ==> after.accepted[r] == b.accepted[r])
                  && after.accepted[order.ref].order == order && after.accepted[order.ref].submittedAt == now
                  && (after.fee, after.latency, after.mode) == (b.fee, b.latency, b.mode)
                else after == b)
  {
    assert RefFor(order.ref)[..4] == "sim_" && RefFor(order.ref)[4..] == order.ref;
  }

  /** When an accepted order has arrived is decided by the time it was first submitted. */
  lemma StatusIsExact(b: BridgeState, id: string, now: int)
    requires Filed(b) && id in b.accepted
    ensures StatusOf(b, RefFor(id), now).Took?
    ensures var t, order := StatusOf(b, RefFor(id), now).transfer, b.accepted[id].order;
            var waiting := b.mode == Stuck || now - b.accepted[id].submittedAt < b.latency;
            && (t.status == InFlight <==> waiting)
            && (t.status == Failed <==> !waiting && b.mode == TransferFailed)
            && (t.status == Completed <==> !waiting && b.mode != TransferFailed)
            && t.amountIn == order.amount
            && t.amountOut == if t.status == Completed
                              then Some(Money(order.amount.minor - b.fee, order.amount.currency)) else None
  {
    DeliversNetOfFee(b, id, now);
  }

  /** What arrives is what was ordered less the fee, never nothing and never more. */
  lemma DeliversNetOfFee(b: BridgeState, id: string, now: int)
    requires Filed(b)
    ensures StatusOf(b, RefFor(id), now).Took? <==> id in b.accepted
    ensures StatusOf(b, RefFor(id), now).Took? ==>
      var t := StatusOf(b, RefFor(id), now).transfer;
      && t.bridgeRef == RefFor(id) && t.amountIn == b.accepted[id].order.amount
      && (t.amountOut.Some? <==> t.status == Completed)
      && (t.amountOut.Some? ==>
            && t.amountOut.value.currency == t.amountIn.currency
            && 0 < t.amountOut.value.minor == t.amountIn.minor - b.fee)
  {
    assert RefFor(id)[..4] == "sim_" && RefFor(id)[4..] == id;
  }

  lemma BehindIsNamed(b: BridgeState, bridgeRef: string)
    ensures var key := OrderBehind(b, bridgeRef);
            key.Some? ==> key.value in b.accepted && RefFor(key.value) == bridgeRef
  {}

  class SimulatedBridge {
    const fee: nat
    const latency: nat
    const mode: Mode
    var accepted: map<string, Accepted>

    function State(): BridgeState
      reads this
    {
      BridgeState(accepted, fee, latency, mode)
    }

    ghost predicate Valid()
      reads this
    {
      Filed(State())
    }

    constructor (fee: nat, latency: nat, mode: Mode)
      ensures Valid() && State() == BridgeState(map[], fee, latency, mode)
    {
      this.fee, this.latency, this.mode := fee, latency, mode;
      accepted := map[];
    }

    method SubmitOrder(order: Order, now: int) returns (answer: Answer)
      requires Valid()
      modifies this`accepted
      ensures Valid() && (State(), answer) == Submit(old(State()), order, now)
    {
      if order.amount.minor <= 0 || fee >= order.amount.minor {
        return Refused;
      }
      if order.ref in accepted {
        if accepted[order.ref].order != order {
          return Refused;
        }
        return Took(View(State(), accepted[order.ref], now));
      }
      if mode == SubmitUnavailable {
        return Unavailable;
      }
      if mode == SubmitRejected {
        return Refused;
      }
      var a := Accepted(order, RefFor(order.ref), now);
      accepted := accepted[order.ref := a];
      answer := Took(View(State(), a, now));
    }

    /** Looks through every accepted order for the one with this reference. */
    method AskStatus(bridgeRef: string, now: int) returns (answer: Answer)
      requires Valid()
      ensures answer == StatusOf(State(), bridgeRef, now)
    {
      var left := accepted.Keys;
      while left != {}
        invariant left <= accepted.Keys
        invariant forall r :: r in accepted && r !in left ==> accepted[r].bridgeRef != bridgeRef
        decreases left
      {
        var r :| r in left;
        left := left - {r};
        if accepted[r].bridgeRef == bridgeRef {
          DeliversNetOfFee(State(), r, now);
          assert bridgeRef[4..] == r;
          return Took(View(State(), accepted[r], now));
        }
      }
      BehindIsNamed(State(), bridgeRef);
      answer := Refused;
    }
  }
}
