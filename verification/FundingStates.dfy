/** The lifecycle of one top-up, and the hops the pipeline permits. */
module FundingStates {

  datatype State =
    | Pending | DepositConfirmed | Bridging | Bridged | Funding | Funded | Settled
    | FailedDeposit | FailedBridge | FailedFunding | FailedSettlement
  {
    predicate IsFailure() {
      FailedDeposit? || FailedBridge? || FailedFunding? || FailedSettlement?
    }
  }

  /** The transition table. A state that lists itself may be retried in place. */
  function Targets(s: State): set<State> {
    match s
    case Pending => {Pending, DepositConfirmed, FailedDeposit}
    case DepositConfirmed => {DepositConfirmed, Bridging, FailedBridge}
    case Bridging => {Bridging, Bridged, FailedBridge}
    case Bridged => {Bridged, Funding, FailedFunding}
    case Funding => {Funding, Funded, FailedFunding}
    case Funded => {Settled, FailedSettlement}
    case _ => {}
  }

  predicate Legal(frm: State, to: State) {
    to in Targets(frm)
  }

  /** `t` comes right after `s` for an intent that nothing goes wrong for. */
  predicate ComesNext(s: State, t: State) {
    || (s == Pending && t == DepositConfirmed) || (s == DepositConfirmed && t == Bridging)
    || (s == Bridging && t == Bridged) || (s == Bridged && t == Funding)
    || (s == Funding && t == Funded) || (s == Funded && t == Settled)
  }

  /** Ignoring retries and failures the table is one way from start to end; a state is retried in
      place exactly while a call is still to be made before the card is funded; and each failure
      ends the stages it is named for. */
  lemma TableIsExact(s: State, t: State)
    ensures Legal(s, t) && t != s && !t.IsFailure() <==> ComesNext(s, t)
    ensures Legal(s, s) <==> exists u :: ComesNext(s, u) && u != Settled
    ensures Legal(s, FailedDeposit) <==> s == Pending
    ensures Legal(s, FailedBridge) <==> s == DepositConfirmed || s == Bridging
    ensures Legal(s, FailedFunding) <==> s == Bridged || s == Funding
    ensures Legal(s, FailedSettlement) <==> s == Funded
    ensures Targets(s) == {} <==> s == Settled || s.IsFailure()
    ensures s.IsFailure() <==> s != Pending && forall u :: !ComesNext(u, s)
  {
    assert ComesNext(Pending, DepositConfirmed) && ComesNext(DepositConfirmed, Bridging);
    assert ComesNext(Bridging, Bridged) && ComesNext(Bridged, Funding) && ComesNext(Funding, Funded);
    assert ComesNext(Funded, Settled);
  }

  predicate Retryable(s: State) {
    Legal(s, s)
  }

  /** How many onward hops are left at most; every hop that is not a retry lowers it. */
  function Remaining(s: State): nat {
    match s
    case Pending => 6
    case DepositConfirmed => 5
    case Bridging => 4
    case Bridged => 3
    case Funding => 2
    case Funded => 1
    case _ => 0
  }

  /** `s` may still lie ahead of an intent last seen in `seen`, or be where it is. */
  predicate NoEarlier(s: State, seen: State) {
    s == seen || Remaining(s) < Remaining(seen)
  }

  lemma HopDescends(frm: State, to: State)
    requires Legal(frm, to)
    ensures NoEarlier(to, frm)
  {}
}
