/** The stand-in provider as the object it is: its tables are fields its methods update.
    Each method is proved to do what the operation of the same name in `Safe` says, so the
    laws of `SafeLaws` hold of every sequence of calls. */
module Simulator {
  import opened Basics
  import opened Ledger
  import opened Safe
  import Laws = SafeLaws

  class GnosisPaySimulator {
    var users: seq<User>
    var safes: map<string, nat>
    var cards: map<string, CardRecord>
    var deposits: seq<Deposit>
    var txns: seq<Txn>
    var fundings: map<string, FundingRecord>
    var nextDeposit: nat

    function State(): Sim
      reads this
    {
      Sim(users, safes, cards, deposits, txns, fundings, nextDeposit)
    }

    ghost predicate Valid()
      reads this
    {
      Shape(State())
    }

    /** The books balance, and everything else `SafeLaws` promises. */
    ghost predicate Good()
      reads this
    {
      Laws.Good(State())
    }

    constructor ()
      ensures Valid() && Good() && State() == NO_PROVIDER_STATE
    {
      users, safes, cards, deposits, txns, fundings := [], map[], map[], [], [], map[];
      nextDeposit := 1;
    }

    method NewUser(safe: string, currency: Currency) returns (id: nat)
      requires Valid()
      modifies this
      ensures Valid() && (old(Good()) ==> Good()) && State() == CreateUser(old(State()), safe, currency)
              && id == old(|users|)
    {
      Laws.LawsKept(State(), Laws.NewUser(safe, currency));
      id := |users|;
      users := users + [User(safe, currency, 0, 0, None)];
      safes := safes[safe := id];
    }

    /** Add to a user's spendable and held units. */
    method MoveUnits(u: nat, spend: int, hold: int)
      requires u < |users|
      modifies this`users
      ensures users == old(users)[u := old(users)[u].(
                spendable := old(users)[u].spendable + spend, held := old(users)[u].held + hold)]
    {
      users := users[u := users[u].(spendable := users[u].spendable + spend)];
      users := users[u := users[u].(held := users[u].held + hold)];
    }

    method ReceiveOnchainDeposit(safe: string, amount: Money, confirmed: bool) returns (reply: Reply)
      requires Valid()
      modifies this
      ensures Valid() && (old(Good()) ==> Good())
              && (State(), reply) == ReceiveDeposit(old(State()), safe, amount, confirmed)
    {
      Laws.ReceiveLawful(State(), safe, amount, confirmed);
      if safe !in safes {
        return NoSuchSafe;
      }
      var u := safes[safe];
      if amount.currency != users[u].currency.code {
        return WrongCurrency;
      }
      var units := ToUnits(amount, users[u].currency);
      deposits := deposits + [Deposit(nextDeposit, Derived(nextDeposit), safe, units, confirmed, None, None)];
      nextDeposit := nextDeposit + 1;
      if confirmed {
        MoveUnits(u, units, 0);
      }
      reply := Done;
    }

    method OnchainPool(safe: string) returns (r: Option<nat>)
      ensures r == PoolAt(deposits, safe)
    {
      for i := 0 to |deposits|
        invariant forall j :: 0 <= j < i ==> !IsPool(deposits[j], safe)
      {
        if deposits[i].safe == safe && deposits[i].ref == None && deposits[i].evidence != None {
          return Some(i);
        }
      }
      r := None;
    }

    method AttributedUnits(safe: string) returns (sum: int)
      ensures sum == Total(deposits, safe, Attributed)
    {
      sum := 0;
      for i := 0 to |deposits|
        invariant sum == Total(deposits[..i], safe, Attributed)
      {
        assert deposits[..i + 1][..i] == deposits[..i];
        if deposits[i].safe == safe && deposits[i].ref != None {
          sum := sum + deposits[i].units;
        }
      }
      assert deposits[..|deposits|] == deposits;
    }

    method ReconcileSafe(safe: string, onchain: int, evidence: string) returns (reply: Reply)
      requires Valid()
      modifies this
      ensures Valid() && (old(Good()) ==> Good())
              && (State(), reply) == Reconcile(old(State()), safe, onchain, evidence)
    {
      Laws.ObserveLawful(State(), safe, onchain, evidence);
      reply := MatchChain(safe, onchain, evidence);
    }

    method MatchChain(safe: string, onchain: int, evidence: string) returns (reply: Reply)
      requires Valid()
      modifies this
      ensures (State(), reply) == Reconcile(old(State()), safe, onchain, evidence)
    {
      if safe !in safes {
        return NoSuchSafe;
      }
      var pool := OnchainPool(safe);
      var target, held := PoolGap(safe, onchain, pool);
      if target == held {
        return Unchanged;
      }
      SetPool(safe, pool, target, evidence);
      MoveUnits(safes[safe], target - held, 0);
      reply := Done;
    }

    /** What the pool should hold for the chain to agree, and what it holds. */
    method PoolGap(safe: string, onchain: int, pool: Option<nat>) returns (target: int, held: int)
      requires pool == PoolAt(deposits, safe)
      ensures target == PoolTarget(deposits, safe, onchain) && held == PoolUnits(deposits, safe)
    {
      var attributed := AttributedUnits(safe);
      target := if onchain - attributed > 0 then onchain - attributed else 0;
      held := if pool.Some? then deposits[pool.value].units else 0;
    }

    method SetPool(safe: string, pool: Option<nat>, target: int, evidence: string)
      requires pool == PoolAt(deposits, safe)
      modifies this`deposits, this`nextDeposit
      ensures (deposits, nextDeposit) == PoolSet(old(deposits), safe, target, evidence, old(nextDeposit))
    {
      if pool.None? {
        OpenPool(safe, target, evidence);
      } else {
        ResizePool(pool.value, target, evidence);
      }
    }

    method OpenPool(safe: string, target: int, evidence: string)
      modifies this`deposits, this`nextDeposit
      ensures deposits == old(deposits)
                + [Deposit(old(nextDeposit), Observed(evidence), safe, target, true, None, Some(evidence))]
      ensures nextDeposit == old(nextDeposit) + 1
    {
      deposits := deposits + [Deposit(nextDeposit, Observed(evidence), safe, target, true, None, Some(evidence))];
      nextDeposit := nextDeposit + 1;
    }

    method ResizePool(p: nat, target: int, evidence: string)
      requires p < |deposits|
      modifies this`deposits
      ensures deposits == old(deposits)[p := old(deposits)[p].(
                units := target, txRef := Observed(evidence), evidence := Some(evidence))]
    {
      deposits := deposits[p := deposits[p].(units := target)];
      deposits := deposits[p := deposits[p].(txRef := Observed(evidence))];
      deposits := deposits[p := deposits[p].(evidence := Some(evidence))];
    }

    method FinalizeDeposit(id: nat) returns (reply: Reply)
      requires Valid()
      modifies this
      ensures Valid() && (old(Good()) ==> Good()) && (State(), reply) == ConfirmDeposit(old(State()), id)
    {
      Laws.FinalizeLawful(State(), id);
      for i := 0 to |deposits|
        invariant forall j :: 0 <= j < i ==> deposits[j].id != id
      {
        if deposits[i].id == id {
          assert DepositAt(deposits, id) == Some(i);
          Promote(i);
          return Done;
        }
      }
      reply := NoSuchObject;
    }

    method Promote(i: nat)
      requires Valid() && i < |deposits|
      modifies this`deposits, this`users
      ensures
        var d := old(deposits)[i];
        && deposits == (if d.confirmed then old(deposits) else old(deposits)[i := d.(confirmed := true)])
        && users == (if d.confirmed then old(users) else Credit(old(users), safes[d.safe], d.units))
    {
      if !deposits[i].confirmed {
        MoveUnits(safes[deposits[i].safe], deposits[i].units, 0);
        deposits := deposits[i := deposits[i].(confirmed := true)];
      }
    }

    method ClaimableDeposit(safe: string, units: int) returns (r: Option<nat>)
      modifies this`deposits, this`nextDeposit
      ensures
        var c := Claim(old(deposits), safe, units, old(nextDeposit));
        && r.Some? == c.Some?
        && (c.Some? ==> (deposits, r.value, nextDeposit) == c.value)
        && (c.None? ==> deposits == old(deposits) && nextDeposit == old(nextDeposit))
    {
      for i := 0 to |deposits|
        invariant forall j :: 0 <= j < i ==> !Covers(deposits[j], safe, units)
        invariant deposits == old(deposits) && nextDeposit == old(nextDeposit)
      {
        var d := deposits[i];
        if d.safe != safe || !d.confirmed || d.ref != None || d.units < units {
          continue;
        }
        assert ClaimAt(deposits, safe, units) == Some(i);
        if d.evidence != None && d.units != units {
          TakeFromPool(i, units);
        }
        return Some(i);
      }
      r := None;
    }

    /** Carve exactly `units` out of an observed balance; the carved record takes its place. */
    method TakeFromPool(i: nat, units: int)
      requires i < |deposits|
      modifies this`deposits, this`nextDeposit
      ensures deposits == SplitDeposit(old(deposits), i, units, old(nextDeposit))
      ensures nextDeposit == old(nextDeposit) + 1
    {
      var pool := deposits[i];
      deposits := deposits[i := pool.(units := pool.units - units)];
      var claimed := Deposit(nextDeposit, pool.txRef, pool.safe, units, true, None, pool.evidence);
      deposits := deposits[..i] + [claimed] + deposits[i..];
      nextDeposit := nextDeposit + 1;
    }

    method FundCard(cardId: string, amount: Money, ref: string) returns (reply: Reply)
      requires Valid()
      modifies this
      ensures Valid() && (old(Good()) ==> Good())
              && (State(), reply) == ConfirmFunding(old(State()), cardId, amount, ref)
    {
      Laws.FundLawful(State(), cardId, amount, ref);
      if cardId !in cards {
        return NoSuchCard;
      }
      if ref in fundings {
        var previous := fundings[ref];
        if previous.cardId != cardId || previous.amount != amount {
          return Rejected;
        }
        return Succeeded(previous);
      }
      var user := users[cards[cardId].user];
      if cards[cardId].state == Canceled || amount.currency != user.currency.code || amount.minor <= 0 {
        return Rejected;
      }
      var units := ToUnits(amount, user.currency);
      var at := ClaimableDeposit(user.safe, units);
      if at.None? {
        return Awaiting;
      }
      var i := at.value;
      var result := FundingRecord(cardId, amount, units, deposits[i].txRef);
      deposits := deposits[i := deposits[i].(ref := Some(ref))];
      fundings := fundings[ref := result];
      reply := Succeeded(result);
    }

    method AuthorizeHold(cardId: string, amount: Money) returns (reply: Reply)
      requires Valid()
      modifies this
      ensures Valid() && (old(Good()) ==> Good()) && (State(), reply) == Authorize(old(State()), cardId, amount)
    {
      Laws.HoldLawful(State(), cardId, amount);
      if cardId !in cards {
        return NoSuchCard;
      }
      var u := cards[cardId].user;
      var units := ToUnits(amount, users[u].currency);
      var status := AuthorizationStatus(cards[cardId], users[u], amount, units);
      if status == Approved {
        MoveUnits(u, -units, units);
      }
      txns := txns + [Txn(u, cardId, Payment, Some(status), units, status == Approved, false)];
      reply := Done;
    }

    method ClearHold(t: nat) returns (reply: Reply)
      requires Valid()
      modifies this
      ensures Valid() && (old(Good()) ==> Good()) && (State(), reply) == Clear(old(State()), t)
    {
      Laws.SettleLawful(State(), t);
      if t >= |txns| || !txns[t].pending {
        return NoSuchObject;
      }
      var u := txns[t].user;
      MoveUnits(u, 0, -txns[t].units);
      txns := txns[t := txns[t].(pending := false, cleared := true)];
      reply := Done;
    }

    method CreditRefund(cardId: string, amount: Money) returns (reply: Reply)
      requires Valid()
      modifies this
      ensures Valid() && (old(Good()) ==> Good()) && (State(), reply) == RefundCard(old(State()), cardId, amount)
    {
      Laws.GiveBackLawful(State(), cardId, amount);
      if cardId !in cards {
        return NoSuchCard;
      }
      var u := cards[cardId].user;
      var units := ToUnits(amount, users[u].currency);
      MoveUnits(u, units, 0);
      txns := txns + [Txn(u, cardId, Refund, None, units, false, true)];
      reply := Done;
    }

    method ReverseHold(t: nat) returns (reply: Reply)
      requires Valid()
      modifies this
      ensures Valid() && (old(Good()) ==> Good()) && (State(), reply) == Reverse(old(State()), t)
    {
      Laws.ReleaseLawful(State(), t);
      if t >= |txns| || !txns[t].pending {
        return NoSuchObject;
      }
      var original := txns[t];
      var u := original.user;
      MoveUnits(u, original.units, -original.units);
      txns := txns[t := original.(pending := false)];
      txns := txns + [Txn(u, original.card, Reversal, None, original.units, false, true)];
      reply := Done;
    }
  }
}
