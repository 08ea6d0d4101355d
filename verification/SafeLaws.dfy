/** What every provider operation keeps: balances are conserved, holds are the pending
    transactions, fundings and attributed deposits correspond one to one, and observed
    money is bounded by the chain. */
module SafeLaws {
  import opened Basics
  import opened Ledger
  import opened Safe

  datatype Op =
    | NewUser(safe: string, currency: Currency)
    | NewCard(cardId: string, user: nat)
    | SetCardState(cardId: string, state: CardState)
    | SetLimit(user: nat, limit: Option<int>)
    | Receive(safe: string, amount: Money, confirmed: bool)
    | Observe(safe: string, onchain: int, evidence: string)
    | Finalize(deposit: nat)
    | Fund(cardId: string, amount: Money, ref: string)
    | Hold(cardId: string, amount: Money)
    | Settle(txn: nat)
    | GiveBack(cardId: string, amount: Money)
    | Release(txn: nat)

  function Perform(s: Sim, op: Op): (Sim, Reply)
    requires Shape(s)
  {
    match op
    case NewUser(safe, c) => (CreateUser(s, safe, c), Done)
    case NewCard(cardId, u) =>
      if u >= |s.users| || cardId in s.cards then (s, NoSuchObject)
      else (s.(cards := s.cards[cardId := CardRecord(u, Unactivated)]), Done)
    case SetCardState(cardId, state) =>
      if cardId !in s.cards then (s, NoSuchCard)
      else (s.(cards := s.cards[cardId := s.cards[cardId].(state := state)]), Done)
    case SetLimit(u, limit) =>
      if u >= |s.users| then (s, NoSuchObject)
      else (s.(users := s.users[u := s.users[u].(dailyLimit := limit)]), Done)
    case Receive(safe, amount, confirmed) => ReceiveDeposit(s, safe, amount, confirmed)
    case Observe(safe, onchain, evidence) => Reconcile(s, safe, onchain, evidence)
    case Finalize(id) => ConfirmDeposit(s, id)
    case Fund(cardId, amount, ref) => ConfirmFunding(s, cardId, amount, ref)
    case Hold(cardId, amount) => Authorize(s, cardId, amount)
    case Settle(t) => Clear(s, t)
    case GiveBack(cardId, amount) => RefundCard(s, cardId, amount)
    case Release(t) => Reverse(s, t)
  }

  // --------------------------------------------------------------- totals

  lemma {:induction false} TotalConcat(a: seq<Deposit>, b: seq<Deposit>, safe: string, sel: Select)
    ensures Total(a + b, safe, sel) == Total(a, safe, sel) + Total(b, safe, sel)
  {
    if b == [] {
      assert a + b == a;
    } else {
      TotalConcat(a, b[..|b| - 1], safe, sel);
      assert (a + b)[..|a + b| - 1] == a + b[..|b| - 1];
    }
  }

  lemma TotalOne(d: Deposit, safe: string, sel: Select)
    ensures Total([d], safe, sel) == Weight(d, safe, sel)
  {
    assert Total([], safe, sel) == 0;
  }

  lemma TotalUpdate(ds: seq<Deposit>, i: nat, d: Deposit, safe: string, sel: Select)
    requires i < |ds|
    ensures Total(ds[i := d], safe, sel) == Total(ds, safe, sel) - Weight(ds[i], safe, sel) + Weight(d, safe, sel)
  {
    assert ds == ds[..i] + [ds[i]] + ds[i + 1..];
    assert ds[i := d] == ds[..i] + [d] + ds[i + 1..];
    TotalOne(d, safe, sel);
    TotalOne(ds[i], safe, sel);
    TotalConcat(ds[..i], [ds[i]], safe, sel);
    TotalConcat(ds[..i] + [ds[i]], ds[i + 1..], safe, sel);
    TotalConcat(ds[..i], [d], safe, sel);
    TotalConcat(ds[..i] + [d], ds[i + 1..], safe, sel);
  }

  lemma TotalAppend(ds: seq<Deposit>, d: Deposit, safe: string, sel: Select)
    ensures Total(ds + [d], safe, sel) == Total(ds, safe, sel) + Weight(d, safe, sel)
  {
    TotalConcat(ds, [d], safe, sel);
    TotalOne(d, safe, sel);
  }

  lemma TotalSplit(ds: seq<Deposit>, i: nat, units: int, id: nat, safe: string, sel: Select)
    requires i < |ds| && ds[i].confirmed && ds[i].ref.None?
    ensures Total(SplitDeposit(ds, i, units, id), safe, sel) == Total(ds, safe, sel)
  {
    var rest := ds[i].(units := ds[i].units - units);
    var claimed := Deposit(id, ds[i].txRef, ds[i].safe, units, true, None, ds[i].evidence);
    assert ds == ds[..i] + [ds[i]] + ds[i + 1..];
    assert SplitDeposit(ds, i, units, id) == ds[..i] + [claimed] + [rest] + ds[i + 1..];
    TotalOne(ds[i], safe, sel);
    TotalOne(claimed, safe, sel);
    TotalOne(rest, safe, sel);
    TotalConcat(ds[..i], [ds[i]], safe, sel);
    TotalConcat(ds[..i] + [ds[i]], ds[i + 1..], safe, sel);
    TotalConcat(ds[..i], [claimed], safe, sel);
    TotalConcat(ds[..i] + [claimed], [rest], safe, sel);
    TotalConcat(ds[..i] + [claimed] + [rest], ds[i + 1..], safe, sel);
  }

  /** Spendable and held money of everybody who shares `safe`. */
  function Balances(users: seq<User>, safe: string): int {
    if users == [] then 0
    else
      var last := users[|users| - 1];
      Balances(users[..|users| - 1], safe) + if last.safe == safe then last.spendable + last.held else 0
  }

  /** What has left `safe` for merchants, less what merchants have credited back. */
  function Spent(txns: seq<Txn>, users: seq<User>, safe: string): int {
    if txns == [] then 0
    else
      Spent(txns[..|txns| - 1], users, safe) + SpentBy(txns[|txns| - 1], users, safe)
  }

  function SpentBy(t: Txn, users: seq<User>, safe: string): int {
    if t.user >= |users| || users[t.user].safe != safe then 0
    else if t.kind == Payment && t.cleared then t.units
    else if t.kind == Refund then -t.units
    else 0
  }

  /** What the transactions of user `u` still hold. */
  function HeldBy(txns: seq<Txn>, u: nat): int {
    if txns == [] then 0
    else
      var last := txns[|txns| - 1];
      HeldBy(txns[..|txns| - 1], u) + if last.user == u && last.pending then last.units else 0
  }

  lemma {:induction false} BalancesUpdate(users: seq<User>, u: nat, x: User, safe: string)
    requires u < |users| && x.safe == users[u].safe
    ensures Balances(users[u := x], safe) == Balances(users, safe)
            + if x.safe == safe then x.spendable + x.held - users[u].spendable - users[u].held else 0
  {
    var n := |users| - 1;
    if u == n {
      assert users[u := x][..n] == users[..n];
    } else {
      BalancesUpdate(users[..n], u, x, safe);
      assert users[u := x][..n] == users[..n][u := x];
    }
  }

  lemma {:induction false} SpentSameHomes(txns: seq<Txn>, users: seq<User>, others: seq<User>, safe: string)
    requires |users| <= |others| && forall u :: 0 <= u < |users| ==> users[u].safe == others[u].safe
    requires forall t :: 0 <= t < |txns| ==> txns[t].user < |users|
    ensures Spent(txns, users, safe) == Spent(txns, others, safe)
  {
    if txns != [] {
      SpentSameHomes(txns[..|txns| - 1], users, others, safe);
    }
  }

  lemma SpentAppend(txns: seq<Txn>, t: Txn, users: seq<User>, safe: string)
    ensures Spent(txns + [t], users, safe) == Spent(txns, users, safe) + SpentBy(t, users, safe)
  {
    assert (txns + [t])[..|txns|] == txns;
  }

  lemma {:induction false} SpentUpdate(txns: seq<Txn>, i: nat, t: Txn, users: seq<User>, safe: string)
    requires i < |txns|
    ensures Spent(txns[i := t], users, safe)
            == Spent(txns, users, safe) - SpentBy(txns[i], users, safe) + SpentBy(t, users, safe)
  {
    var n := |txns| - 1;
    if i == n {
      assert txns[i := t][..n] == txns[..n];
    } else {
      SpentUpdate(txns[..n], i, t, users, safe);
      assert txns[i := t][..n] == txns[..n][i := t];
    }
  }

  lemma HeldAppend(txns: seq<Txn>, t: Txn, u: nat)
    ensures HeldBy(txns + [t], u) == HeldBy(txns, u) + if t.user == u && t.pending then t.units else 0
  {
    assert (txns + [t])[..|txns|] == txns;
  }

  lemma {:induction false} HeldRelease(txns: seq<Txn>, i: nat, t: Txn, u: nat)
    requires i < |txns| && txns[i].pending && !t.pending && t.user == txns[i].user
    ensures HeldBy(txns[i := t], u) == HeldBy(txns, u) - if t.user == u then txns[i].units else 0
  {
    var n := |txns| - 1;
    if i == n {
      assert txns[i := t][..n] == txns[..n];
    } else {
      HeldRelease(txns[..n], i, t, u);
      assert txns[i := t][..n] == txns[..n][i := t];
    }
  }

  lemma {:induction false} NobodyHeld(txns: seq<Txn>, u: nat)
    requires forall t :: 0 <= t < |txns| ==> txns[t].user < u
    ensures HeldBy(txns, u) == 0
  {
    if txns != [] {
      NobodyHeld(txns[..|txns| - 1], u);
    }
  }

  // ------------------------------------------------------------- invariants

  /** Per Safe: spendable + held + cleared - refunded is what arrived and was confirmed. */
  ghost predicate Conserved(s: Sim) {
    forall a: string :: Balances(s.users, a) + Spent(s.txns, s.users, a) == Total(s.deposits, a, Confirmed)
  }

  /** A user's held units are the billing units of that user's pending transactions. */
  ghost predicate HoldsMatch(s: Sim) {
    && (forall u :: 0 <= u < |s.users| ==> s.users[u].held == HeldBy(s.txns, u))
    && (forall t :: 0 <= t < |s.txns| && s.txns[t].pending ==> s.txns[t].kind == Payment && !s.txns[t].cleared)
  }

  ghost predicate OnePool(ds: seq<Deposit>) {
    forall i, j :: 0 <= i < j < |ds| && IsPool(ds[i], ds[i].safe) && IsPool(ds[j], ds[j].safe) ==>
      ds[i].safe != ds[j].safe
  }

  ghost predicate EvidenceIsMoney(ds: seq<Deposit>) {
    forall i :: 0 <= i < |ds| && ds[i].evidence.Some? ==> ds[i].confirmed && ds[i].units >= 0
  }

  predicate HasRef(ds: seq<Deposit>, ref: string) {
    exists d :: d in ds && d.ref == Some(ref)
  }

  /** The deposit was claimed by exactly the funding that names it. */
  predicate ClaimedBy(d: Deposit, f: FundingRecord) {
    && d.confirmed && d.txRef == f.issuerRef
    && 0 < f.units <= d.units
    && (d.evidence.Some? ==> d.units == f.units)
  }

  /** Stored fundings and attributed deposits correspond one to one. */
  ghost predicate Attribution(s: Sim) {
    && (forall i, j :: 0 <= i < j < |s.deposits| && s.deposits[i].ref.Some? ==>
          s.deposits[i].ref != s.deposits[j].ref)
    && (forall i :: 0 <= i < |s.deposits| && s.deposits[i].ref.Some? ==>
          var ref := s.deposits[i].ref.value;
          ref in s.fundings && ClaimedBy(s.deposits[i], s.fundings[ref]) && FundedAt(s, ref, s.deposits[i].safe))
    && (forall ref :: ref in s.fundings ==> HasRef(s.deposits, ref))
  }

  /** The funding is of a card whose Safe is `safe`, for its amount in that Safe's units. */
  predicate FundedAt(s: Sim, ref: string, safe: string)
    requires ref in s.fundings
  {
    var f := s.fundings[ref];
    && f.cardId in s.cards
    && s.cards[f.cardId].user < |s.users|
    && s.users[s.cards[f.cardId].user].safe == safe
    && f.units == ToUnits(f.amount, s.users[s.cards[f.cardId].user].currency)
  }

  ghost predicate Good(s: Sim) {
    && Shape(s)
    && Conserved(s)
    && HoldsMatch(s)
    && OnePool(s.deposits)
    && EvidenceIsMoney(s.deposits)
    && Attribution(s)
  }

  lemma NothingIsGood()
    ensures Good(NO_PROVIDER_STATE)
  {}

  // ------------------------------------------------------ one lemma per law

  lemma ShapeKept(s: Sim, op: Op)
    requires Shape(s)
    ensures Shape(Perform(s, op).0)
  {
    if op.Fund? {
      FundKeepsShape(s, op.cardId, op.amount, op.ref);
    } else if op.Settle? || op.Release? {
      HoldEndKeepsShape(s, op.txn);
    } else if op.Observe? {
      ObserveKeepsShape(s, op.safe, op.onchain, op.evidence);
    } else if op.Receive? || op.Finalize? {
      DepositKeepsShape(s, op);
    }
  }

  lemma ObserveKeepsShape(s: Sim, safe: string, onchain: int, evidence: string)
    requires Shape(s)
    ensures Shape(Reconcile(s, safe, onchain, evidence).0)
  {}

  lemma DepositKeepsShape(s: Sim, op: Op)
    requires Shape(s) && (op.Receive? || op.Finalize?)
    ensures Shape(Perform(s, op).0)
  {}

  lemma FundKeepsShape(s: Sim, cardId: string, amount: Money, ref: string)
    requires Shape(s)
    ensures Shape(ConfirmFunding(s, cardId, amount, ref).0)
  {
    if ConfirmFunding(s, cardId, amount, ref).0 != s {
      var user := s.users[s.cards[cardId].user];
      ClaimKeepsSafes(s, user.safe, ToUnits(amount, user.currency));
    }
  }

  lemma HoldEndKeepsShape(s: Sim, t: nat)
    requires Shape(s)
    ensures Shape(Clear(s, t).0) && Shape(Reverse(s, t).0)
  {}

  lemma ClaimKeepsSafes(s: Sim, safe: string, units: int)
    requires Shape(s) && Claim(s.deposits, safe, units, s.nextDeposit).Some?
    ensures forall i :: 0 <= i < |Claim(s.deposits, safe, units, s.nextDeposit).value.0| ==>
              Claim(s.deposits, safe, units, s.nextDeposit).value.0[i].safe in s.safes
  {
    var i := ClaimAt(s.deposits, safe, units).value;
    var ds := Claim(s.deposits, safe, units, s.nextDeposit).value.0;
    if ds != s.deposits {
      forall k | 0 <= k < |ds| ensures ds[k].safe in s.safes {
        assert k > i + 1 ==> ds[k] == s.deposits[k - 1];
      }
    }
  }

  lemma CreditMoves(s: Sim, u: nat, units: int, a: string)
    requires Shape(s) && u < |s.users|
    ensures Balances(Credit(s.users, u, units), a)
            == Balances(s.users, a) + if s.users[u].safe == a then units else 0
    ensures Spent(s.txns, Credit(s.users, u, units), a) == Spent(s.txns, s.users, a)
  {
    BalancesUpdate(s.users, u, s.users[u].(spendable := s.users[u].spendable + units), a);
    SpentSameHomes(s.txns, s.users, Credit(s.users, u, units), a);
  }

  lemma ReceiveConserves(s: Sim, safe: string, amount: Money, confirmed: bool, a: string)
    requires Shape(s) && Conserved(s)
    ensures var t := ReceiveDeposit(s, safe, amount, confirmed).0;
            Balances(t.users, a) + Spent(t.txns, t.users, a) == Total(t.deposits, a, Confirmed)
  {
    var t := ReceiveDeposit(s, safe, amount, confirmed).0;
    if t != s {
      TotalAppend(s.deposits, t.deposits[|s.deposits|], a, Confirmed);
      CreditMoves(s, s.safes[safe], ToUnits(amount, s.users[s.safes[safe]].currency), a);
    }
  }

  lemma PoolSetTotal(ds: seq<Deposit>, safe: string, target: int, evidence: string, next: nat, a: string)
    requires EvidenceIsMoney(ds)
    ensures Total(PoolSet(ds, safe, target, evidence, next).0, a, Confirmed)
            == Total(ds, a, Confirmed) + if safe == a then target - PoolUnits(ds, safe) else 0
  {
    var p := PoolAt(ds, safe);
    var after := PoolSet(ds, safe, target, evidence, next).0;
    if p.None? {
      TotalAppend(ds, after[|ds|], a, Confirmed);
    } else {
      TotalUpdate(ds, p.value, after[p.value], a, Confirmed);
    }
  }

  lemma ObserveConserves(s: Sim, safe: string, onchain: int, evidence: string, a: string)
    requires Shape(s) && Conserved(s) && EvidenceIsMoney(s.deposits)
    ensures var t := Reconcile(s, safe, onchain, evidence).0;
            Balances(t.users, a) + Spent(t.txns, t.users, a) == Total(t.deposits, a, Confirmed)
  {
    var target := PoolTarget(s.deposits, safe, onchain);
    if Reconcile(s, safe, onchain, evidence).0 != s {
      CreditMoves(s, s.safes[safe], target - PoolUnits(s.deposits, safe), a);
      PoolSetTotal(s.deposits, safe, target, evidence, s.nextDeposit, a);
    }
  }

  lemma FinalizeConserves(s: Sim, id: nat, a: string)
    requires Shape(s) && Conserved(s)
    ensures var t := ConfirmDeposit(s, id).0;
            Balances(t.users, a) + Spent(t.txns, t.users, a) == Total(t.deposits, a, Confirmed)
  {
    var i := DepositAt(s.deposits, id);
    if i.Some? && !s.deposits[i.value].confirmed {
      TotalUpdate(s.deposits, i.value, s.deposits[i.value].(confirmed := true), a, Confirmed);
      CreditMoves(s, s.safes[s.deposits[i.value].safe], s.deposits[i.value].units, a);
    }
  }

  lemma FundConserves(s: Sim, cardId: string, amount: Money, ref: string, a: string)
    requires Shape(s) && Conserved(s)
    ensures var t := ConfirmFunding(s, cardId, amount, ref).0;
            Balances(t.users, a) + Spent(t.txns, t.users, a) == Total(t.deposits, a, Confirmed)
  {
    if ConfirmFunding(s, cardId, amount, ref).0 != s {
      var user := s.users[s.cards[cardId].user];
      ClaimConserves(s.deposits, user.safe, ToUnits(amount, user.currency), s.nextDeposit, ref, a);
    }
  }

  lemma ClaimConserves(ds: seq<Deposit>, safe: string, units: int, next: nat, ref: string, a: string)
    requires Claim(ds, safe, units, next).Some?
    ensures var (after, i, _) := Claim(ds, safe, units, next).value;
            && Total(after, a, Confirmed) == Total(ds, a, Confirmed)
            && Total(after[i := after[i].(ref := Some(ref))], a, Confirmed) == Total(ds, a, Confirmed)
            && Total(after, a, Evidenced) == Total(ds, a, Evidenced)
            && Total(after[i := after[i].(ref := Some(ref))], a, Evidenced) == Total(ds, a, Evidenced)
  {
    var (after, i, _) := Claim(ds, safe, units, next).value;
    if after != ds {
      TotalSplit(ds, i, units, next, a, Confirmed);
      TotalSplit(ds, i, units, next, a, Evidenced);
    }
    TotalUpdate(after, i, after[i].(ref := Some(ref)), a, Confirmed);
    TotalUpdate(after, i, after[i].(ref := Some(ref)), a, Evidenced);
  }

  lemma HoldConserves(s: Sim, cardId: string, amount: Money, a: string)
    requires Shape(s)
    ensures var t := Authorize(s, cardId, amount).0;
            Balances(t.users, a) + Spent(t.txns, t.users, a) == Balances(s.users, a) + Spent(s.txns, s.users, a)
  {
    var t := Authorize(s, cardId, amount).0;
    if cardId in s.cards {
      var u := s.cards[cardId].user;
      SpentAppend(s.txns, t.txns[|s.txns|], t.users, a);
      SpentSameHomes(s.txns, s.users, t.users, a);
      BalancesUpdate(s.users, u, t.users[u], a);
      assert t.users == s.users[u := t.users[u]];
    }
  }

  lemma GiveBackConserves(s: Sim, cardId: string, amount: Money, a: string)
    requires Shape(s)
    ensures var t := RefundCard(s, cardId, amount).0;
            Balances(t.users, a) + Spent(t.txns, t.users, a) == Balances(s.users, a) + Spent(s.txns, s.users, a)
  {
    var t := RefundCard(s, cardId, amount).0;
    if cardId in s.cards {
      var u := s.cards[cardId].user;
      SpentAppend(s.txns, t.txns[|s.txns|], t.users, a);
      CreditMoves(s, u, ToUnits(amount, s.users[u].currency), a);
    }
  }

  lemma SettleConserves(s: Sim, i: nat, a: string)
    requires Shape(s) && HoldsMatch(s)
    ensures var t := Clear(s, i).0;
            Balances(t.users, a) + Spent(t.txns, t.users, a) == Balances(s.users, a) + Spent(s.txns, s.users, a)
  {
    var t := Clear(s, i).0;
    if t != s {
      var u := s.txns[i].user;
      SpentUpdate(s.txns, i, t.txns[i], t.users, a);
      SpentSameHomes(s.txns, s.users, t.users, a);
      BalancesUpdate(s.users, u, t.users[u], a);
    }
  }

  lemma ReleaseConserves(s: Sim, i: nat, a: string)
    requires Shape(s) && HoldsMatch(s)
    ensures var t := Reverse(s, i).0;
            Balances(t.users, a) + Spent(t.txns, t.users, a) == Balances(s.users, a) + Spent(s.txns, s.users, a)
  {
    var t := Reverse(s, i).0;
    if t != s {
      var u := s.txns[i].user;
      var released := s.txns[i].(pending := false);
      SpentUpdate(s.txns, i, released, t.users, a);
      SpentAppend(s.txns[i := released], t.txns[|s.txns|], t.users, a);
      SpentSameHomes(s.txns, s.users, t.users, a);
      BalancesUpdate(s.users, u, t.users[u], a);
    }
  }

  lemma NewUserConserves(s: Sim, op: Op, a: string)
    requires Shape(s) && Conserved(s) && op.NewUser?
    ensures var t := Perform(s, op).0;
            Balances(t.users, a) + Spent(t.txns, t.users, a) == Total(t.deposits, a, Confirmed)
  {
    var t := Perform(s, op).0;
    assert t.users[..|s.users|] == s.users;
    SpentSameHomes(s.txns, s.users, t.users, a);
  }

  lemma SetLimitConserves(s: Sim, op: Op, a: string)
    requires Shape(s) && Conserved(s) && op.SetLimit?
    ensures var t := Perform(s, op).0;
            Balances(t.users, a) + Spent(t.txns, t.users, a) == Total(t.deposits, a, Confirmed)
  {
    var t := Perform(s, op).0;
    if t != s {
      BalancesUpdate(s.users, op.user, t.users[op.user], a);
      SpentSameHomes(s.txns, s.users, t.users, a);
    }
  }

  lemma AdminConserves(s: Sim, op: Op, a: string)
    requires Shape(s) && Conserved(s)
    requires op.NewUser? || op.NewCard? || op.SetCardState? || op.SetLimit?
    ensures var t := Perform(s, op).0;
            Balances(t.users, a) + Spent(t.txns, t.users, a) == Total(t.deposits, a, Confirmed)
  {
    if op.NewUser? {
      NewUserConserves(s, op, a);
    } else if op.SetLimit? {
      SetLimitConserves(s, op, a);
    }
  }

  lemma ConservedKept(s: Sim, op: Op)
    requires Good(s)
    ensures Conserved(Perform(s, op).0)
  {
    var t := Perform(s, op).0;
    forall a: string ensures Balances(t.users, a) + Spent(t.txns, t.users, a) == Total(t.deposits, a, Confirmed) {
      if op.Receive? {
        ReceiveConserves(s, op.safe, op.amount, op.confirmed, a);
      } else if op.Observe? {
        ObserveConserves(s, op.safe, op.onchain, op.evidence, a);
      } else if op.Finalize? {
        FinalizeConserves(s, op.deposit, a);
      } else if op.Fund? {
        FundConserves(s, op.cardId, op.amount, op.ref, a);
      } else if op.Hold? {
        HoldConserves(s, op.cardId, op.amount, a);
      } else if op.GiveBack? {
        GiveBackConserves(s, op.cardId, op.amount, a);
      } else if op.Settle? {
        SettleConserves(s, op.txn, a);
      } else if op.Release? {
        ReleaseConserves(s, op.txn, a);
      } else {
        AdminConserves(s, op, a);
      }
    }
  }

  lemma HoldsKept(s: Sim, op: Op)
    requires Good(s)
    ensures HoldsMatch(Perform(s, op).0)
  {
    if op.Hold? {
      HoldMatches(s, op.cardId, op.amount);
    } else if op.GiveBack? {
      GiveBackMatches(s, op.cardId, op.amount);
    } else if op.Settle? {
      SettleMatches(s, op.txn);
    } else if op.Release? {
      ReleaseMatches(s, op.txn);
    } else if op.NewUser? {
      NobodyHeld(s.txns, |s.users|);
    }
  }

  lemma HoldMatches(s: Sim, cardId: string, amount: Money)
    requires Shape(s) && HoldsMatch(s)
    ensures HoldsMatch(Authorize(s, cardId, amount).0)
  {
    var t := Authorize(s, cardId, amount).0;
    if t != s {
      forall u | 0 <= u < |t.users| ensures t.users[u].held == HeldBy(t.txns, u) {
        HeldAppend(s.txns, t.txns[|s.txns|], u);
      }
    }
  }

  lemma GiveBackMatches(s: Sim, cardId: string, amount: Money)
    requires Shape(s) && HoldsMatch(s)
    ensures HoldsMatch(RefundCard(s, cardId, amount).0)
  {
    var t := RefundCard(s, cardId, amount).0;
    if t != s {
      forall u | 0 <= u < |t.users| ensures t.users[u].held == HeldBy(t.txns, u) {
        HeldAppend(s.txns, t.txns[|s.txns|], u);
      }
    }
  }

  lemma SettleMatches(s: Sim, i: nat)
    requires Shape(s) && HoldsMatch(s)
    ensures HoldsMatch(Clear(s, i).0)
  {
    var t := Clear(s, i).0;
    if t != s {
      forall u | 0 <= u < |t.users| ensures t.users[u].held == HeldBy(t.txns, u) {
        HeldRelease(s.txns, i, t.txns[i], u);
      }
    }
  }

  lemma ReleaseMatches(s: Sim, i: nat)
    requires Shape(s) && HoldsMatch(s)
    ensures HoldsMatch(Reverse(s, i).0)
  {
    var t := Reverse(s, i).0;
    if t != s {
      var released := s.txns[i].(pending := false);
      forall u | 0 <= u < |t.users| ensures t.users[u].held == HeldBy(t.txns, u) {
        HeldRelease(s.txns, i, released, u);
        HeldAppend(s.txns[i := released], t.txns[|s.txns|], u);
      }
    }
  }

  // ------------------------------------------- pools, evidence, attribution

  /** The deposits list after one operation, away from a claim: nothing, one more
      unattributed deposit, or one unattributed deposit changed. */
  lemma DepositsKept(s: Sim, op: Op)
    requires Good(s) && !op.Fund?
    ensures var t := Perform(s, op).0;
            OnePool(t.deposits) && EvidenceIsMoney(t.deposits) && Attribution(t)
  {
    match op
    case Receive(safe, amount, confirmed) => ReceiveKept(s, safe, amount, confirmed);
    case Observe(safe, onchain, evidence) => ObserveKept(s, safe, onchain, evidence);
    case Finalize(id) => FinalizeKept(s, id);
    case _ => OthersKept(s, op);
  }

  ghost predicate SameAccounts(s: Sim, t: Sim) {
    && |s.users| <= |t.users|
    && (forall u :: 0 <= u < |s.users| ==>
          t.users[u].safe == s.users[u].safe && t.users[u].currency == s.users[u].currency)
    && (forall c :: c in s.cards ==> c in t.cards && t.cards[c].user == s.cards[c].user)
  }

  lemma UntouchedKept(s: Sim, t: Sim)
    requires Good(s) && SameAccounts(s, t) && t.deposits == s.deposits && t.fundings == s.fundings
    ensures Attribution(t)
  {
    forall ref, safe | ref in s.fundings && FundedAt(s, ref, safe) ensures FundedAt(t, ref, safe) {}
  }

  lemma AdminTouchesNothing(s: Sim, op: Op)
    requires Shape(s) && (op.NewUser? || op.NewCard? || op.SetCardState? || op.SetLimit?)
    ensures var t := Perform(s, op).0;
            SameAccounts(s, t) && t.deposits == s.deposits && t.fundings == s.fundings
  {}

  lemma SpendingTouchesNothing(s: Sim, op: Op)
    requires Shape(s) && (op.Hold? || op.Settle? || op.GiveBack? || op.Release?)
    ensures var t := Perform(s, op).0;
            SameAccounts(s, t) && t.deposits == s.deposits && t.fundings == s.fundings
  {
    if op.Settle? || op.Release? {
      HoldEndTouchesNothing(s, op.txn);
    }
  }

  lemma DepositsMoveNobody(s: Sim, op: Op)
    requires Shape(s) && (op.Receive? || op.Observe? || op.Finalize?)
    ensures var t := Perform(s, op).0;
            SameAccounts(s, t) && t.fundings == s.fundings
  {
    if op.Observe? {
      ObserveMovesNobody(s, op.safe, op.onchain, op.evidence);
    } else if op.Finalize? {
      FinalizeMovesNobody(s, op.deposit);
    }
  }

  lemma ObserveMovesNobody(s: Sim, safe: string, onchain: int, evidence: string)
    requires Shape(s)
    ensures var t := Reconcile(s, safe, onchain, evidence).0;
            SameAccounts(s, t) && t.fundings == s.fundings
  {}

  lemma FinalizeMovesNobody(s: Sim, id: nat)
    requires Shape(s)
    ensures var t := ConfirmDeposit(s, id).0;
            SameAccounts(s, t) && t.fundings == s.fundings
  {}

  lemma HoldEndTouchesNothing(s: Sim, t: nat)
    requires Shape(s)
    ensures SameAccounts(s, Clear(s, t).0) && SameAccounts(s, Reverse(s, t).0)
    ensures Clear(s, t).0.deposits == s.deposits && Clear(s, t).0.fundings == s.fundings
    ensures Reverse(s, t).0.deposits == s.deposits && Reverse(s, t).0.fundings == s.fundings
  {}

  lemma OthersKept(s: Sim, op: Op)
    requires Good(s) && !op.Fund? && !op.Receive? && !op.Observe? && !op.Finalize?
    ensures var t := Perform(s, op).0;
            OnePool(t.deposits) && EvidenceIsMoney(t.deposits) && Attribution(t)
  {
    if op.Hold? || op.Settle? || op.GiveBack? || op.Release? {
      SpendingTouchesNothing(s, op);
    } else {
      AdminTouchesNothing(s, op);
    }
    UntouchedKept(s, Perform(s, op).0);
  }

  lemma AppendedKept(s: Sim, d: Deposit, users: seq<User>, next: nat)
    requires OnePool(s.deposits) && EvidenceIsMoney(s.deposits) && Attribution(s) && d.ref.None? && d.safe in s.safes
    requires |users| == |s.users| && forall u :: 0 <= u < |users| ==>
               users[u].safe == s.users[u].safe && users[u].currency == s.users[u].currency
    requires d.evidence.Some? ==> d.confirmed && d.units >= 0 && PoolAt(s.deposits, d.safe).None?
    ensures var t := s.(deposits := s.deposits + [d], users := users, nextDeposit := next);
            OnePool(t.deposits) && EvidenceIsMoney(t.deposits) && Attribution(t)
  {
    var t := s.(deposits := s.deposits + [d], users := users, nextDeposit := next);
    forall ref | ref in t.fundings ensures HasRef(t.deposits, ref) {
      var e :| e in s.deposits && e.ref == Some(ref);
      assert e in t.deposits;
    }
    forall ref, safe | ref in s.fundings && FundedAt(s, ref, safe) ensures FundedAt(t, ref, safe) {}
  }

  lemma UpdatedKept(s: Sim, i: nat, d: Deposit, users: seq<User>)
    requires OnePool(s.deposits) && EvidenceIsMoney(s.deposits) && Attribution(s) && i < |s.deposits|
             && s.deposits[i].ref.None? && d.ref.None?
    requires d.safe == s.deposits[i].safe && (d.evidence.Some? <==> s.deposits[i].evidence.Some?)
    requires d.evidence.Some? ==> d.confirmed && d.units >= 0
    requires |users| == |s.users| && forall u :: 0 <= u < |users| ==>
               users[u].safe == s.users[u].safe && users[u].currency == s.users[u].currency
    ensures var t := s.(deposits := s.deposits[i := d], users := users);
            OnePool(t.deposits) && EvidenceIsMoney(t.deposits) && Attribution(t)
  {
    var t := s.(deposits := s.deposits[i := d], users := users);
    forall ref | ref in t.fundings ensures HasRef(t.deposits, ref) {
      var e :| e in s.deposits && e.ref == Some(ref);
      var k :| 0 <= k < |s.deposits| && s.deposits[k] == e;
      assert t.deposits[k] == e;
    }
    forall ref, safe | ref in s.fundings && FundedAt(s, ref, safe) ensures FundedAt(t, ref, safe) {}
  }

  lemma ReceiveKept(s: Sim, safe: string, amount: Money, confirmed: bool)
    requires Good(s)
    ensures var t := ReceiveDeposit(s, safe, amount, confirmed).0;
            OnePool(t.deposits) && EvidenceIsMoney(t.deposits) && Attribution(t)
  {
    var t := ReceiveDeposit(s, safe, amount, confirmed).0;
    if t != s {
      AppendedKept(s, t.deposits[|s.deposits|], t.users, t.nextDeposit);
    }
  }

  lemma ObserveKept(s: Sim, safe: string, onchain: int, evidence: string)
    requires Good(s)
    ensures var t := Reconcile(s, safe, onchain, evidence).0;
            OnePool(t.deposits) && EvidenceIsMoney(t.deposits) && Attribution(t)
  {
    var t := Reconcile(s, safe, onchain, evidence).0;
    if t != s {
      var p := PoolAt(s.deposits, safe);
      if p.None? {
        AppendedKept(s, t.deposits[|s.deposits|], t.users, t.nextDeposit);
      } else {
        UpdatedKept(s, p.value, t.deposits[p.value], t.users);
      }
    }
  }

  lemma FinalizeKept(s: Sim, id: nat)
    requires Good(s)
    ensures var t := ConfirmDeposit(s, id).0;
            OnePool(t.deposits) && EvidenceIsMoney(t.deposits) && Attribution(t)
  {
    var t := ConfirmDeposit(s, id).0;
    if t != s {
      var i := DepositAt(s.deposits, id).value;
      UpdatedKept(s, i, t.deposits[i], t.users);
    }
  }

  /** Where the deposit at `k` of the list after a claim stood before it. */
  function Origin(split: bool, i: nat, k: nat): nat {
    if split && k > i then k - 1 else k
  }

  /** What a claim makes of the deposits: one of them attributed, a larger pool split first. */
  lemma ClaimedDeposits(ds: seq<Deposit>, safe: string, units: int, next: nat, ref: string)
    requires Claim(ds, safe, units, next).Some?
    ensures
      var (claimed, i, _) := Claim(ds, safe, units, next).value;
      var after := claimed[i := claimed[i].(ref := Some(ref))];
      var split := |after| != |ds|;
      && ClaimAt(ds, safe, units) == Some(i) && i < |ds|
      && |after| == |ds| + (if split then 1 else 0)
      && (forall k :: 0 <= k < |after| && k != i && !(split && k == i + 1) ==> after[k] == ds[Origin(split, i, k)])
      && after[i].ref == Some(ref) && after[i].safe == safe && after[i].evidence == ds[i].evidence
      && after[i].txRef == claimed[i].txRef && after[i].confirmed && after[i].units >= units
      && (after[i].evidence.Some? ==> after[i].units == units)
      && (split ==> after[i + 1] == ds[i].(units := ds[i].units - units) && ds[i].units > units && ds[i].evidence.Some?)
  {}

  lemma ClaimShape(s: Sim, cardId: string, amount: Money, ref: string)
    requires Good(s) && ConfirmFunding(s, cardId, amount, ref).0 != s
    ensures
      var t := ConfirmFunding(s, cardId, amount, ref).0;
      var user := s.users[s.cards[cardId].user];
      var units := ToUnits(amount, user.currency);
      var i := ClaimAt(s.deposits, user.safe, units).value;
      var split := |t.deposits| != |s.deposits|;
      && ClaimAt(s.deposits, user.safe, units).Some? && i < |s.deposits|
      && |t.deposits| == |s.deposits| + (if split then 1 else 0)
      && (forall k :: 0 <= k < |t.deposits| && k != i && !(split && k == i + 1) ==>
            t.deposits[k] == s.deposits[Origin(split, i, k)])
      && t.deposits[i].ref == Some(ref) && t.deposits[i].safe == user.safe
      && t.deposits[i].evidence == s.deposits[i].evidence
      && ref in t.fundings && t.fundings == s.fundings[ref := t.fundings[ref]]
      && ClaimedBy(t.deposits[i], t.fundings[ref]) && ref !in s.fundings
      && t.fundings[ref] == FundingRecord(cardId, amount, units, t.deposits[i].txRef)
      && (split ==> t.deposits[i + 1] == s.deposits[i].(units := s.deposits[i].units - units)
                    && s.deposits[i].units > units && s.deposits[i].evidence.Some?)
      && cardId in s.cards && t.users == s.users && t.cards == s.cards
  {
    var user := s.users[s.cards[cardId].user];
    var units := ToUnits(amount, user.currency);
    ClaimIsPositive(amount.minor, Scale(user.currency));
    ClaimedDeposits(s.deposits, user.safe, units, s.nextDeposit, ref);
  }

  lemma ClaimIsPositive(minor: int, scale: int)
    requires scale > 0
    ensures minor > 0 ==> minor * scale > 0
  {}

  lemma FundKept(s: Sim, cardId: string, amount: Money, ref: string)
    requires Good(s)
    ensures var t := ConfirmFunding(s, cardId, amount, ref).0;
            OnePool(t.deposits) && EvidenceIsMoney(t.deposits) && Attribution(t)
  {
    var t := ConfirmFunding(s, cardId, amount, ref).0;
    if t != s {
      ClaimShape(s, cardId, amount, ref);
      FundKeepsPools(s, cardId, amount, ref);
      FundKeepsRefs(s, cardId, amount, ref);
    }
  }

  lemma FundKeepsPools(s: Sim, cardId: string, amount: Money, ref: string)
    requires Good(s) && ConfirmFunding(s, cardId, amount, ref).0 != s
    ensures var t := ConfirmFunding(s, cardId, amount, ref).0;
            OnePool(t.deposits) && EvidenceIsMoney(t.deposits)
  {
    var t := ConfirmFunding(s, cardId, amount, ref).0;
    ClaimShape(s, cardId, amount, ref);
    var user := s.users[s.cards[cardId].user];
    var i := ClaimAt(s.deposits, user.safe, ToUnits(amount, user.currency)).value;
    var split := |t.deposits| != |s.deposits|;
    forall j, k | 0 <= j < k < |t.deposits| && IsPool(t.deposits[j], t.deposits[j].safe)
                  && IsPool(t.deposits[k], t.deposits[k].safe)
      ensures t.deposits[j].safe != t.deposits[k].safe
    {
      assert j != i && k != i;
      assert IsPool(s.deposits[Origin(split, i, j)], t.deposits[j].safe);
      assert IsPool(s.deposits[Origin(split, i, k)], t.deposits[k].safe);
    }
    forall k | 0 <= k < |t.deposits| && t.deposits[k].evidence.Some?
      ensures t.deposits[k].confirmed && t.deposits[k].units >= 0
    {
      assert k != i && !(split && k == i + 1) ==> t.deposits[k] == s.deposits[Origin(split, i, k)];
    }
  }

  /** Where every attributed deposit but the new one was before the claim. */
  lemma RefsComeAlong(s: Sim, cardId: string, amount: Money, ref: string, k: nat)
    requires Good(s) && ConfirmFunding(s, cardId, amount, ref).0 != s
    requires var t := ConfirmFunding(s, cardId, amount, ref).0; k < |t.deposits| && t.deposits[k].ref.Some?
    ensures var t := ConfirmFunding(s, cardId, amount, ref).0;
            var user := s.users[s.cards[cardId].user];
            var claim := ClaimAt(s.deposits, user.safe, ToUnits(amount, user.currency));
            && claim.Some?
            && var from := Origin(|t.deposits| != |s.deposits|, claim.value, k);
               k != claim.value ==>
                 from < |s.deposits| && t.deposits[k] == s.deposits[from] && t.deposits[k].ref != Some(ref)
  {
    ClaimShape(s, cardId, amount, ref);
  }

  lemma FundKeepsRefsApart(s: Sim, cardId: string, amount: Money, ref: string)
    requires Good(s) && ConfirmFunding(s, cardId, amount, ref).0 != s
    ensures var t := ConfirmFunding(s, cardId, amount, ref).0;
            forall j, k :: 0 <= j < k < |t.deposits| && t.deposits[j].ref.Some? ==>
              t.deposits[j].ref != t.deposits[k].ref
  {
    var t := ConfirmFunding(s, cardId, amount, ref).0;
    ClaimShape(s, cardId, amount, ref);
    var user := s.users[s.cards[cardId].user];
    var i := ClaimAt(s.deposits, user.safe, ToUnits(amount, user.currency)).value;
    var split := |t.deposits| != |s.deposits|;
    forall j, k | 0 <= j < k < |t.deposits| && t.deposits[j].ref.Some?
      ensures t.deposits[j].ref != t.deposits[k].ref
    {
      RefsComeAlong(s, cardId, amount, ref, j);
      if t.deposits[k].ref.Some? {
        RefsComeAlong(s, cardId, amount, ref, k);
        if j != i && k != i {
          assert Origin(split, i, j) < Origin(split, i, k);
        }
      }
    }
  }

  lemma FundKeepsClaims(s: Sim, cardId: string, amount: Money, ref: string, k: nat)
    requires Good(s) && ConfirmFunding(s, cardId, amount, ref).0 != s
    requires var t := ConfirmFunding(s, cardId, amount, ref).0; k < |t.deposits| && t.deposits[k].ref.Some?
    ensures var t := ConfirmFunding(s, cardId, amount, ref).0; var r := t.deposits[k].ref.value;
            r in t.fundings && ClaimedBy(t.deposits[k], t.fundings[r]) && FundedAt(t, r, t.deposits[k].safe)
  {
    var t := ConfirmFunding(s, cardId, amount, ref).0;
    ClaimShape(s, cardId, amount, ref);
    RefsComeAlong(s, cardId, amount, ref, k);
    var r := t.deposits[k].ref.value;
    if r != ref {
      assert FundedAt(s, r, t.deposits[k].safe) && t.fundings[r] == s.fundings[r];
    }
  }

  lemma FundKeepsRefs(s: Sim, cardId: string, amount: Money, ref: string)
    requires Good(s) && ConfirmFunding(s, cardId, amount, ref).0 != s
    ensures Attribution(ConfirmFunding(s, cardId, amount, ref).0)
  {
    var t := ConfirmFunding(s, cardId, amount, ref).0;
    FundKeepsRefsApart(s, cardId, amount, ref);
    forall k | 0 <= k < |t.deposits| && t.deposits[k].ref.Some?
      ensures var r := t.deposits[k].ref.value;
              r in t.fundings && ClaimedBy(t.deposits[k], t.fundings[r]) && FundedAt(t, r, t.deposits[k].safe)
    {
      FundKeepsClaims(s, cardId, amount, ref, k);
    }
    forall r | r in t.fundings ensures HasRef(t.deposits, r) {
      if r == ref {
        FundHoldsRef(s, cardId, amount, ref);
      } else {
        FundFindsRef(s, cardId, amount, ref, r);
      }
    }
  }

  lemma FundHoldsRef(s: Sim, cardId: string, amount: Money, ref: string)
    requires Good(s) && ConfirmFunding(s, cardId, amount, ref).0 != s
    ensures HasRef(ConfirmFunding(s, cardId, amount, ref).0.deposits, ref)
  {
    var t := ConfirmFunding(s, cardId, amount, ref).0;
    ClaimShape(s, cardId, amount, ref);
    var user := s.users[s.cards[cardId].user];
    var i := ClaimAt(s.deposits, user.safe, ToUnits(amount, user.currency)).value;
    assert t.deposits[i] in t.deposits;
  }

  lemma FundFindsRef(s: Sim, cardId: string, amount: Money, ref: string, r: string)
    requires Good(s) && ConfirmFunding(s, cardId, amount, ref).0 != s && r in s.fundings
    ensures HasRef(ConfirmFunding(s, cardId, amount, ref).0.deposits, r)
  {
    var t := ConfirmFunding(s, cardId, amount, ref).0;
    ClaimShape(s, cardId, amount, ref);
    var user := s.users[s.cards[cardId].user];
    var i := ClaimAt(s.deposits, user.safe, ToUnits(amount, user.currency)).value;
    var split := |t.deposits| != |s.deposits|;
    var e :| e in s.deposits && e.ref == Some(r);
    var k :| 0 <= k < |s.deposits| && s.deposits[k] == e;
    assert k != i;
    var k' := if split && k > i then k + 1 else k;
    assert Origin(split, i, k') == k;
    assert t.deposits[k'] == e;
  }

  lemma GoodKept(s: Sim, op: Op)
    requires Good(s)
    ensures Good(Perform(s, op).0)
  {
    ShapeKept(s, op);
    ConservedKept(s, op);
    HoldsKept(s, op);
    if op.Fund? {
      FundKept(s, op.cardId, op.amount, op.ref);
    } else {
      DepositsKept(s, op);
    }
  }

  lemma LawsKept(s: Sim, op: Op)
    requires Shape(s)
    ensures Shape(Perform(s, op).0)
    ensures Good(s) ==> Good(Perform(s, op).0)
  {
    ShapeKept(s, op);
    if Good(s) {
      GoodKept(s, op);
    }
  }

  lemma ReceiveLawful(s: Sim, safe: string, amount: Money, confirmed: bool)
    requires Shape(s)
    ensures Shape(ReceiveDeposit(s, safe, amount, confirmed).0)
            && (Good(s) ==> Good(ReceiveDeposit(s, safe, amount, confirmed).0))
  {
    assert Perform(s, Receive(safe, amount, confirmed)) == ReceiveDeposit(s, safe, amount, confirmed);
    LawsKept(s, Receive(safe, amount, confirmed));
  }

  lemma ObserveLawful(s: Sim, safe: string, onchain: int, evidence: string)
    requires Shape(s)
    ensures Shape(Reconcile(s, safe, onchain, evidence).0)
            && (Good(s) ==> Good(Reconcile(s, safe, onchain, evidence).0))
  {
    assert Perform(s, Observe(safe, onchain, evidence)) == Reconcile(s, safe, onchain, evidence);
    LawsKept(s, Observe(safe, onchain, evidence));
  }

  lemma FinalizeLawful(s: Sim, id: nat)
    requires Shape(s)
    ensures Shape(ConfirmDeposit(s, id).0) && (Good(s) ==> Good(ConfirmDeposit(s, id).0))
  {
    assert Perform(s, Finalize(id)) == ConfirmDeposit(s, id);
    LawsKept(s, Finalize(id));
  }

  lemma FundLawful(s: Sim, cardId: string, amount: Money, ref: string)
    requires Shape(s)
    ensures Shape(ConfirmFunding(s, cardId, amount, ref).0)
            && (Good(s) ==> Good(ConfirmFunding(s, cardId, amount, ref).0))
  {
    assert Perform(s, Fund(cardId, amount, ref)) == ConfirmFunding(s, cardId, amount, ref);
    LawsKept(s, Fund(cardId, amount, ref));
  }

  lemma HoldLawful(s: Sim, cardId: string, amount: Money)
    requires Shape(s)
    ensures Shape(Authorize(s, cardId, amount).0) && (Good(s) ==> Good(Authorize(s, cardId, amount).0))
  {
    assert Perform(s, Hold(cardId, amount)) == Authorize(s, cardId, amount);
    LawsKept(s, Hold(cardId, amount));
  }

  lemma SettleLawful(s: Sim, t: nat)
    requires Shape(s)
    ensures Shape(Clear(s, t).0) && (Good(s) ==> Good(Clear(s, t).0))
  {
    assert Perform(s, Settle(t)) == Clear(s, t);
    LawsKept(s, Settle(t));
  }

  lemma GiveBackLawful(s: Sim, cardId: string, amount: Money)
    requires Shape(s)
    ensures Shape(RefundCard(s, cardId, amount).0) && (Good(s) ==> Good(RefundCard(s, cardId, amount).0))
  {
    assert Perform(s, GiveBack(cardId, amount)) == RefundCard(s, cardId, amount);
    LawsKept(s, GiveBack(cardId, amount));
  }

  lemma ReleaseLawful(s: Sim, t: nat)
    requires Shape(s)
    ensures Shape(Reverse(s, t).0) && (Good(s) ==> Good(Reverse(s, t).0))
  {
    assert Perform(s, Release(t)) == Reverse(s, t);
    LawsKept(s, Release(t));
  }

  // ------------------------------------------------------------- whole runs

  function After(s: Sim, ops: seq<Op>): Sim
    requires Good(s)
    decreases |ops|
  {
    if ops == [] then s
    else
      GoodKept(s, ops[0]);
      After(Perform(s, ops[0]).0, ops[1..])
  }

  /** Over any sequence of deposits, confirmations, observations, fundings, holds, clearings,
      refunds and reversals, each Safe's books balance and each hold is a pending transaction. */
  lemma {:induction false} BooksAlwaysBalance(s: Sim, ops: seq<Op>, safe: string)
    requires Good(s)
    ensures Good(After(s, ops))
    ensures var t := After(s, ops);
            && Balances(t.users, safe) + Spent(t.txns, t.users, safe) == Total(t.deposits, safe, Confirmed)
            && forall u :: 0 <= u < |t.users| ==> t.users[u].held == HeldBy(t.txns, u)
    decreases |ops|
  {
    if ops != [] {
      GoodKept(s, ops[0]);
      BooksAlwaysBalance(Perform(s, ops[0]).0, ops[1..], safe);
    }
  }

  // ------------------------------------------------ the chain bounds the cards

  lemma {:induction false} PoolIsPooled(ds: seq<Deposit>, safe: string)
    requires OnePool(ds)
    ensures Total(ds, safe, Pooled) == PoolUnits(ds, safe)
  {
    if ds != [] {
      var n := |ds| - 1;
      PoolIsPooled(ds[..n], safe);
      assert !(IsPool(ds[n], safe) && PoolAt(ds[..n], safe).Some?);
    }
  }

  lemma {:induction false} EvidencedSplits(ds: seq<Deposit>, safe: string)
    ensures Total(ds, safe, Evidenced) == Total(ds, safe, AttributedEvidenced) + Total(ds, safe, Pooled)
  {
    if ds != [] {
      EvidencedSplits(ds[..|ds| - 1], safe);
    }
  }

  lemma {:induction false} AttributedAtLeastEvidenced(s: Sim, n: nat, safe: string)
    requires Attribution(s) && n <= |s.deposits|
    ensures Total(s.deposits[..n], safe, AttributedEvidenced) <= Total(s.deposits[..n], safe, Attributed)
  {
    if n > 0 {
      AttributedAtLeastEvidenced(s, n - 1, safe);
      assert s.deposits[..n][..n - 1] == s.deposits[..n - 1];
    }
  }

  /** One observation leaves the unattributed balance at exactly what the chain shows beyond
      what is attributed, and attributes nothing. */
  lemma ObserveMeetsChain(s: Sim, safe: string, onchain: int, evidence: string)
    requires Good(s) && safe in s.safes
    ensures var t := Reconcile(s, safe, onchain, evidence).0;
            && Total(t.deposits, safe, Attributed) == Total(s.deposits, safe, Attributed)
            && Total(t.deposits, safe, AttributedEvidenced) == Total(s.deposits, safe, AttributedEvidenced)
            && Total(t.deposits, safe, Pooled) == PoolTarget(s.deposits, safe, onchain)
            && Total(t.deposits, safe, Pooled) == PoolUnits(t.deposits, safe)
  {
    var t := Reconcile(s, safe, onchain, evidence).0;
    ObserveKept(s, safe, onchain, evidence);
    PoolIsPooled(s.deposits, safe);
    PoolIsPooled(t.deposits, safe);
    if t != s {
      var p := PoolAt(s.deposits, safe);
      if p.None? {
        ObserveAdds(s.deposits, t.deposits[|s.deposits|], safe);
      } else {
        ObserveResizes(s.deposits, p.value, t.deposits[p.value], safe);
      }
    }
  }

  lemma ObserveAdds(ds: seq<Deposit>, d: Deposit, safe: string)
    requires IsPool(d, safe)
    ensures Total(ds + [d], safe, Attributed) == Total(ds, safe, Attributed)
    ensures Total(ds + [d], safe, AttributedEvidenced) == Total(ds, safe, AttributedEvidenced)
    ensures Total(ds + [d], safe, Pooled) == Total(ds, safe, Pooled) + d.units
  {
    TotalAppend(ds, d, safe, Attributed);
    TotalAppend(ds, d, safe, AttributedEvidenced);
    TotalAppend(ds, d, safe, Pooled);
  }

  lemma ObserveResizes(ds: seq<Deposit>, i: nat, d: Deposit, safe: string)
    requires i < |ds| && IsPool(ds[i], safe) && IsPool(d, safe)
    ensures Total(ds[i := d], safe, Attributed) == Total(ds, safe, Attributed)
    ensures Total(ds[i := d], safe, AttributedEvidenced) == Total(ds, safe, AttributedEvidenced)
    ensures Total(ds[i := d], safe, Pooled) == Total(ds, safe, Pooled) + d.units - ds[i].units
  {
    TotalUpdate(ds, i, d, safe, Attributed);
    TotalUpdate(ds, i, d, safe, AttributedEvidenced);
    TotalUpdate(ds, i, d, safe, Pooled);
  }

  lemma {:induction false} PoolNotNegative(ds: seq<Deposit>, safe: string)
    requires EvidenceIsMoney(ds)
    ensures Total(ds, safe, Pooled) >= 0
  {
    if ds != [] {
      PoolNotNegative(ds[..|ds| - 1], safe);
    }
  }

  /** Evidence-bearing money either did not grow, or is at most what was just observed. */
  lemma ObservationBound(s: Sim, op: Op, safe: string)
    requires Good(s)
    ensures var t := Perform(s, op).0;
            || Total(t.deposits, safe, Evidenced) <= Total(s.deposits, safe, Evidenced)
            || (op.Observe? && op.safe == safe && Total(t.deposits, safe, Evidenced) <= op.onchain)
  {
    if op.Observe? {
      ObserveBound(s, op.safe, op.onchain, op.evidence, safe);
    } else if op.Receive? {
      ReceiveShowsNothing(s, op.safe, op.amount, op.confirmed, safe);
    } else if op.Finalize? {
      FinalizeShowsNothing(s, op.deposit, safe);
    } else if op.Fund? {
      FundShowsNothing(s, op.cardId, op.amount, op.ref, safe);
    } else {
      assert Perform(s, op).0.deposits == s.deposits;
    }
  }

  lemma ReceiveShowsNothing(s: Sim, a: string, amount: Money, confirmed: bool, safe: string)
    requires Shape(s)
    ensures Total(ReceiveDeposit(s, a, amount, confirmed).0.deposits, safe, Evidenced)
            == Total(s.deposits, safe, Evidenced)
  {
    var t := ReceiveDeposit(s, a, amount, confirmed).0;
    if t != s {
      TotalAppend(s.deposits, t.deposits[|s.deposits|], safe, Evidenced);
    }
  }

  lemma FinalizeShowsNothing(s: Sim, id: nat, safe: string)
    requires Shape(s)
    ensures Total(ConfirmDeposit(s, id).0.deposits, safe, Evidenced) == Total(s.deposits, safe, Evidenced)
  {
    var t := ConfirmDeposit(s, id).0;
    if t != s {
      var i := DepositAt(s.deposits, id).value;
      TotalUpdate(s.deposits, i, t.deposits[i], safe, Evidenced);
    }
  }

  lemma FundShowsNothing(s: Sim, cardId: string, amount: Money, ref: string, safe: string)
    requires Shape(s)
    ensures Total(ConfirmFunding(s, cardId, amount, ref).0.deposits, safe, Evidenced)
            == Total(s.deposits, safe, Evidenced)
  {
    if ConfirmFunding(s, cardId, amount, ref).0 != s {
      var user := s.users[s.cards[cardId].user];
      ClaimConserves(s.deposits, user.safe, ToUnits(amount, user.currency), s.nextDeposit, ref, safe);
    }
  }

  lemma ObserveBound(s: Sim, a: string, onchain: int, evidence: string, safe: string)
    requires Good(s)
    ensures var t := Reconcile(s, a, onchain, evidence).0;
            || Total(t.deposits, safe, Evidenced) <= Total(s.deposits, safe, Evidenced)
            || (a == safe && Total(t.deposits, safe, Evidenced) <= onchain)
  {
    var t := Reconcile(s, a, onchain, evidence).0;
    if t != s {
      if a == safe {
        ObserveMeetsChain(s, safe, onchain, evidence);
        EvidencedSplits(s.deposits, safe);
        EvidencedSplits(t.deposits, safe);
        AttributedAtLeastEvidenced(s, |s.deposits|, safe);
        assert s.deposits[..|s.deposits|] == s.deposits;
        PoolNotNegative(s.deposits, safe);
      } else {
        var p := PoolAt(s.deposits, a);
        if p.None? {
          TotalAppend(s.deposits, t.deposits[|s.deposits|], safe, Evidenced);
        } else {
          TotalUpdate(s.deposits, p.value, t.deposits[p.value], safe, Evidenced);
        }
      }
    }
  }

  /** The largest balance of `safe` any observation in `ops` reported, and at least `floor`. */
  function LargestObserved(ops: seq<Op>, safe: string, floor: int): int
    decreases |ops|
  {
    if ops == [] then floor
    else
      var here := if ops[0].Observe? && ops[0].safe == safe && ops[0].onchain > floor then ops[0].onchain else floor;
      LargestObserved(ops[1..], safe, here)
  }

  /** In every run, attributed plus unattributed observed money never exceeds the largest
      balance the chain ever showed, however else the Safe is also fed. */
  lemma {:induction false} ChainBoundsCards(s: Sim, ops: seq<Op>, safe: string, floor: int)
    requires Good(s) && Total(s.deposits, safe, Evidenced) <= floor
    ensures Good(After(s, ops))
    ensures Total(After(s, ops).deposits, safe, Evidenced) <= LargestObserved(ops, safe, floor)
    ensures Total(After(s, ops).deposits, safe, Evidenced)
            == Total(After(s, ops).deposits, safe, AttributedEvidenced) + PoolUnits(After(s, ops).deposits, safe)
    decreases |ops|
  {
    if ops == [] {
      EvidencedSplits(s.deposits, safe);
      PoolIsPooled(s.deposits, safe);
    } else {
      var t := Perform(s, ops[0]).0;
      GoodKept(s, ops[0]);
      ObservationBound(s, ops[0], safe);
      var here := if ops[0].Observe? && ops[0].safe == safe && ops[0].onchain > floor then ops[0].onchain else floor;
      ChainBoundsCards(t, ops[1..], safe, here);
    }
  }

  /** Everything at `safe` was read from the chain. */
  predicate AllObserved(ds: seq<Deposit>, safe: string) {
    forall i :: 0 <= i < |ds| && ds[i].safe == safe ==> ds[i].evidence.Some?
  }

  /** No transfer into `safe` is simulated. */
  predicate OnlyObserved(ops: seq<Op>, safe: string) {
    forall i :: 0 <= i < |ops| ==> !(ops[i].Receive? && ops[i].safe == safe)
  }

  lemma ClaimKeepsObserved(ds: seq<Deposit>, a: string, units: int, next: nat, ref: string, safe: string)
    requires AllObserved(ds, safe) && Claim(ds, a, units, next).Some?
    ensures var (after, i, _) := Claim(ds, a, units, next).value;
            AllObserved(after[i := after[i].(ref := Some(ref))], safe)
  {
    var (after, i, _) := Claim(ds, a, units, next).value;
    if after != ds {
      forall k | 0 <= k < |after| && after[k].safe == safe ensures after[k].evidence.Some? {
        assert k > i + 1 ==> after[k] == ds[k - 1];
      }
    }
  }

  lemma StepKeepsObserved(s: Sim, op: Op, safe: string)
    requires Shape(s) && AllObserved(s.deposits, safe) && OnlyObserved([op], safe)
    ensures AllObserved(Perform(s, op).0.deposits, safe)
  {
    assert [op][0] == op;
    if op.Fund? {
      if ConfirmFunding(s, op.cardId, op.amount, op.ref).0 != s {
        var user := s.users[s.cards[op.cardId].user];
        ClaimKeepsObserved(s.deposits, user.safe, ToUnits(op.amount, user.currency), s.nextDeposit, op.ref, safe);
      }
    }
  }

  lemma {:induction false} RunKeepsObserved(s: Sim, ops: seq<Op>, safe: string)
    requires Good(s) && AllObserved(s.deposits, safe) && OnlyObserved(ops, safe)
    ensures AllObserved(After(s, ops).deposits, safe)
    decreases |ops|
  {
    if ops != [] {
      StepKeepsObserved(s, ops[0], safe);
      GoodKept(s, ops[0]);
      RunKeepsObserved(Perform(s, ops[0]).0, ops[1..], safe);
    }
  }

  lemma {:induction false} AllAttributedIsObserved(ds: seq<Deposit>, safe: string)
    requires AllObserved(ds, safe)
    ensures Total(ds, safe, Attributed) == Total(ds, safe, AttributedEvidenced)
  {
    if ds != [] {
      AllAttributedIsObserved(ds[..|ds| - 1], safe);
    }
  }

  /** A Safe fed by observation alone: what its cards were ever credited, plus what is still
      unattributed, never exceeds the largest balance the chain has shown. */
  lemma ObservedSafeIsCovered(ops: seq<Op>, safe: string)
    requires OnlyObserved(ops, safe)
    ensures Good(NO_PROVIDER_STATE)
    ensures var t := After(NO_PROVIDER_STATE, ops);
            && Total(t.deposits, safe, Attributed) + PoolUnits(t.deposits, safe) <= LargestObserved(ops, safe, 0)
            && FundedUnits(t, |t.deposits|, safe) == Total(t.deposits, safe, Attributed)
  {
    NothingIsGood();
    ChainBoundsCards(NO_PROVIDER_STATE, ops, safe, 0);
    RunKeepsObserved(NO_PROVIDER_STATE, ops, safe);
    var t := After(NO_PROVIDER_STATE, ops);
    AllAttributedIsObserved(t.deposits, safe);
    FundedWithinAttributed(t, |t.deposits|, safe);
    assert t.deposits[..|t.deposits|] == t.deposits;
  }

  // --------------------------------------------------------- funding replay

  lemma {:induction false} FundingsOnlyGrow(s: Sim, ops: seq<Op>, ref: string)
    requires Good(s) && ref in s.fundings
    ensures ref in After(s, ops).fundings && After(s, ops).fundings[ref] == s.fundings[ref]
    ensures Good(After(s, ops))
    decreases |ops|
  {
    if ops != [] {
      GoodKept(s, ops[0]);
      FundingKeptOnce(s, ops[0], ref);
      FundingsOnlyGrow(Perform(s, ops[0]).0, ops[1..], ref);
    }
  }

  lemma FundingKeptOnce(s: Sim, op: Op, ref: string)
    requires Shape(s) && ref in s.fundings
    ensures ref in Perform(s, op).0.fundings && Perform(s, op).0.fundings[ref] == s.fundings[ref]
  {
    if op.Fund? {
      FundKeepsFundings(s, op.cardId, op.amount, op.ref);
    } else if op.Hold? || op.Settle? || op.GiveBack? || op.Release? {
      SpendingTouchesNothing(s, op);
    }
  }

  lemma FundKeepsFundings(s: Sim, cardId: string, amount: Money, ref: string)
    requires Shape(s)
    ensures var t := ConfirmFunding(s, cardId, amount, ref).0;
            forall r :: r in s.fundings ==> r in t.fundings && t.fundings[r] == s.fundings[r]
  {}

  lemma CardsStay(s: Sim, op: Op)
    requires Shape(s)
    ensures s.cards.Keys <= Perform(s, op).0.cards.Keys
  {
    if op.Fund? {
      assert ConfirmFunding(s, op.cardId, op.amount, op.ref).0.cards == s.cards;
    } else if op.Hold? || op.Settle? || op.GiveBack? || op.Release? {
      assert Perform(s, op).0.cards == s.cards;
    }
  }

  lemma {:induction false} CardsAreNeverRemoved(s: Sim, ops: seq<Op>)
    requires Good(s)
    ensures s.cards.Keys <= After(s, ops).cards.Keys
    decreases |ops|
  {
    if ops != [] {
      CardsStay(s, ops[0]);
      GoodKept(s, ops[0]);
      CardsAreNeverRemoved(Perform(s, ops[0]).0, ops[1..]);
    }
  }

  /** Once a funding has succeeded, whatever happens next the same call answers the same
      result and moves nothing, and the same reference on other terms is refused. */
  lemma FundingReplays(s: Sim, cardId: string, amount: Money, ref: string, ops: seq<Op>, card2: string, amount2: Money)
    requires Good(s) && ConfirmFunding(s, cardId, amount, ref).1.Succeeded?
    ensures
      var (t, first) := ConfirmFunding(s, cardId, amount, ref);
      && Good(t) && Good(After(t, ops))
      && var later := After(t, ops);
      && ConfirmFunding(later, cardId, amount, ref) == (later, first)
      && ((card2, amount2) != (cardId, amount) ==>
            ConfirmFunding(later, card2, amount2, ref)
            == (later, if card2 in later.cards then Rejected else NoSuchCard))
  {
    var (t, first) := ConfirmFunding(s, cardId, amount, ref);
    SuccessIsStored(s, cardId, amount, ref);
    GoodKept(s, Fund(cardId, amount, ref));
    assert Perform(s, Fund(cardId, amount, ref)).0 == t;
    FundingsOnlyGrow(t, ops, ref);
    CardsAreNeverRemoved(t, ops);
    var later := After(t, ops);
    assert cardId in later.cards.Keys;
    StoredFundingDecides(later, cardId, amount, ref);
    if card2 in later.cards {
      StoredFundingDecides(later, card2, amount2, ref);
    }
  }

  lemma SuccessIsStored(s: Sim, cardId: string, amount: Money, ref: string)
    requires Good(s) && ConfirmFunding(s, cardId, amount, ref).1.Succeeded?
    ensures var (t, first) := ConfirmFunding(s, cardId, amount, ref);
            && ref in t.fundings && t.fundings[ref] == first.funding
            && first.funding.cardId == cardId && first.funding.amount == amount
  {}

  lemma StoredFundingDecides(s: Sim, cardId: string, amount: Money, ref: string)
    requires Shape(s) && ref in s.fundings && cardId in s.cards
    ensures var f := s.fundings[ref];
            ConfirmFunding(s, cardId, amount, ref)
            == (s, if f.cardId == cardId && f.amount == amount then Succeeded(f) else Rejected)
  {}

  /** Token units of the fundings the first `n` deposits at `safe` were claimed by. */
  function FundedUnits(s: Sim, n: nat, safe: string): int
    requires n <= |s.deposits|
  {
    if n == 0 then 0
    else
      var d := s.deposits[n - 1];
      FundedUnits(s, n - 1, safe)
      + if d.safe == safe && d.ref.Some? && d.ref.value in s.fundings then s.fundings[d.ref.value].units else 0
  }

  /** Cards are never funded with more than was attributed, and with exactly that much when
      every claim came out of an observed balance. */
  lemma {:induction false} FundedWithinAttributed(s: Sim, n: nat, safe: string)
    requires Attribution(s) && n <= |s.deposits|
    ensures FundedUnits(s, n, safe) <= Total(s.deposits[..n], safe, Attributed)
    ensures (forall i :: 0 <= i < n && s.deposits[i].safe == safe && s.deposits[i].ref.Some? ==>
               s.deposits[i].evidence.Some?) ==>
            FundedUnits(s, n, safe) == Total(s.deposits[..n], safe, Attributed)
  {
    if n > 0 {
      FundedWithinAttributed(s, n - 1, safe);
      assert s.deposits[..n][..n - 1] == s.deposits[..n - 1];
    }
  }

  function RefsOf(ds: seq<Deposit>): set<string> {
    set d | d in ds && d.ref.Some? :: d.ref.value
  }

  /** Stored funding references and attributed deposits: the same references, each once. */
  lemma FundingsMatchDeposits(s: Sim)
    requires Good(s)
    ensures RefsOf(s.deposits) == s.fundings.Keys
    ensures forall i, j :: 0 <= i < j < |s.deposits| && s.deposits[i].ref.Some? ==>
              s.deposits[i].ref != s.deposits[j].ref
  {
    forall ref ensures ref in RefsOf(s.deposits) <==> ref in s.fundings {
      if ref in s.fundings {
        assert HasRef(s.deposits, ref);
      }
      if ref in RefsOf(s.deposits) {
        var d :| d in s.deposits && d.ref == Some(ref);
        var i :| 0 <= i < |s.deposits| && s.deposits[i] == d;
      }
    }
  }

  // ------------------------------------------------------ what decides each call

  /** Token units of a currency with `n` decimals beyond the two of `Money`, counted up one
      decimal at a time. */
  lemma {:induction false} ScaleCountsDecimals(c: Currency, finer: Currency)
    requires finer.decimals == c.decimals + 1
    ensures Scale(finer) == 10 * Scale(c)
    ensures c.decimals == 2 ==> Scale(c) == 1
  {}

  predicate WithinLimit(user: User, amount: Money) {
    user.dailyLimit.None? || amount.minor <= user.dailyLimit.value
  }

  /** A card payment is approved exactly when the card is active, the amount is within the limit if
      there is one, and the balance covers it; then the balance is held, and never overdrawn.
      Otherwise no balance moves, and what is recorded is the first cause that applies. */
  lemma AuthorizeIsExact(s: Sim, cardId: string, amount: Money)
    requires Shape(s) && cardId in s.cards
    ensures
      var u := s.cards[cardId].user;
      var user, units := s.users[u], amount.minor * Scale(s.users[u].currency);
      var active := s.cards[cardId].state == Active;
      var covered := user.spendable >= units;
      var (t, reply) := Authorize(s, cardId, amount);
      && reply == Done && |t.txns| == |s.txns| + 1
      && var txn := t.txns[|s.txns|];
      && t == s.(users := t.users, txns := s.txns + [txn])
      && txn == Txn(u, cardId, Payment, txn.status, units, txn.status == Some(Approved), false)
      && (txn.status == Some(Approved) <==> active && WithinLimit(user, amount) && covered)
      && (txn.status == Some(Other) <==> !active)
      && (txn.status == Some(ExceedsLimit) <==> active && !WithinLimit(user, amount))
      && (txn.status == Some(InsufficientFunds) <==> active && WithinLimit(user, amount) && !covered)
      && (txn.status != Some(Approved) ==> t.users == s.users)
      && (txn.status == Some(Approved) ==>
            && |t.users| == |s.users|
            && t.users[u] == user.(spendable := user.spendable - units, held := user.held + units)
            && t.users[u].spendable >= 0
            && forall v :: 0 <= v < |s.users| && v != u ==> t.users[v] == s.users[v])
  {}

  /** A confirmed transfer to the Safe that no funding has claimed and that is large enough. */
  predicate Coverable(ds: seq<Deposit>, safe: string, units: int) {
    exists i :: 0 <= i < |ds| && ds[i].safe == safe && ds[i].confirmed && ds[i].ref.None? && ds[i].units >= units
  }

  /** What a funding call comes to: a stored result for its own terms again, a refusal for other
      terms, a cancelled card, a foreign currency or no amount, a wait until something at the
      card's own Safe covers it, and otherwise one deposit of that Safe claimed for it. */
  lemma FundingIsExact(s: Sim, cardId: string, amount: Money, ref: string)
    requires Shape(s)
    ensures
      var (t, reply) := ConfirmFunding(s, cardId, amount, ref);
      if cardId !in s.cards then (t, reply) == (s, NoSuchCard)
      else if ref in s.fundings then
        t == s && if s.fundings[ref].cardId == cardId && s.fundings[ref].amount == amount
                  then reply == Succeeded(s.fundings[ref]) else reply == Rejected
      else
        var user := s.users[s.cards[cardId].user];
        var fit := s.cards[cardId].state != Canceled && amount.currency == user.currency.code && amount.minor > 0;
        var covered := Coverable(s.deposits, user.safe, amount.minor * Scale(user.currency));
        && (reply == Rejected <==> !fit) && (reply == Awaiting <==> fit && !covered)
        && (reply.Succeeded? <==> fit && covered) && (!reply.Succeeded? ==> t == s)
        && (reply.Succeeded? ==>
              && t.fundings == s.fundings[ref := reply.funding]
              && reply.funding.cardId == cardId && reply.funding.amount == amount
              && reply.funding.units == amount.minor * Scale(user.currency))
  {
    if cardId in s.cards && ref !in s.fundings {
      var user := s.users[s.cards[cardId].user];
      var units := ToUnits(amount, user.currency);
      var i := ClaimAt(s.deposits, user.safe, units);
      assert i.Some? ==> Covers(s.deposits[i.value], user.safe, units);
      assert Coverable(s.deposits, user.safe, units) ==> i.Some?;
    }
  }

  /** What the owner does with cards: a card is issued once, for a user there is, and not yet
      active; its state and its user's limit become what they are set to; and no money moves. */
  lemma CardsAreIssuedAndSet(s: Sim, cardId: string, u: nat, state: CardState, limit: Option<int>)
    requires Shape(s)
    ensures var (t, reply) := Perform(s, NewCard(cardId, u));
            && (reply == Done <==> u < |s.users| && cardId !in s.cards)
            && t == s.(cards := if reply == Done then s.cards[cardId := CardRecord(u, Unactivated)] else s.cards)
    ensures var (t, reply) := Perform(s, SetCardState(cardId, state));
            && (reply == Done <==> cardId in s.cards) && t == s.(cards := t.cards) && t.cards.Keys == s.cards.Keys
            && (reply == Done ==> t.cards[cardId] == CardRecord(s.cards[cardId].user, state))
            && forall c :: c in s.cards && c != cardId ==> t.cards[c] == s.cards[c]
    ensures var (t, reply) := Perform(s, SetLimit(u, limit));
            && (reply == Done <==> u < |s.users|) && t == s.(users := t.users) && |t.users| == |s.users|
            && (reply == Done ==> t.users[u] == s.users[u].(dailyLimit := limit))
            && forall v :: 0 <= v < |s.users| && v != u ==> t.users[v] == s.users[v]
  {}
}
