/** The provider behind the crypto-deposit issuer: Safes, deposits, attribution and holds,
    as values. `Simulator.dfy` holds the object that updates them in place. */
module Safe {
  import opened Basics
  import opened Ledger

  datatype Denomination = Denomination(symbol: string, code: string, decimals: nat)

  /** Never coarser than the two decimals of `Money`. */
  type Currency = c: Denomination | c.decimals >= 2 witness Denomination("USDCe", "USD", 6)

  function Pow10(n: nat): (p: int)
    ensures p > 0
  {
    if n == 0 then 1 else 10 * Pow10(n - 1)
  }

  function Scale(c: Currency): (p: int)
    ensures p > 0
  {
    Pow10(c.decimals - 2)
  }

  function ToUnits(amount: Money, c: Currency): int {
    amount.minor * Scale(c)
  }

  /** `None` when the units are finer than a minor unit. */
  function ToMoney(units: int, c: Currency): Option<Money> {
    if units % Scale(c) != 0 then None else Some(Money(units / Scale(c), c.code))
  }

  /** The two conversions are inverse, and the refusal is exact. */
  lemma UnitsRoundTrip(amount: Money, units: int, c: Currency)
    ensures amount.currency == c.code ==> ToMoney(ToUnits(amount, c), c) == Some(amount)
    ensures ToMoney(units, c) == None <==> forall m: int :: ToUnits(Money(m, c.code), c) != units
    ensures ToMoney(units, c).Some? ==> ToUnits(ToMoney(units, c).value, c) == units
  {
    var k := Scale(c);
    MulDiv(amount.minor, k);
    if ToMoney(units, c) == None {
      forall m: int ensures ToUnits(Money(m, c.code), c) != units { MulDiv(m, k); }
    } else {
      assert ToUnits(Money(units / k, c.code), c) == units;
    }
  }

  lemma AtLeastOnce(a: int, k: int)
    requires a >= 1 && k > 0
    ensures a * k >= k
  {
    assert (a - 1) * k >= 0;
  }

  lemma {:induction false} MulDiv(m: int, k: int)
    requires k > 0
    ensures (m * k) % k == 0 && (m * k) / k == m
  {
    var q, r := (m * k) / k, (m * k) % k;
    assert (m - q) * k == r;
    if m - q >= 1 {
      AtLeastOnce(m - q, k);
    } else if q - m >= 1 {
      AtLeastOnce(q - m, k);
    }
  }

  // ------------------------------------------------------------------- state

  datatype User = User(
    safe: string, currency: Currency, spendable: int, held: int, dailyLimit: Option<int>)

  datatype CardState = Unactivated | Active | Frozen | Canceled

  datatype CardRecord = CardRecord(user: nat, state: CardState)

  /** A derived hash for a simulated transfer; the evidence itself for an observed balance. */
  datatype TxRef = Derived(deposit: nat) | Observed(evidence: string)

  datatype Deposit = Deposit(
    id: nat, txRef: TxRef, safe: string, units: int, confirmed: bool,
    ref: Option<string>, evidence: Option<string>)

  datatype Kind = Payment | Refund | Reversal

  datatype Status = Approved | InsufficientFunds | ExceedsLimit | Other

  datatype Txn = Txn(
    user: nat, card: string, kind: Kind, status: Option<Status>, units: int, pending: bool, cleared: bool)

  /** A succeeded funding; `units` is `amount` in the Safe's token units. */
  datatype FundingRecord = FundingRecord(cardId: string, amount: Money, units: int, issuerRef: TxRef)

  datatype Sim = Sim(
    users: seq<User>,
    safes: map<string, nat>,
    cards: map<string, CardRecord>,
    deposits: seq<Deposit>,
    txns: seq<Txn>,
    fundings: map<string, FundingRecord>,
    nextDeposit: nat)

  const NO_PROVIDER_STATE := Sim([], map[], map[], [], [], map[], 1)

  /** What a provider call came to; the last five are raised. */
  datatype Reply =
    | Done
    | Unchanged
    | Succeeded(funding: FundingRecord)
    | Awaiting
    | Rejected
    | NoSuchCard
    | NoSuchSafe
    | NoSuchObject
    | WrongCurrency

  // ---------------------------------------------------------------- deposits

  predicate IsPool(d: Deposit, safe: string) {
    d.safe == safe && d.ref.None? && d.evidence.Some?
  }

  predicate Covers(d: Deposit, safe: string, units: int) {
    d.safe == safe && d.confirmed && d.ref.None? && d.units >= units
  }

  /** Index of the unattributed observed balance of `safe`, if there is one. */
  function PoolAt(ds: seq<Deposit>, safe: string): (r: Option<nat>)
    ensures r.Some? ==> r.value < |ds| && IsPool(ds[r.value], safe)
                        && forall j :: 0 <= j < r.value ==> !IsPool(ds[j], safe)
    ensures r.None? ==> forall j :: 0 <= j < |ds| ==> !IsPool(ds[j], safe)
  {
    if ds == [] then None
    else
      var r := PoolAt(ds[..|ds| - 1], safe);
      if r.Some? then r
      else if IsPool(ds[|ds| - 1], safe) then Some(|ds| - 1) else None
  }

  /** Index of the oldest deposit a claim of `units` may use. */
  function ClaimAt(ds: seq<Deposit>, safe: string, units: int): (r: Option<nat>)
    ensures r.Some? ==> r.value < |ds| && Covers(ds[r.value], safe, units)
                        && forall j :: 0 <= j < r.value ==> !Covers(ds[j], safe, units)
    ensures r.None? ==> forall j :: 0 <= j < |ds| ==> !Covers(ds[j], safe, units)
  {
    if ds == [] then None
    else
      var r := ClaimAt(ds[..|ds| - 1], safe, units);
      if r.Some? then r
      else if Covers(ds[|ds| - 1], safe, units) then Some(|ds| - 1) else None
  }

  /** Index of the deposit numbered `id`. */
  function DepositAt(ds: seq<Deposit>, id: nat): (r: Option<nat>)
    ensures r.Some? ==> r.value < |ds| && ds[r.value].id == id
                        && forall j :: 0 <= j < r.value ==> ds[j].id != id
    ensures r.None? ==> forall j :: 0 <= j < |ds| ==> ds[j].id != id
  {
    if ds == [] then None
    else
      var r := DepositAt(ds[..|ds| - 1], id);
      if r.Some? then r
      else if ds[|ds| - 1].id == id then Some(|ds| - 1) else None
  }

  /** Which deposits a total counts. */
  datatype Select = Confirmed | Attributed | Evidenced | AttributedEvidenced | Pooled

  function Weight(d: Deposit, safe: string, sel: Select): int {
    if d.safe != safe then 0
    else match sel
      case Confirmed => if d.confirmed then d.units else 0
      case Attributed => if d.ref.Some? then d.units else 0
      case Evidenced => if d.evidence.Some? then d.units else 0
      case AttributedEvidenced => if d.ref.Some? && d.evidence.Some? then d.units else 0
      case Pooled => if IsPool(d, safe) then d.units else 0
  }

  function Total(ds: seq<Deposit>, safe: string, sel: Select): int {
    if ds == [] then 0 else Total(ds[..|ds| - 1], safe, sel) + Weight(ds[|ds| - 1], safe, sel)
  }

  function SplitDeposit(ds: seq<Deposit>, i: nat, units: int, id: nat): seq<Deposit>
    requires i < |ds|
  {
    var pool := ds[i];
    ds[..i] + [Deposit(id, pool.txRef, pool.safe, units, true, None, pool.evidence)]
      + [pool.(units := pool.units - units)] + ds[i + 1..]
  }

  // -------------------------------------------------------------- operations

  function CreateUser(s: Sim, safe: string, c: Currency): Sim {
    s.(users := s.users + [User(safe, c, 0, 0, None)], safes := s.safes[safe := |s.users|])
  }

  function Credit(users: seq<User>, u: nat, units: int): seq<User>
    requires u < |users|
  {
    users[u := users[u].(spendable := users[u].spendable + units)]
  }

  function ReceiveDeposit(s: Sim, safe: string, amount: Money, confirmed: bool): (Sim, Reply)
    requires Shape(s)
  {
    if safe !in s.safes then (s, NoSuchSafe)
    else
      var u := s.safes[safe];
      if amount.currency != s.users[u].currency.code then (s, WrongCurrency)
      else
        var units := ToUnits(amount, s.users[u].currency);
        var d := Deposit(s.nextDeposit, Derived(s.nextDeposit), safe, units, confirmed, None, None);
        (s.(deposits := s.deposits + [d],
            nextDeposit := s.nextDeposit + 1,
            users := if confirmed then Credit(s.users, u, units) else s.users),
         Done)
  }

  function PoolUnits(ds: seq<Deposit>, safe: string): int {
    var p := PoolAt(ds, safe);
    if p.Some? then ds[p.value].units else 0
  }

  function PoolTarget(ds: seq<Deposit>, safe: string, onchain: int): int {
    var free := onchain - Total(ds, safe, Attributed);
    if free < 0 then 0 else free
  }

  function Reconcile(s: Sim, safe: string, onchain: int, evidence: string): (Sim, Reply)
    requires Shape(s)
  {
    if safe !in s.safes then (s, NoSuchSafe)
    else
      var target, held := PoolTarget(s.deposits, safe, onchain), PoolUnits(s.deposits, safe);
      if target == held then (s, Unchanged)
      else
        var (ds, next) := PoolSet(s.deposits, safe, target, evidence, s.nextDeposit);
        (s.(deposits := ds, nextDeposit := next, users := Credit(s.users, s.safes[safe], target - held)), Done)
  }

  /** Exactly one unattributed observed deposit per Safe: opened once, then resized. */
  function PoolSet(ds: seq<Deposit>, safe: string, target: int, evidence: string, next: nat): (seq<Deposit>, nat) {
    match PoolAt(ds, safe)
    case None => (ds + [Deposit(next, Observed(evidence), safe, target, true, None, Some(evidence))], next + 1)
    case Some(p) =>
      (ds[p := ds[p].(units := target, txRef := Observed(evidence), evidence := Some(evidence))], next)
  }

  function ConfirmDeposit(s: Sim, id: nat): (Sim, Reply)
    requires Shape(s)
  {
    match DepositAt(s.deposits, id)
    case None => (s, NoSuchObject)
    case Some(i) =>
      var d := s.deposits[i];
      if d.confirmed then (s, Done)
      else (s.(deposits := s.deposits[i := d.(confirmed := true)],
               users := Credit(s.users, s.safes[d.safe], d.units)), Done)
  }

  /** The deposits after a claim of `units`, which of them was claimed, and the next number. */
  function Claim(ds: seq<Deposit>, safe: string, units: int, next: nat): (r: Option<(seq<Deposit>, nat, nat)>)
    ensures r.Some? ==> r.value.1 < |r.value.0|
  {
    match ClaimAt(ds, safe, units)
    case None => None
    case Some(i) =>
      if ds[i].evidence.None? || ds[i].units == units then Some((ds, i, next))
      else Some((SplitDeposit(ds, i, units, next), i, next + 1))
  }

  function ConfirmFunding(s: Sim, cardId: string, amount: Money, ref: string): (Sim, Reply)
    requires Shape(s)
  {
    if cardId !in s.cards then (s, NoSuchCard)
    else if ref in s.fundings then
      var previous := s.fundings[ref];
      if previous.cardId != cardId || previous.amount != amount then (s, Rejected)
      else (s, Succeeded(previous))
    else
      var user := s.users[s.cards[cardId].user];
      if s.cards[cardId].state == Canceled || amount.currency != user.currency.code || amount.minor <= 0 then
        (s, Rejected)
      else
        var units := ToUnits(amount, user.currency);
        match Claim(s.deposits, user.safe, units, s.nextDeposit)
        case None => (s, Awaiting)
        case Some((ds, i, next)) =>
          var result := FundingRecord(cardId, amount, units, ds[i].txRef);
          (s.(deposits := ds[i := ds[i].(ref := Some(ref))],
              fundings := s.fundings[ref := result],
              nextDeposit := next),
           Succeeded(result))
  }

  function AuthorizationStatus(card: CardRecord, user: User, amount: Money, units: int): Status {
    if card.state != Active then Other
    else if user.dailyLimit.Some? && amount.minor > user.dailyLimit.value then ExceedsLimit
    else if user.spendable < units then InsufficientFunds
    else Approved
  }

  function Authorize(s: Sim, cardId: string, amount: Money): (Sim, Reply)
    requires Shape(s)
  {
    if cardId !in s.cards then (s, NoSuchCard)
    else
      var u := s.cards[cardId].user;
      var user := s.users[u];
      var units := ToUnits(amount, user.currency);
      var status := AuthorizationStatus(s.cards[cardId], user, amount, units);
      var approved := status == Approved;
      (s.(users := if approved
                   then s.users[u := user.(spendable := user.spendable - units, held := user.held + units)]
                   else s.users,
          txns := s.txns + [Txn(u, cardId, Payment, Some(status), units, approved, false)]),
       Done)
  }

  function Clear(s: Sim, t: nat): (Sim, Reply)
    requires Shape(s)
  {
    if t >= |s.txns| || !s.txns[t].pending then (s, NoSuchObject)
    else
      var txn := s.txns[t];
      var user := s.users[txn.user];
      (s.(users := s.users[txn.user := user.(held := user.held - txn.units)],
          txns := s.txns[t := txn.(pending := false, cleared := true)]), Done)
  }

  function RefundCard(s: Sim, cardId: string, amount: Money): (Sim, Reply)
    requires Shape(s)
  {
    if cardId !in s.cards then (s, NoSuchCard)
    else
      var u := s.cards[cardId].user;
      var units := ToUnits(amount, s.users[u].currency);
      (s.(users := Credit(s.users, u, units),
          txns := s.txns + [Txn(u, cardId, Refund, None, units, false, true)]), Done)
  }

  function Reverse(s: Sim, t: nat): (Sim, Reply)
    requires Shape(s)
  {
    if t >= |s.txns| || !s.txns[t].pending then (s, NoSuchObject)
    else
      var txn := s.txns[t];
      var user := s.users[txn.user];
      (s.(users := s.users[txn.user := user.(held := user.held - txn.units, spendable := user.spendable + txn.units)],
          txns := s.txns[t := txn.(pending := false)]
                  + [Txn(txn.user, txn.card, Reversal, None, txn.units, false, true)]), Done)
  }

  // --------------------------------------------------------------- invariants

  /** Every reference between the provider's tables resolves. */
  ghost predicate Shape(s: Sim) {
    && (forall a :: a in s.safes ==> s.safes[a] < |s.users| && s.users[s.safes[a]].safe == a)
    && (forall c :: c in s.cards ==> s.cards[c].user < |s.users|)
    && (forall i :: 0 <= i < |s.deposits| ==> s.deposits[i].safe in s.safes)
    && (forall t :: 0 <= t < |s.txns| ==> s.txns[t].user < |s.users|)
  }
}
