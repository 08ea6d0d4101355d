/** What the engine is for: with nothing in the way, a confirmed deposit ends on the card. */
module Healthy {
  import opened Basics
  import opened FundingStates
  import opened Ledger
  import opened Machine
  import opened Engine
  import B = Bridge
  import S = Safe
  import Laws = SafeLaws
  import W = Workers
  import C = Crediting
  import Driver = TopUpEngine

  /** The Safe the intent's card spends from. */
  function HomeOf(sys: System, id: IntentId): string
    requires S.Shape(sys.out.sim) && id in sys.db.intents && sys.db.intents[id].card.cardId in sys.out.sim.cards
  {
    sys.out.sim.users[sys.out.sim.cards[sys.db.intents[id].card.cardId].user].safe
  }

  /** The bridge and the provider are well, the card can be funded in the deposit's currency, and
      the deposit is more than the fee. */
  ghost predicate Well(sys: System, id: IntentId) {
    && S.Shape(sys.out.sim) && KeysPast(sys.db) && B.Filed(sys.out.bridge) && sys.out.bridge.mode == B.Healthy
    && id in sys.db.intents && id !in sys.out.sim.fundings
    && var i := sys.db.intents[id];
       && i.card.providerId == PROVIDER && i.card.cardId in sys.out.sim.cards
       && HomeOf(sys, id) != "" && i.amount.minor > sys.out.bridge.fee
       && var card := sys.out.sim.cards[i.card.cardId];
          card.state != S.Canceled && sys.out.sim.users[card.user].currency.code == i.amount.currency
  }

  /** What will arrive, in the units of the card's Safe. */
  function Due(sys: System, id: IntentId): int
    requires Well(sys, id)
  {
    var i := sys.db.intents[id];
    (i.amount.minor - sys.out.bridge.fee)
    * S.Scale(sys.out.sim.users[sys.out.sim.cards[i.card.cardId].user].currency)
  }

  lemma SubmitsWell(sys: System, policy: Policy, id: IntentId, now: int)
    requires Well(sys, id) && sys.db.intents[id].state == DepositConfirmed && id !in sys.out.bridge.accepted
    ensures
      var (after, r) := Step(sys, policy, id, now, Fine);
      && r == Stepped(DepositConfirmed, Bridging) && Well(after, id) && after.out.sim == sys.out.sim
      && after.db.intents[id] == sys.db.intents[id].(state := Bridging, changedAt := now,
                                                      bridgeRef := Some(B.RefFor(id)))
      && id in after.out.bridge.accepted && after.out.bridge.accepted[id].submittedAt == now
      && after.out.bridge.accepted[id].order.amount == sys.db.intents[id].amount
      && (after.out.bridge.fee, after.out.bridge.latency) == (sys.out.bridge.fee, sys.out.bridge.latency)
  {
    var i := sys.db.intents[id];
    var order := OrderFor(policy, id, i, HomeOf(sys, id));
    B.SubmitIsExact(sys.out.bridge, order, now);
    HopAhead(sys.db, id, Bridging);
    var req := Request(id, Bridging, None, NO_UPDATES.(bridgeRef := Some(B.RefFor(id))), Some(HopKey(id, Bridging)));
    HopKeepsKeysPast(sys.db, req, now);
  }

  lemma PollsWell(sys: System, policy: Policy, id: IntentId, now: int)
    requires Well(sys, id) && sys.db.intents[id].state == Bridging && id in sys.out.bridge.accepted
    requires sys.db.intents[id].bridgeRef == Some(B.RefFor(id))
    requires sys.out.bridge.accepted[id].order.amount == sys.db.intents[id].amount
    requires now - sys.out.bridge.accepted[id].submittedAt >= sys.out.bridge.latency
    ensures
      var (after, r) := Step(sys, policy, id, now, Fine);
      && r == Stepped(Bridging, Bridged) && Well(after, id) && after.out == sys.out
      && after.db.intents[id]
         == sys.db.intents[id].(state := Bridged, changedAt := now,
                                bridged := Some(sys.db.intents[id].amount.minor - sys.out.bridge.fee))
  {
    B.StatusIsExact(sys.out.bridge, id, now);
    HopAhead(sys.db, id, Bridged);
    var u := NO_UPDATES.(bridged := Some(sys.db.intents[id].amount.minor - sys.out.bridge.fee));
    HopKeepsKeysPast(sys.db, Request(id, Bridged, None, u, Some(HopKey(id, Bridged))), now);
  }

  lemma EntersWell(sys: System, id: IntentId, now: int)
    requires Well(sys, id) && sys.db.intents[id].state == Bridged
    ensures
      var (db, entered) := Advance(sys.db, Entering(id), now);
      && entered.Returned() && Well(sys.(db := db), id)
      && db.intents[id] == sys.db.intents[id].(state := Funding, changedAt := now) == entered.intent
  {
    HopAhead(sys.db, id, Funding);
    HopKeepsKeysPast(sys.db, Entering(id), now);
  }

  lemma FundsWell(sys: System, policy: Policy, id: IntentId, now: int)
    requires Well(sys, id) && sys.db.intents[id].state == Bridged
    requires sys.db.intents[id].bridged == Some(sys.db.intents[id].amount.minor - sys.out.bridge.fee)
    requires Laws.Coverable(sys.out.sim.deposits, HomeOf(sys, id), Due(sys, id))
    ensures
      var (after, r) := Step(sys, policy, id, now, Fine);
      && r == Stepped(Bridged, Funded) && id in after.db.intents && after.db.intents[id].state == Funded
      && id in after.out.sim.fundings && after.out.sim.fundings[id].cardId == sys.db.intents[id].card.cardId
      && after.out.sim.fundings[id].amount
         == Money(sys.db.intents[id].amount.minor - sys.out.bridge.fee, sys.db.intents[id].amount.currency)
  {
    EntersWell(sys, id, now);
    var (db, entered) := Advance(sys.db, Entering(id), now);
    Laws.FundingIsExact(sys.out.sim, entered.intent.card.cardId, entered.intent.FundableMoney(), id);
    HopAhead(db, id, Funded);
  }

  /** The intent is funded with its deposit less the fee. */
  predicate OnTheCard(last: System, id: IntentId, i: Intent, fee: nat) {
    && id in last.db.intents && last.db.intents[id].state == Funded
    && id in last.out.sim.fundings && last.out.sim.fundings[id].cardId == i.card.cardId
    && last.out.sim.fundings[id].amount == Money(i.amount.minor - fee, i.amount.currency)
  }

  lemma BridgingIsFunded(sys: System, policy: Policy, id: IntentId, poll: int, fund: int)
    requires Well(sys, id) && sys.db.intents[id].state == Bridging && id in sys.out.bridge.accepted
    requires sys.db.intents[id].bridgeRef == Some(B.RefFor(id))
    requires sys.out.bridge.accepted[id].order.amount == sys.db.intents[id].amount
    requires poll - sys.out.bridge.accepted[id].submittedAt >= sys.out.bridge.latency
    requires Laws.Coverable(sys.out.sim.deposits, HomeOf(sys, id), Due(sys, id))
    ensures
      var second := Step(sys, policy, id, poll, Fine).0;
      S.Shape(second.out.sim) &&
      var (last, r) := Step(second, policy, id, fund, Fine);
      r == Stepped(Bridged, Funded) && OnTheCard(last, id, sys.db.intents[id], sys.out.bridge.fee)
  {
    PollsWell(sys, policy, id, poll);
    FundsWell(Step(sys, policy, id, poll, Fine).0, policy, id, fund);
  }

  /** Three steps, the second no sooner than the bridge's latency after the first, and the card has
      the deposit less the fee. */
  lemma ConfirmedDepositIsFunded(sys: System, policy: Policy, id: IntentId, submit: int, poll: int, fund: int)
    requires Well(sys, id) && sys.db.intents[id].state == DepositConfirmed && id !in sys.out.bridge.accepted
    requires poll >= submit + sys.out.bridge.latency
    requires Laws.Coverable(sys.out.sim.deposits, HomeOf(sys, id), Due(sys, id))
    ensures
      var first := Step(sys, policy, id, submit, Fine).0;
      S.Shape(first.out.sim) &&
      var second := Step(first, policy, id, poll, Fine).0;
      S.Shape(second.out.sim) &&
      var (last, r) := Step(second, policy, id, fund, Fine);
      r == Stepped(Bridged, Funded) && OnTheCard(last, id, sys.db.intents[id], sys.out.bridge.fee)
  {
    SubmitsWell(sys, policy, id, submit);
    BridgingIsFunded(Step(sys, policy, id, submit, Fine).0, policy, id, poll, fund);
  }

  // ------------------------------------------------------ and it can be reached

  const USD := S.Denomination("USDCe", "USD", 6)
  const CARD := Card(PROVIDER, "c")

  function Deposit(fee: nat): Opening {
    Opening("i", CARD, Money(fee + 1, "USD"), Some("s"), Some(DepositKey("s")))
  }

  const CONFIRMING := Request("i", DepositConfirmed, None, NO_UPDATES, Some(ConfirmKey("s")))

  /** A customer with a card and a balance at the provider ... */
  function Customer(): seq<W.Step> {
    [W.Provider(Laws.NewUser("safe", USD))] + ([W.Provider(Laws.NewCard("c", 0))]
    + ([W.Provider(Laws.Receive("safe", Money(1, "USD"), true))] + []))
  }

  /** ... and a deposit confirmed for the card. */
  function Confirmed(fee: nat): seq<W.Step> {
    [W.OpenIntent(Deposit(fee), 0)] + ([W.Elsewhere(CONFIRMING, 0, false)] + [])
  }

  function Provided(): S.Sim {
    var named := S.CreateUser(S.NO_PROVIDER_STATE, "safe", USD);
    var carded := named.(cards := map["c" := S.CardRecord(0, S.Unactivated)]);
    S.ReceiveDeposit(carded, "safe", Money(1, "USD"), true).0
  }

  function Tables(fee: nat): Db {
    Apply(Create(EMPTY, Deposit(fee), 0).0, CONFIRMING, 0).0
  }

  lemma ProviderIsReady()
    ensures S.Shape(Provided()) && Provided().cards == map["c" := S.CardRecord(0, S.Unactivated)]
    ensures |Provided().users| == 1 && Provided().users[0].safe == "safe" && Provided().users[0].currency == USD
    ensures Provided().fundings == map[] && Laws.Coverable(Provided().deposits, "safe", S.Scale(USD))
  {
    assert Provided().deposits[0].units == 1 * S.Scale(USD);
  }

  lemma TablesAreReady(fee: nat)
    ensures KeysPast(Tables(fee)) && "i" in Tables(fee).intents
    ensures Tables(fee).intents["i"]
            == Intent(DepositConfirmed, CARD, Money(fee + 1, "USD"), None, Some("s"), None, None, 0, None, 0)
  {
    var created := Create(EMPTY, Deposit(fee), 0).0;
    AppendRow([], CreatedRow("i", CARD, Money(fee + 1, "USD"), Some("s"), 0, Some(DepositKey("s"))));
    assert KeysPast(created);
    HopKeepsKeysPast(created, CONFIRMING, 0);
    assert !Taken(created.ledger, ConfirmKey("s"));
  }

  function Ready(policy: Policy, bridge: B.BridgeState): System {
    System(Tables(bridge.fee), Outside(bridge.(accepted := map[]), Provided()))
  }

  lemma CustomerRuns(w: W.World)
    requires w.out.sim == S.NO_PROVIDER_STATE
    ensures C.Runs(w, Customer()) && C.Exec(w, Customer()) == w.(out := w.out.(sim := Provided()))
  {
    var user, card := W.Provider(Laws.NewUser("safe", USD)), W.Provider(Laws.NewCard("c", 0));
    var money := W.Provider(Laws.Receive("safe", Money(1, "USD"), true));
    var w1 := W.Do(w, user);
    var w2 := W.Do(w1, card);
    assert w2.out.sim.cards == map["c" := S.CardRecord(0, S.Unactivated)];
    assert W.Do(w2, money) == w.(out := w.out.(sim := Provided()));
    C.Prepend(w2, money, []);
    C.Prepend(w1, card, [money] + []);
    C.Prepend(w, user, [card] + ([money] + []));
  }

  lemma ConfirmedRuns(w: W.World, fee: nat)
    requires S.Shape(w.out.sim) && w.db == EMPTY && w.out.bridge.accepted == map[] && w.out.sim.fundings == map[]
    ensures C.Runs(w, Confirmed(fee)) && C.Exec(w, Confirmed(fee)) == w.(db := Tables(fee))
  {
    var open, confirm := W.OpenIntent(Deposit(fee), 0), W.Elsewhere(CONFIRMING, 0, false);
    AppendRow([], CreatedRow("i", CARD, Money(fee + 1, "USD"), Some("s"), 0, Some(DepositKey("s"))));
    var w1 := W.Do(w, open);
    assert W.Outsider(w1.db, CONFIRMING);
    C.Prepend(w1, confirm, []);
    C.Prepend(w, open, [confirm] + []);
  }

  /** The setup leads there. */
  lemma SetupRuns(policy: Policy, bridge: B.BridgeState)
    ensures var w := C.Start(policy, bridge, 1);
            && C.Runs(w, Customer() + Confirmed(bridge.fee))
            && C.Exec(w, Customer() + Confirmed(bridge.fee)) == Driver.Lone(policy, Ready(policy, bridge), W.Idle)
  {
    var w := C.Start(policy, bridge, 1);
    ProviderIsReady();
    CustomerRuns(w);
    ConfirmedRuns(C.Exec(w, Customer()), bridge.fee);
    C.Join(w, Customer(), Confirmed(bridge.fee));
    assert w.pcs == [W.Idle];
  }

  lemma ReadyIsWell(policy: Policy, bridge: B.BridgeState)
    requires bridge.mode == B.Healthy
    ensures var sys := Ready(policy, bridge);
            && Well(sys, "i") && sys.db.intents["i"].state == DepositConfirmed && sys.out.bridge.accepted == map[]
            && sys.out.bridge.latency == bridge.latency
            && Laws.Coverable(sys.out.sim.deposits, HomeOf(sys, "i"), Due(sys, "i"))
  {
    ProviderIsReady();
    TablesAreReady(bridge.fee);
  }

  /** From nothing, for every policy and every healthy bridge, workers that take their steps one
      after the other can bring a deposit to the card. */
  lemma SomeRunFunds(policy: Policy, bridge: B.BridgeState) returns (steps: seq<W.Step>)
    requires bridge.mode == B.Healthy
    ensures C.Runs(C.Start(policy, bridge, 1), steps)
    ensures var v := C.Exec(C.Start(policy, bridge, 1), steps);
            && "i" in v.db.intents && v.db.intents["i"].state == Funded
            && "i" in v.out.sim.fundings && v.out.sim.fundings["i"].cardId == "c"
            && v.out.sim.fundings["i"].amount == Money(1, "USD")
  {
    var sys, w := Ready(policy, bridge), C.Start(policy, bridge, 1);
    ReadyIsWell(policy, bridge);
    SetupRuns(policy, bridge);
    ConfirmedDepositIsFunded(sys, policy, "i", 0, bridge.latency, bridge.latency);
    var first := Step(sys, policy, "i", 0, Fine).0;
    var second := Step(first, policy, "i", bridge.latency, Fine).0;
    var last := Step(second, policy, "i", bridge.latency, Fine).0;
    var submit := Driver.Script(sys, policy, "i", 0, Fine);
    var poll := Driver.Script(first, policy, "i", bridge.latency, Fine);
    var fund := Driver.Script(second, policy, "i", bridge.latency, Fine);
    Driver.StepIsARun(policy, sys, "i", 0, Fine);
    Driver.StepIsARun(policy, first, "i", bridge.latency, Fine);
    Driver.StepIsARun(policy, second, "i", bridge.latency, Fine);
    C.Join(Driver.Lone(policy, first, W.Idle), poll, fund);
    C.Join(Driver.Lone(policy, sys, W.Idle), submit, poll + fund);
    C.Join(w, Customer() + Confirmed(bridge.fee), submit + (poll + fund));
    steps := Customer() + Confirmed(bridge.fee) + (submit + (poll + fund));
  }
}
