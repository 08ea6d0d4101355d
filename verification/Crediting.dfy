/** What every run of concurrent, crashing workers guarantees: one order and one credit per
    intent on its own terms, money conserved net of the fee, and a bounded number of retries. */
module Crediting {
  import opened Basics
  import opened FundingStates
  import opened Ledger
  import opened Machine
  import opened Engine
  import opened Workers
  import B = Bridge
  import S = Safe
  import Laws = SafeLaws

  ghost predicate Runs(w: World, steps: seq<Step>)
    decreases |steps|
  {
    steps == [] ||
    (S.Shape(w.out.sim) && Can(w, steps[0]) && Runs(Do(w, steps[0]), steps[1..]))
  }

  ghost function Exec(w: World, steps: seq<Step>): World
    requires Runs(w, steps)
    decreases |steps|
  {
    if steps == [] then w else Exec(Do(w, steps[0]), steps[1..])
  }

  /** A step and the run after it are a run. */
  lemma Starts(w: World, all: seq<Step>, rest: seq<Step>)
    requires all != [] && all[1..] == rest && S.Shape(w.out.sim) && Can(w, all[0]) && Runs(Do(w, all[0]), rest)
    ensures Runs(w, all) && Exec(w, all) == Exec(Do(w, all[0]), rest)
  {}

  lemma Prepend(w: World, s: Step, rest: seq<Step>)
    requires S.Shape(w.out.sim) && Can(w, s) && Runs(Do(w, s), rest)
    ensures Runs(w, [s] + rest) && Exec(w, [s] + rest) == Exec(Do(w, s), rest)
  {
    Starts(w, [s] + rest, rest);
  }

  /** A run that is not empty is its first step and the run after it. */
  lemma FirstStep(w: World, steps: seq<Step>)
    requires steps != [] && Runs(w, steps)
    ensures S.Shape(w.out.sim) && Can(w, steps[0])
    ensures Runs(Do(w, steps[0]), steps[1..]) && Exec(w, steps) == Exec(Do(w, steps[0]), steps[1..])
  {}

  lemma {:induction false} Join(w: World, first: seq<Step>, second: seq<Step>)
    requires Runs(w, first) && Runs(Exec(w, first), second)
    ensures Runs(w, first + second) && Exec(w, first + second) == Exec(Exec(w, first), second)
    decreases |first|
  {
    if first == [] {
      assert first + second == second;
    } else {
      FirstStep(w, first);
      FrontOfBoth(first, second);
      var s, rest, all := first[0], first[1..], first + second;
      Join(Do(w, s), rest, second);
      Starts(w, all, rest + second);
    }
  }

  lemma Extend(w: World, steps: seq<Step>, s: Step)
    requires Runs(w, steps) && S.Shape(Exec(w, steps).out.sim) && Can(Exec(w, steps), s)
    ensures Runs(w, steps + [s]) && Exec(w, steps + [s]) == Do(Exec(w, steps), s)
  {
    assert [s][1..] == [];
    Join(w, steps, [s]);
  }

  /** Intake's notes go to the same ledger. */
  lemma NotesAreKept(w: World, key: Key)
    requires S.Shape(w.out.sim) && Can(w, Annotate(key))
    ensures Taken(Do(w, Annotate(key)).db.ledger, key)
  {
    NoteIsTaken(w.db, key);
  }

  lemma NoteIsTaken(db: Db, key: Key)
    ensures Taken(Note(db, key).ledger, key)
  {
    AppendRow(db.ledger, NoteRow(Some(key)));
  }

  /** No intents yet; a bridge that has taken nothing; `workers` idle workers. */
  function Start(policy: Policy, bridge: B.BridgeState, workers: nat): World {
    World(policy, EMPTY, Outside(bridge.(accepted := map[]), S.NO_PROVIDER_STATE), seq(workers, _ => Idle))
  }

  /** The engine's invariant, a sound ledger, and balanced books at the provider. */
  ghost predicate Safe(w: World) {
    Inv(w) && Sound(w.db) && Laws.Good(w.out.sim)
  }

  lemma StartIsSafe(policy: Policy, bridge: B.BridgeState, workers: nat)
    ensures Safe(Start(policy, bridge, workers))
  {}

  lemma RequestKeepsDeposit(w: World, p: nat)
    requires Inv(w) && p < |w.pcs| && w.pcs[p].Deciding?
    ensures KeepsDeposit(w.pcs[p].req)
  {
    assert PcOk(w, w.pcs[p]);
  }

  lemma StepKeepsSound(w: World, s: Step)
    requires Inv(w) && Sound(w.db) && Can(w, s)
    ensures Sound(Do(w, s).db)
  {
    match s
    case Enter(p, now, hit) => ApplyKeepsSound(w.db, Entering(w.pcs[p].id), now);
    case Move(p, now, hit) =>
      RequestKeepsDeposit(w, p);
      ApplyKeepsSound(w.db, w.pcs[p].req, now);
    case OpenIntent(o, at) => CreateKeepsSound(w.db, o, at);
    case Elsewhere(req, at, _) => ApplyKeepsSound(w.db, req, at);
    case Annotate(key) => NoteKeepsSound(w.db, key);
    case _ => assert Do(w, s).db == w.db;
  }

  lemma StepKeepsBooks(w: World, s: Step)
    requires Laws.Good(w.out.sim) && Can(w, s)
    ensures Laws.Good(Do(w, s).out.sim)
  {
    if s.FundCard? {
      Laws.FundLawful(w.out.sim, w.pcs[s.p].snap.card.cardId, w.pcs[s.p].snap.FundableMoney(), w.pcs[s.p].id);
    } else if s.Provider? {
      Laws.GoodKept(w.out.sim, s.op);
    } else {
      assert Do(w, s).out.sim == w.out.sim;
    }
  }

  lemma StepKeepsSafe(w: World, s: Step)
    requires Safe(w) && Can(w, s)
    ensures Safe(Do(w, s))
  {
    StepKeepsInv(w, s);
    StepKeepsSound(w, s);
    StepKeepsBooks(w, s);
  }

  lemma {:induction false} RunKeepsSafe(w: World, steps: seq<Step>)
    requires Safe(w) && Runs(w, steps)
    ensures Safe(Exec(w, steps))
    decreases |steps|
  {
    if steps != [] {
      StepKeepsSafe(w, steps[0]);
      RunKeepsSafe(Do(w, steps[0]), steps[1..]);
    }
  }

  // ------------------------------------------------- one order, one funding

  /** The order a worker about to submit would place is the one already taken, if one was. */
  lemma OneOrderPerIntent(w: World, steps: seq<Step>, p: nat)
    requires Safe(w) && Runs(w, steps)
    requires var v := Exec(w, steps); p < |v.pcs| && v.pcs[p].Seen? && v.pcs[p].id in v.out.bridge.accepted
    ensures var v := Exec(w, steps); var (id, snap) := (v.pcs[p].id, v.pcs[p].snap);
            && S.Shape(v.out.sim) && AddressOf(v.out.sim, snap.card.cardId).Some?
            && v.out.bridge.accepted[id].order
               == OrderFor(v.policy, id, snap, AddressOf(v.out.sim, snap.card.cardId).value)
               == B.Order(id, snap.amount, v.policy.source, v.policy.destination,
                          v.out.sim.users[v.out.sim.cards[snap.card.cardId].user].safe)
  {
    RunKeepsSafe(w, steps);
    var v := Exec(w, steps);
    assert PcOk(v, v.pcs[p]) && OrderMatches(v, v.pcs[p].id);
  }

  /** In every run an accepted order carries its intent's own amount, from the policy's source to
      its destination, to the Safe of the user whose card it is. */
  lemma OrdersAreTheIntents(w: World, steps: seq<Step>, id: IntentId)
    requires Safe(w) && Runs(w, steps) && id in Exec(w, steps).out.bridge.accepted
    ensures var v := Exec(w, steps); var order := v.out.bridge.accepted[id].order;
            && id in v.db.intents && order.ref == id && order.amount == v.db.intents[id].amount
            && order.source == v.policy.source && order.destination == v.policy.destination
            && var sim, cardId := v.out.sim, v.db.intents[id].card.cardId;
               && cardId in sim.cards && sim.cards[cardId].user < |sim.users|
               && order.address == sim.users[sim.cards[cardId].user].safe != ""
  {
    RunKeepsSafe(w, steps);
    assert OrderMatches(Exec(w, steps), id);
  }

  lemma FundingDecides(v: World, p: nat)
    requires Safe(v) && p < |v.pcs| && AboutToFund(v.pcs[p]) && v.pcs[p].id in v.out.sim.fundings
    ensures var (id, snap) := (v.pcs[p].id, v.pcs[p].snap);
            && v.out.sim.fundings[id].cardId == snap.card.cardId
            && v.out.sim.fundings[id].amount == snap.FundableMoney()
            && (snap.card.cardId in v.out.sim.cards ==>
                  S.ConfirmFunding(v.out.sim, snap.card.cardId, snap.FundableMoney(), id)
                  == (v.out.sim, S.Succeeded(v.out.sim.fundings[id])))
  {
    assert PcOk(v, v.pcs[p]) && FundingMatches(v, v.pcs[p].id);
    var snap := v.pcs[p].snap;
    if snap.card.cardId in v.out.sim.cards {
      Laws.StoredFundingDecides(v.out.sim, snap.card.cardId, snap.FundableMoney(), v.pcs[p].id);
    }
  }

  /** A worker about to fund asks for the card and amount already funded, if one was; so a
      second call answers the first result and moves nothing. */
  lemma OneFundingPerIntent(w: World, steps: seq<Step>, p: nat)
    requires Safe(w) && Runs(w, steps)
    requires var v := Exec(w, steps); p < |v.pcs| && AboutToFund(v.pcs[p]) && v.pcs[p].id in v.out.sim.fundings
    ensures var v := Exec(w, steps); var (id, snap) := (v.pcs[p].id, v.pcs[p].snap);
            && S.Shape(v.out.sim)
            && v.out.sim.fundings[id].cardId == snap.card.cardId
            && v.out.sim.fundings[id].amount == snap.FundableMoney()
            && (snap.card.cardId in v.out.sim.cards ==>
                  S.ConfirmFunding(v.out.sim, snap.card.cardId, snap.FundableMoney(), id)
                  == (v.out.sim, S.Succeeded(v.out.sim.fundings[id])))
  {
    RunKeepsSafe(w, steps);
    FundingDecides(Exec(w, steps), p);
  }

  /** An accepted order and a stored funding are never replaced. */
  lemma {:induction false} NothingIsReplaced(w: World, steps: seq<Step>)
    requires Safe(w) && Runs(w, steps)
    ensures var v := Exec(w, steps);
            && (forall r :: r in w.out.bridge.accepted ==>
                  r in v.out.bridge.accepted && v.out.bridge.accepted[r] == w.out.bridge.accepted[r])
            && (forall r :: r in w.out.sim.fundings ==>
                  r in v.out.sim.fundings && v.out.sim.fundings[r] == w.out.sim.fundings[r])
    decreases |steps|
  {
    if steps != [] {
      StepKeepsSafe(w, steps[0]);
      StepReplacesNothing(w, steps[0]);
      NothingIsReplaced(Do(w, steps[0]), steps[1..]);
    }
  }

  lemma StepReplacesNothing(w: World, s: Step)
    requires Inv(w) && Can(w, s)
    ensures OutsideGrows(w.out, Do(w, s).out)
  {
    if s.SubmitOrder? {
      SubmittedOnItsOwnTerms(w.out, w.policy, w.pcs[s.p].id, w.pcs[s.p].snap, s.now, s.fault);
    } else if s.FundCard? {
      CallFundOnItsOwnTerms(w.out, w.pcs[s.p].id, w.pcs[s.p].snap, s.fault);
    } else if s.Provider? {
      ProviderGrows(w.out.sim, s.op);
    } else {
      assert Do(w, s).out == w.out;
    }
  }

  // ------------------------------------------------------- money conserved

  /** A funded intent's card was credited once, from one deposit, with exactly the deposit
      less the bridge's fee, which left something. */
  lemma FundedNetOfFee(w: World, steps: seq<Step>, id: IntentId)
    requires Safe(w) && Runs(w, steps)
    requires var v := Exec(w, steps); id in v.db.intents && Paid(v.db.intents[id].state)
    ensures var v := Exec(w, steps); PaidInFull(v, id) && id in Laws.RefsOf(v.out.sim.deposits)
  {
    RunKeepsSafe(w, steps);
    PaidMeansFunded(Exec(w, steps), id);
    Laws.FundingsMatchDeposits(Exec(w, steps).out.sim);
  }

  predicate PaidInFull(w: World, id: IntentId)
    requires id in w.db.intents
  {
    var i := w.db.intents[id];
    && id in w.out.sim.fundings
    && 0 < w.out.sim.fundings[id].amount.minor == i.amount.minor - w.out.bridge.fee
    && i.bridged == Some(w.out.sim.fundings[id].amount.minor)
    && w.out.sim.fundings[id].cardId == i.card.cardId
    && w.out.sim.fundings[id].amount.currency == i.amount.currency
  }

  lemma PaidMeansFunded(w: World, id: IntentId)
    requires TablesOk(w) && id in w.db.intents && Paid(w.db.intents[id].state)
    ensures PaidInFull(w, id)
  {
    assert IntentOk(w, id) && FundingMatches(w, id);
  }

  /** Intents the provider has funded, and intents opened for a deposit. */
  function FundedIntents(w: World): set<IntentId> {
    set id | id in w.db.intents && id in w.out.sim.fundings
  }

  function DepositedIntents(w: World): set<IntentId> {
    set id | id in w.db.intents && w.db.intents[id].depositRef.Some?
  }

  /** In every run, what cards were credited plus the bridge's fee for each of them never exceeds
      what was deposited. */
  lemma MoneyConserved(w: World, steps: seq<Step>)
    requires Safe(w) && Runs(w, steps)
    ensures var v := Exec(w, steps);
            Sum(FundedIntents(v), id => if id in v.out.sim.fundings
                                        then v.out.sim.fundings[id].amount.minor + v.out.bridge.fee else 0)
            <= Sum(DepositedIntents(v), id => if id in v.db.intents then v.db.intents[id].amount.minor else 0)
  {
    RunKeepsSafe(w, steps);
    CreditedWithinDeposited(Exec(w, steps));
  }

  lemma CreditedWithinDeposited(v: World)
    requires Safe(v)
    ensures Sum(FundedIntents(v), id => if id in v.out.sim.fundings
                                        then v.out.sim.fundings[id].amount.minor + v.out.bridge.fee else 0)
            <= Sum(DepositedIntents(v), id => if id in v.db.intents then v.db.intents[id].amount.minor else 0)
  {
    var took := (id: IntentId) => if id in v.out.sim.fundings
                                  then v.out.sim.fundings[id].amount.minor + v.out.bridge.fee else 0;
    var gave := (id: IntentId) => if id in v.db.intents then v.db.intents[id].amount.minor else 0;
    forall id | id in FundedIntents(v) ensures took(id) == gave(id) && id in DepositedIntents(v) {
      assert IntentOk(v, id) && FundingMatches(v, id);
    }
    SumAgrees(FundedIntents(v), took, gave);
    SumGrows(FundedIntents(v), DepositedIntents(v), gave);
  }
}
