/** Intake and engine together, over one set of tables: from the base units that arrived on the
    chain to the money on the card. */
module Pipeline {
  import opened Basics
  import opened FundingStates
  import opened Ledger
  import opened Machine
  import Watcher
  import I = Intake
  import IL = IntakeLaws
  import W = Workers
  import C = Crediting
  import E = Engine
  import B = Bridge
  import S = Safe
  import Laws = SafeLaws

  /** Both halves see the same tables. */
  datatype World = World(intake: I.World, engine: W.World)

  datatype Step = Intake(i: I.Step) | Engine(e: W.Step)

  predicate Fresh(w: World, id: IntentId) {
    id !in w.engine.out.bridge.accepted && id !in w.engine.out.sim.fundings
  }

  /** Intake does its own steps; the engine's side does its own, the provider's and settlement's. */
  predicate Can(w: World, s: Step) {
    match s
    case Intake(i) =>
      && I.Can(w.intake, i) && !i.Elsewhere?
      && (i.RecordDeposit? ==> Fresh(w, i.newId)) && (i.OpenUnpaid? ==> Fresh(w, i.o.id))
    case Engine(e) =>
      && W.Can(w.engine, e) && !e.OpenIntent?
      && (e.Elsewhere? ==> e.req.to == Settled) && (e.Annotate? ==> e.key.OtherKey?)
  }

  function Do(w: World, s: Step): World
    requires w.intake.unit > 0 && S.Shape(w.engine.out.sim) && Can(w, s)
  {
    match s
    case Intake(i) =>
      var after := I.Do(w.intake, i);
      World(after, w.engine.(db := after.db))
    case Engine(e) =>
      var after := W.Do(w.engine, e);
      World(w.intake.(db := after.db), after)
  }

  ghost predicate Inv(w: World) {
    I.Base(w.intake) && C.Safe(w.engine) && w.intake.db == w.engine.db
  }

  // ----------------------------------------------- each half's steps suit the other

  lemma OpeningSuitsEngine(w: W.World, o: Opening, at: int)
    requires C.Safe(w) && W.Can(w, W.OpenIntent(o, at))
    ensures C.Safe(w.(db := Create(w.db, o, at).0))
  {
    C.StepKeepsSafe(w, W.OpenIntent(o, at));
  }

  lemma NoteSuitsEngine(w: W.World, key: Key)
    requires C.Safe(w) && !key.HopKey? && !key.ConfirmKey?
    ensures C.Safe(w.(db := Note(w.db, key)))
  {
    C.StepKeepsSafe(w, W.Annotate(key));
  }

  lemma ConfirmSuitsEngine(w: W.World, id: IntentId, sig: Signature, now: int, hit: bool)
    requires C.Safe(w) && id in w.db.intents && w.db.intents[id].depositRef == Some(sig)
    requires MayHit(w.db, I.ConfirmRequest(id, sig), hit)
    ensures C.Safe(w.(db := Hop(w.db, I.ConfirmRequest(id, sig), now, hit).0))
  {
    C.StepKeepsSafe(w, W.Elsewhere(I.ConfirmRequest(id, sig), now, hit));
  }

  lemma FilingSuitsEngine(
    w: W.World, route: Option<Card>, currency: string, d: Watcher.Deposit, newId: IntentId, now: int)
    requires C.Safe(w) && newId !in w.db.intents && newId !in w.out.bridge.accepted && newId !in w.out.sim.fundings
    ensures C.Safe(w.(db := I.File(w.db, route, currency, d, newId, now).0))
  {
    if route.None? {
      NoteSuitsEngine(w, UnroutableKey(d.sig));
    } else {
      var o := I.OpeningFor(route.value, currency, d, newId);
      OpeningSuitsEngine(w, o, now);
      if Create(w.db, o, now).1.DepositTaken? {
        NoteSuitsEngine(w, DuplicateKey(d.sig));
      }
    }
  }

  lemma IntakeStepSuitsEngine(w: World, i: I.Step)
    requires Inv(w) && Can(w, Intake(i))
    ensures C.Safe(w.engine.(db := I.Do(w.intake, i).db))
  {
    var e := w.engine;
    if i.NoteIgnored? {
      NoteSuitsEngine(e, IgnoredKey(w.intake.pcs[i.p].page.ignored[0].sig));
    } else if i.RecordDeposit? {
      var pc := w.intake.pcs[i.p];
      FilingSuitsEngine(e, I.RouteOf(w.intake, pc.addr), w.intake.currency, pc.page.deposits[0], i.newId, i.now);
    } else if i.Confirm? {
      assert I.PcFrom(w.intake, w.intake.pcs[i.p]);
      ConfirmSuitsEngine(e, w.intake.pcs[i.p].id, w.intake.pcs[i.p].sig, i.now, i.hit);
    } else if i.Reconfirm? {
      ConfirmSuitsEngine(e, i.id, e.db.intents[i.id].depositRef.value, i.now, i.hit);
    } else if i.OpenUnpaid? {
      OpeningSuitsEngine(e, i.o, i.now);
    } else {
      assert I.Do(w.intake, i).db == e.db;
    }
  }

  lemma HopSuitsIntake(w: I.World, req: Request, now: int, hit: bool)
    requires I.Base(w) && I.BeyondIntake(w.db, req) && MayHit(w.db, req, hit)
    ensures I.Base(w.(db := Hop(w.db, req, now, hit).0))
  {
    IL.HopKeeps(w, req, now, hit);
  }

  /** No hop of the engine or of settlement takes an intent out of Pending. */
  lemma EngineIsBeyondIntake(w: W.World, req: Request)
    requires W.HopOk(w, req) && (W.RequestOk(w, req) || req.to == Settled)
    ensures I.BeyondIntake(w.db, req)
  {}

  lemma EngineStepSuitsIntake(w: World, e: W.Step)
    requires Inv(w) && Can(w, Engine(e))
    ensures I.Base(w.intake.(db := W.Do(w.engine, e).db))
  {
    if e.Enter? {
      assert W.PcOk(w.engine, w.engine.pcs[e.p]);
      EngineIsBeyondIntake(w.engine, E.Entering(w.engine.pcs[e.p].id));
      HopSuitsIntake(w.intake, E.Entering(w.engine.pcs[e.p].id), e.now, e.hit);
    } else if e.Move? {
      assert W.PcOk(w.engine, w.engine.pcs[e.p]);
      EngineIsBeyondIntake(w.engine, w.engine.pcs[e.p].req);
      HopSuitsIntake(w.intake, w.engine.pcs[e.p].req, e.now, e.hit);
    } else if e.Elsewhere? {
      EngineIsBeyondIntake(w.engine, e.req);
      HopSuitsIntake(w.intake, e.req, e.at, e.hit);
    } else if e.Annotate? {
      I.NoteKeepsTables(w.intake.db, e.key);
      IL.OutsideKeeps(w.intake, w.intake.(db := Note(w.intake.db, e.key)));
    } else {
      OutsideLeavesTables(w.engine, e);
    }
  }

  lemma OutsideLeavesTables(w: W.World, e: W.Step)
    requires S.Shape(w.out.sim) && W.Can(w, e)
    requires !e.Enter? && !e.Move? && !e.Elsewhere? && !e.Annotate? && !e.OpenIntent?
    ensures W.Do(w, e).db == w.db
  {}

  lemma StepKeepsInv(w: World, s: Step)
    requires Inv(w) && Can(w, s)
    ensures Inv(Do(w, s))
  {
    match s
    case Intake(i) =>
      IL.StepKeeps(w.intake, i);
      IntakeStepSuitsEngine(w, i);
    case Engine(e) =>
      C.StepKeepsSafe(w.engine, e);
      EngineStepSuitsIntake(w, e);
  }

  // -------------------------------------------------------------------- runs

  ghost predicate Runs(w: World, steps: seq<Step>)
    decreases |steps|
  {
    steps == [] ||
    (w.intake.unit > 0 && S.Shape(w.engine.out.sim) && Can(w, steps[0]) && Runs(Do(w, steps[0]), steps[1..]))
  }

  ghost function Exec(w: World, steps: seq<Step>): World
    requires Runs(w, steps)
    decreases |steps|
  {
    if steps == [] then w else Exec(Do(w, steps[0]), steps[1..])
  }

  lemma {:induction false} RunKeepsInv(w: World, steps: seq<Step>)
    requires Inv(w) && Runs(w, steps)
    ensures Inv(Exec(w, steps))
    decreases |steps|
  {
    if steps != [] {
      StepKeepsInv(w, steps[0]);
      RunKeepsInv(Do(w, steps[0]), steps[1..]);
    }
  }

  function Start(
    unit: nat, limit: nat, currency: string, watchers: nat, policy: E.Policy, bridge: B.BridgeState, workers: nat)
    : World
  {
    World(IL.Start(unit, limit, currency, watchers), C.Start(policy, bridge, workers))
  }

  lemma StartIsOk(
    unit: nat, limit: nat, currency: string, watchers: nat, policy: E.Policy, bridge: B.BridgeState, workers: nat)
    requires unit > 0
    ensures Inv(Start(unit, limit, currency, watchers, policy, bridge, workers))
  {
    IL.StartIsWhole(unit, limit, currency, watchers);
    C.StartIsSafe(policy, bridge, workers);
  }

  /** Nothing has happened yet: no chain entry, route, row, order or provider state. */
  ghost predicate Begins(w: World) {
    w.intake.unit > 0
    && w == Start(w.intake.unit, w.intake.limit, w.intake.currency, |w.intake.pcs|,
                  w.engine.policy, w.engine.out.bridge, |w.engine.pcs|)
  }

  lemma EveryRunIsOk(w: World, steps: seq<Step>)
    requires Begins(w) && Runs(w, steps)
    ensures Inv(Exec(w, steps))
  {
    StartIsOk(w.intake.unit, w.intake.limit, w.intake.currency, |w.intake.pcs|,
              w.engine.policy, w.engine.out.bridge, |w.engine.pcs|);
    RunKeepsInv(w, steps);
  }

  // ---------------------------------------------------------- end to end

  /** The whole way of one deposit's money: what arrived at a routed address splits exactly into
      minor units and dust; the bridge takes its fee; the rest, which is something, is what the
      address's card was funded with. */
  predicate Followed(w: World, id: IntentId, addr: I.Address, j: nat)
    requires w.intake.unit > 0
  {
    && id in w.engine.db.intents && id in w.engine.out.sim.fundings
    && addr in w.intake.logs && j < |w.intake.logs[addr]| && addr in w.intake.routes
    && var i, f, e := w.engine.db.intents[id], w.engine.out.sim.fundings[id], w.intake.logs[addr][j];
       && Watcher.IsDeposit(e, w.intake.unit) && i.depositRef == Some(e.sig)
       && 0 <= Watcher.NetIn(e) - i.amount.minor * w.intake.unit < w.intake.unit
       && i.bridged == Some(i.amount.minor - w.engine.out.bridge.fee) && i.bridged.value > 0
       && f.amount == Money(i.bridged.value, w.intake.currency)
       && f.cardId == w.intake.routes[addr].cardId && i.card == w.intake.routes[addr]
  }

  /** In every run, for every intent the provider has funded. */
  lemma EveryFundedIntentIsFollowed(w: World, steps: seq<Step>, id: IntentId)
    requires Begins(w) && Runs(w, steps)
    requires var v := Exec(w, steps).engine;
             id in v.db.intents && (id in v.out.sim.fundings || W.Paid(v.db.intents[id].state))
    ensures var v := Exec(w, steps); v.intake.unit > 0 && exists addr, j :: Followed(v, id, addr, j)
  {
    EveryRunIsOk(w, steps);
    var v := Exec(w, steps).engine;
    assert W.IntentOk(v, id);
    FundedIsFollowed(Exec(w, steps), id);
  }

  lemma FundedIsFollowed(v: World, id: IntentId)
    requires Inv(v) && id in v.engine.db.intents && id in v.engine.out.sim.fundings
    ensures exists addr, j :: Followed(v, id, addr, j)
  {
    assert W.IntentOk(v.engine, id) && W.FundingMatches(v.engine, id);
    var b := I.WhatItWasOpenedFor(v.intake, id);
    FundedAndOpenedIsFollowed(v, id, b.addr, b.j);
  }

  lemma FundedAndOpenedIsFollowed(v: World, id: IntentId, addr: I.Address, j: nat)
    requires v.intake.unit > 0 && v.intake.db == v.engine.db && id in v.engine.db.intents
             && id in v.engine.out.sim.fundings
    requires W.FundingMatches(v.engine, id) && I.OpenedFor(v.intake, v.intake.db.intents[id], addr, j)
    ensures Followed(v, id, addr, j)
  {
    Watcher.CreditSplitsExactly(v.intake.logs[addr][j], v.intake.unit);
  }

  /** And no transfer is funded twice. */
  lemma NoTransferFundsTwo(w: World, steps: seq<Step>, a: IntentId, b: IntentId, addr: I.Address, j: nat)
    requires Begins(w) && Runs(w, steps)
    requires var v := Exec(w, steps); v.intake.unit > 0 && Followed(v, a, addr, j) && Followed(v, b, addr, j)
    ensures a == b
  {
    EveryRunIsOk(w, steps);
  }

  /** All told, cards are never credited more than was deposited, fees included. */
  lemma FundedNeverExceedsDeposited(w: World, steps: seq<Step>)
    requires Begins(w) && Runs(w, steps)
    ensures var v := Exec(w, steps).engine;
            Sum(C.FundedIntents(v), id => if id in v.out.sim.fundings
                                          then v.out.sim.fundings[id].amount.minor + v.out.bridge.fee else 0)
            <= Sum(C.DepositedIntents(v), id => if id in v.db.intents then v.db.intents[id].amount.minor else 0)
  {
    EveryRunIsOk(w, steps);
    C.CreditedWithinDeposited(Exec(w, steps).engine);
  }

  // --------------------------------------------------------- against the chain

  /** One entry of one watched address's log. */
  datatype Place = Place(addr: I.Address, j: nat)

  function Places(w: World): set<Place> {
    set a, j | a in w.intake.logs && 0 <= j < |w.intake.logs[a]| :: Place(a, j)
  }

  predicate DepositAt(w: World, p: Place) {
    w.intake.unit > 0 && p in Places(w) && Watcher.IsDeposit(w.intake.logs[p.addr][p.j], w.intake.unit)
  }

  /** Base units credited to the address by the entry, and what of them is too fine to credit on. */
  function UnitsAt(w: World, p: Place): int {
    if DepositAt(w, p) then Watcher.NetIn(w.intake.logs[p.addr][p.j]) else 0
  }

  function DustAt(w: World, p: Place): int {
    if DepositAt(w, p) then Watcher.NetIn(w.intake.logs[p.addr][p.j]) % w.intake.unit else 0
  }

  /** Everything credited to watched addresses, each entry once. */
  ghost function Arrived(w: World): int {
    Sum(Places(w), (p: Place) => UnitsAt(w, p))
  }

  function FundedIntents(w: World): set<IntentId> {
    set id | id in w.engine.db.intents && id in w.engine.out.sim.fundings
  }

  /** What funding one intent took, in base units: the card's credit and the bridge's fee. */
  function Took(w: World, id: IntentId): int {
    if id in w.engine.out.sim.fundings
    then (w.engine.out.sim.fundings[id].amount.minor + w.engine.out.bridge.fee) * w.intake.unit else 0
  }

  /** Where each funded intent's money came from. */
  ghost predicate Traces(w: World, at: map<IntentId, Place>)
    requires w.intake.unit > 0
  {
    && at.Keys == FundedIntents(w)
    && (forall id :: id in at ==> Followed(w, id, at[id].addr, at[id].j))
    && forall a, b :: a in at && b in at && at[a] == at[b] ==> a == b
  }

  ghost function Source(w: World, id: IntentId): Place
    requires w.intake.unit > 0 && exists addr, j :: Followed(w, id, addr, j)
  {
    var addr, j :| Followed(w, id, addr, j);
    Place(addr, j)
  }

  lemma EveryFundingIsTraced(w: World) returns (at: map<IntentId, Place>)
    requires Inv(w)
    ensures Traces(w, at)
  {
    forall id | id in FundedIntents(w) ensures exists addr, j :: Followed(w, id, addr, j) {
      FundedIsFollowed(w, id);
    }
    at := map id | id in FundedIntents(w) :: Source(w, id);
    forall a, b | a in at && b in at && at[a] == at[b] ensures a == b {
      SameSourceSameIntent(w, a, b, at[a]);
    }
  }

  lemma SameSourceSameIntent(w: World, a: IntentId, b: IntentId, p: Place)
    requires Inv(w) && Followed(w, a, p.addr, p.j) && Followed(w, b, p.addr, p.j)
    ensures a == b
  {}

  lemma SourceCoversCost(w: World, id: IntentId, p: Place)
    requires w.intake.unit > 0 && Followed(w, id, p.addr, p.j)
    ensures p in Places(w) && Took(w, id) + DustAt(w, p) == UnitsAt(w, p)
  {
    DustIsTheRest(Watcher.NetIn(w.intake.logs[p.addr][p.j]), w.engine.db.intents[id].amount.minor, w.intake.unit);
  }

  lemma DustIsTheRest(units: int, minor: int, unit: int)
    requires unit > 0 && 0 <= units - minor * unit < unit
    ensures units % unit == units - minor * unit
  {
    var q, r := units / unit, units % unit;
    assert (q - minor) * unit == units - minor * unit - r;
    if q - minor >= 1 {
      AtLeastUnit(q - minor, unit);
    } else if minor - q >= 1 {
      AtLeastUnit(minor - q, unit);
    }
  }

  lemma AtLeastUnit(a: int, unit: int)
    requires a >= 1 && unit > 0
    ensures a * unit >= unit
  {
    assert (a - 1) * unit >= 0;
  }

  lemma UnitsNotNegative(w: World, p: Place)
    ensures UnitsAt(w, p) >= 0
  {}

  /** In every run each funding has an entry of its own on the chain; the credits, the fees and
      the dust of all of them are together exactly those entries' base units, so never more
      than all that arrived. */
  lemma CreditComesFromTheChain(w: World, steps: seq<Step>) returns (at: map<IntentId, Place>)
    requires Begins(w) && Runs(w, steps)
    ensures var v := Exec(w, steps);
            && v.intake.unit > 0 && Traces(v, at) && at.Values <= Places(v)
            && Sum(FundedIntents(v), (id: IntentId) => if id in at then Took(v, id) + DustAt(v, at[id]) else 0)
               == Sum(at.Values, (p: Place) => UnitsAt(v, p))
            && Sum(at.Values, (p: Place) => UnitsAt(v, p)) <= Arrived(v)
  {
    EveryRunIsOk(w, steps);
    var v := Exec(w, steps);
    at := EveryFundingIsTraced(v);
    var cost := (id: IntentId) => if id in at then Took(v, id) + DustAt(v, at[id]) else 0;
    var units := (p: Place) => UnitsAt(v, p);
    forall id | id in at ensures at[id] in Places(v) && cost(id) == units(at[id]) {
      SourceCoversCost(v, id, at[id]);
    }
    forall p ensures units(p) >= 0 {
      UnitsNotNegative(v, p);
    }
    SumFollows(FundedIntents(v), at, cost, units);
    SumGrows(at.Values, Places(v), units);
  }
}
