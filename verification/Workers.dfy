/** Any number of workers stepping intents at once, each split at read, outside call and
    hop, each able to crash anywhere, while intake, settlement and the provider go on. */
module Workers {
  import opened Basics
  import opened FundingStates
  import opened Ledger
  import opened Machine
  import opened Engine
  import B = Bridge
  import S = Safe
  import Laws = SafeLaws

  datatype Pc =
    | Idle
    | Seen(id: IntentId, snap: Intent)     // read, before any outside call
    | Entered(id: IntentId, snap: Intent)  // in FUNDING, about to call fund_card
    | Deciding(req: Request)               // answered, about to hop

  datatype World = World(policy: Policy, db: Db, out: Outside, pcs: seq<Pc>)

  datatype Step =
    | Read(p: nat, id: IntentId)
    | SubmitOrder(p: nat, now: int, fault: Fault)
    | PollBridge(p: nat, now: int, fault: Fault)
    | Enter(p: nat, now: int, hit: bool)
    | FundCard(p: nat, fault: Fault)
    | Move(p: nat, now: int, hit: bool)
    | Crash(p: nat)
    | OpenIntent(o: Opening, at: int)
    | Elsewhere(req: Request, at: int, hit: bool)
    | Annotate(key: Key)
    | Provider(op: Laws.Op)

  /** The hops that are not the engine's: intake's and the reconciler's confirmation of a
      deposit, and the settlement consumer's. */
  predicate Outsider(db: Db, req: Request) {
    && req.intent in db.intents && req.updates == NO_UPDATES
    && ((req.to == DepositConfirmed && db.intents[req.intent].depositRef.Some?
         && req.key == Some(ConfirmKey(db.intents[req.intent].depositRef.value)))
        || (req.to == Settled && req.key == Some(HopKey(req.intent, Settled))))
  }

  predicate AboutToFund(pc: Pc) {
    pc.Entered? || (pc.Seen? && pc.snap.state == Funding)
  }

  predicate Can(w: World, s: Step) {
    match s
    case Read(p, id) => p < |w.pcs| && w.pcs[p].Idle? && id in w.db.intents && Driven(w.db.intents[id].state)
    case SubmitOrder(p, _, _) => p < |w.pcs| && w.pcs[p].Seen? && w.pcs[p].snap.state == DepositConfirmed
    case PollBridge(p, _, _) => p < |w.pcs| && w.pcs[p].Seen? && w.pcs[p].snap.state == Bridging
    case Enter(p, _, hit) =>
      p < |w.pcs| && w.pcs[p].Seen? && w.pcs[p].snap.state == Bridged
      && MayHit(w.db, Entering(w.pcs[p].id), hit)
    case FundCard(p, _) => p < |w.pcs| && AboutToFund(w.pcs[p])
    case Move(p, _, hit) => p < |w.pcs| && w.pcs[p].Deciding? && MayHit(w.db, w.pcs[p].req, hit)
    case Crash(p) => p < |w.pcs|
    case OpenIntent(o, _) =>
      o.id !in w.db.intents && o.id !in w.out.bridge.accepted && o.id !in w.out.sim.fundings
      && (o.key.Some? ==> o.key.value.DepositKey?)
    case Elsewhere(req, _, hit) => Outsider(w.db, req) && MayHit(w.db, req, hit)
    case Annotate(key) => !key.HopKey? && !key.ConfirmKey?
    case Provider(op) => op.Fund? ==> op.ref !in w.db.intents
  }

  function Next(d: Decision): Pc {
    if d.Raise? then Idle else Deciding(d.req)
  }

  function Do(w: World, s: Step): World
    requires S.Shape(w.out.sim) && Can(w, s)
  {
    match s
    case Read(p, id) => w.(pcs := w.pcs[p := Seen(id, w.db.intents[id])])
    case SubmitOrder(p, now, fault) =>
      var (id, snap) := (w.pcs[p].id, w.pcs[p].snap);
      var (out, answer) := CallSubmit(w.out, w.policy, id, snap, now, fault);
      w.(out := out, pcs := w.pcs[p := Next(OnSubmit(w.policy, id, snap, answer))])
    case PollBridge(p, now, fault) =>
      w.(pcs := w.pcs[p := Next(Polled(w, w.pcs[p].id, w.pcs[p].snap, now, fault))])
    case Enter(p, now, hit) =>
      var id := w.pcs[p].id;
      var (db, outcome) := Hop(w.db, Entering(id), now, hit);
      w.(db := db, pcs := w.pcs[p := if outcome.Returned() then Entered(id, outcome.intent) else Idle])
    case FundCard(p, fault) =>
      var (id, snap) := (w.pcs[p].id, w.pcs[p].snap);
      var (out, answer) := CallFund(w.out, id, snap, fault);
      w.(out := out, pcs := w.pcs[p := Next(OnFund(w.policy, id, snap, answer))])
    case Move(p, now, hit) =>
      w.(db := Hop(w.db, w.pcs[p].req, now, hit).0, pcs := w.pcs[p := Idle])
    case Crash(p) => w.(pcs := w.pcs[p := Idle])
    case OpenIntent(o, at) => w.(db := Create(w.db, o, at).0)
    case Elsewhere(req, at, hit) => w.(db := Hop(w.db, req, at, hit).0)
    case Annotate(key) => w.(db := Note(w.db, key))
    case Provider(op) => w.(out := w.out.(sim := Laws.Perform(w.out.sim, op).0))
  }

  function Polled(w: World, id: IntentId, snap: Intent, now: int, fault: Fault): Decision {
    if snap.bridgeRef.None? then GiveUp(id, snap, "in BRIDGING with no bridge reference")
    else OnStatus(w.policy, id, snap, CallStatus(w.out, snap.bridgeRef.value, now, fault))
  }

  // --------------------------------------------------------------- invariant

  /** What the columns of an intent must say, given its state. */
  predicate Columns(i: Intent, id: IntentId, fee: nat) {
    match i.state
    case Pending => i.bridgeRef == None && i.bridged == None
    case DepositConfirmed => i.bridgeRef == None && i.bridged == None
    case FailedDeposit => i.bridgeRef == None && i.bridged == None
    case Bridging => i.bridgeRef == Some(B.RefFor(id)) && i.bridged == None
    case FailedBridge => i.bridged == None
    case _ => Net(i, fee)
  }

  /** The bridge delivered the deposit less its fee, and something was left. */
  predicate Net(i: Intent, fee: nat) {
    i.bridged == Some(i.amount.minor - fee) && i.amount.minor > fee
  }

  predicate Paid(s: State) {
    s == Funded || s == Settled || s == FailedSettlement
  }

  /** Only an intent with a deposit behind it leaves Pending. */
  predicate PaidFor(i: Intent) {
    i.state != Pending ==> i.depositRef.Some?
  }

  /** A state its own hop could enter again has spent that hop's key. */
  predicate OwnKeySpent(db: Db, id: IntentId)
    requires id in db.intents
  {
    var i := db.intents[id];
    && (i.state == DepositConfirmed ==> i.depositRef.Some? && Taken(db.ledger, ConfirmKey(i.depositRef.value)))
    && (i.state == Bridging || i.state == Bridged || i.state == Funding ==>
          Taken(db.ledger, HopKey(id, i.state)))
  }

  /** The provider's record for this intent is the intent's own card and net amount. */
  predicate FundingMatches(w: World, id: IntentId)
    requires id in w.db.intents && id in w.out.sim.fundings
  {
    var i, f := w.db.intents[id], w.out.sim.fundings[id];
    && Net(i, w.out.bridge.fee)
    && f.cardId == i.card.cardId
    && f.amount == Money(i.amount.minor - w.out.bridge.fee, i.amount.currency)
  }

  predicate OrderMatches(w: World, id: IntentId)
    requires S.Shape(w.out.sim) && id in w.db.intents && id in w.out.bridge.accepted
  {
    var i := w.db.intents[id];
    && AddressOf(w.out.sim, i.card.cardId).Some? && AddressOf(w.out.sim, i.card.cardId) != Some("")
    && w.out.bridge.accepted[id].order == OrderFor(w.policy, id, i, AddressOf(w.out.sim, i.card.cardId).value)
  }

  predicate IntentOk(w: World, id: IntentId)
    requires id in w.db.intents
  {
    var i := w.db.intents[id];
    && Columns(i, id, w.out.bridge.fee)
    && PaidFor(i)
    && OwnKeySpent(w.db, id)
    && (i.state == Bridging ==> id in w.out.bridge.accepted)
    && (Paid(i.state) ==> id in w.out.sim.fundings)
  }

  /** A snapshot is some past row of the same intent. */
  predicate SnapOk(w: World, id: IntentId, snap: Intent) {
    && id in w.db.intents
    && SameDeposit(snap, w.db.intents[id])
    && Columns(snap, id, w.out.bridge.fee)
    && (snap.bridged.Some? ==> w.db.intents[id].bridged == snap.bridged)
    && (snap.state == Bridging ==> id in w.out.bridge.accepted)
  }

  predicate RequestOk(w: World, req: Request) {
    && req.intent in w.db.intents
    && var i, u := w.db.intents[req.intent], req.updates;
       if req.key.None? then u == NO_UPDATES && NoEarlier(i.state, req.to)
       else
         && req.key == Some(HopKey(req.intent, req.to))
         && match req.to
            case Bridging =>
              u == NO_UPDATES.(bridgeRef := Some(B.RefFor(req.intent))) && req.intent in w.out.bridge.accepted
            case Bridged =>
              u == NO_UPDATES.(bridged := Some(i.amount.minor - w.out.bridge.fee)) && i.amount.minor > w.out.bridge.fee
            case Funding => u == NO_UPDATES
            case Funded =>
              u.issuerRef.Some? && u == NO_UPDATES.(issuerRef := u.issuerRef) && req.intent in w.out.sim.fundings
            case FailedBridge => u == NO_UPDATES
            case FailedFunding => u == NO_UPDATES
            case _ => false
  }

  predicate PcOk(w: World, pc: Pc) {
    match pc
    case Idle => true
    case Seen(id, snap) => SnapOk(w, id, snap) && Driven(snap.state)
    case Entered(id, snap) => SnapOk(w, id, snap) && Net(snap, w.out.bridge.fee)
    case Deciding(req) => RequestOk(w, req)
  }

  ghost predicate FundingKeysSpent(db: Db) {
    forall id :: id in db.intents && Taken(db.ledger, HopKey(id, Funding)) ==> db.intents[id].bridged.Some?
  }

  /** Everything but the workers' program counters. */
  ghost predicate TablesOk(w: World) {
    && S.Shape(w.out.sim)
    && B.Filed(w.out.bridge)
    && KeysPast(w.db)
    && FundingKeysSpent(w.db)
    && (forall id :: id in w.db.intents ==> IntentOk(w, id))
    && (forall id :: id in w.out.bridge.accepted ==> id in w.db.intents && OrderMatches(w, id))
    && (forall id :: id in w.db.intents && id in w.out.sim.fundings ==> FundingMatches(w, id))
  }

  ghost predicate Inv(w: World) {
    TablesOk(w) && forall p :: 0 <= p < |w.pcs| ==> PcOk(w, w.pcs[p])
  }

  // -------------------------------------------------------------- monotonicity

  /** What later states never take back. */
  ghost predicate Ahead(w: World, v: World) {
    && v.policy == w.policy && v.out.bridge.fee == w.out.bridge.fee
    && Extends(w.db, v.db)
    && (forall id :: id in w.db.intents && w.db.intents[id].bridged.Some? ==>
          v.db.intents[id].bridged == w.db.intents[id].bridged)
    && w.out.bridge.accepted.Keys <= v.out.bridge.accepted.Keys
    && w.out.sim.fundings.Keys <= v.out.sim.fundings.Keys
  }

  lemma PcStaysOk(w: World, v: World, pc: Pc)
    requires Ahead(w, v) && PcOk(w, pc)
    ensures PcOk(v, pc)
  {}

  lemma PcsStayOk(w: World, v: World, p: nat, pc: Pc)
    requires Ahead(w, v) && p < |w.pcs| && v.pcs == w.pcs[p := pc] && PcOk(v, pc)
    requires forall q :: 0 <= q < |w.pcs| ==> PcOk(w, w.pcs[q])
    ensures forall q :: 0 <= q < |v.pcs| ==> PcOk(v, v.pcs[q])
  {
    forall q | 0 <= q < |v.pcs| ensures PcOk(v, v.pcs[q]) {
      if q != p {
        PcStaysOk(w, v, w.pcs[q]);
      }
    }
  }

  // -------------------------------------------------------------------- hops

  predicate HopOk(w: World, req: Request) {
    RequestOk(w, req) || Outsider(w.db, req)
  }

  function Hopping(w: World, req: Request, now: int): World {
    w.(db := Apply(w.db, req, now).0)
  }

  /** A hop that commits either retries without a key, or enters a state for the first time. */
  lemma CommittedHop(w: World, req: Request, now: int)
    requires HopOk(w, req) && IntentOk(w, req.intent) && Apply(w.db, req, now).1.Applied?
    ensures var i := w.db.intents[req.intent];
            && (req.key.None? ==> req.to == i.state)
            && (req.key.Some? ==> req.to != i.state && !Taken(w.db.ledger, req.key.value))
  {
    HopDescends(w.db.intents[req.intent].state, req.to);
  }

  lemma LedgerAfter(db: Db, req: Request, now: int)
    requires req.intent in db.intents
    ensures var (after, outcome) := Apply(db, req, now);
            forall k :: Taken(after.ledger, k) <==> Taken(db.ledger, k) || (outcome.Applied? && req.key == Some(k))
  {
    AppendRow(db.ledger, IllegalEntry(db.intents[req.intent], req, now));
    AppendRow(db.ledger, HopEntry(db.intents[req.intent], req, now));
  }

  lemma HopColumns(w: World, req: Request, now: int)
    requires HopOk(w, req) && IntentOk(w, req.intent) && Apply(w.db, req, now).1.Applied?
    ensures var (i, j) := (w.db.intents[req.intent], Hopped(w.db.intents[req.intent], req, now));
            && Columns(j, req.intent, w.out.bridge.fee)
            && PaidFor(j)
            && (i.bridged.Some? ==> j.bridged == i.bridged)
            && (j.state == Bridging ==> req.intent in w.out.bridge.accepted)
            && (Paid(j.state) ==> req.intent in w.out.sim.fundings)
            && (j.state == DepositConfirmed && i.state != j.state ==>
                  j.depositRef.Some? && req.key == Some(ConfirmKey(j.depositRef.value)))
            && (i.state != j.state && Driven(j.state) && j.state != DepositConfirmed ==>
                  req.key == Some(HopKey(req.intent, j.state)))
            && (req.key == Some(HopKey(req.intent, Funding)) ==> j.bridged.Some?)
  {
    CommittedHop(w, req, now);
  }

  lemma HopIsAhead(w: World, req: Request, now: int)
    requires HopOk(w, req) && IntentOk(w, req.intent)
    ensures Ahead(w, Hopping(w, req, now))
  {
    ApplyExtends(w.db, req, now);
    if Apply(w.db, req, now).1.Applied? {
      HopColumns(w, req, now);
    }
  }

  lemma HopKeepsIntents(w: World, req: Request, now: int)
    requires Inv(w) && HopOk(w, req)
    ensures forall id :: id in Hopping(w, req, now).db.intents ==> IntentOk(Hopping(w, req, now), id)
  {
    var v := Hopping(w, req, now);
    LedgerAfter(w.db, req, now);
    if Apply(w.db, req, now).1.Applied? {
      HopColumns(w, req, now);
    }
    forall id | id in v.db.intents ensures IntentOk(v, id) {
      assert IntentOk(w, id);
    }
  }

  lemma HopKeepsRecords(w: World, req: Request, now: int)
    requires Inv(w) && HopOk(w, req)
    ensures var v := Hopping(w, req, now);
            && (forall id :: id in v.out.bridge.accepted ==> id in v.db.intents && OrderMatches(v, id))
            && (forall id :: id in v.db.intents && id in v.out.sim.fundings ==> FundingMatches(v, id))
  {
    var v := Hopping(w, req, now);
    HopIsAhead(w, req, now);
    forall id | id in v.out.bridge.accepted ensures id in v.db.intents && OrderMatches(v, id) {
      assert OrderMatches(w, id);
    }
    forall id | id in v.db.intents && id in v.out.sim.fundings ensures FundingMatches(v, id) {
      assert FundingMatches(w, id);
    }
  }

  lemma HopKeepsKeys(w: World, req: Request, now: int)
    requires Inv(w) && HopOk(w, req)
    ensures KeysPast(Hopping(w, req, now).db) && FundingKeysSpent(Hopping(w, req, now).db)
  {
    var v := Hopping(w, req, now);
    HopKeepsKeysPast(w.db, req, now);
    HopIsAhead(w, req, now);
    LedgerAfter(w.db, req, now);
    if Apply(w.db, req, now).1.Applied? {
      HopColumns(w, req, now);
    }
  }

  lemma HopKeepsTables(w: World, req: Request, now: int)
    requires Inv(w) && HopOk(w, req)
    ensures TablesOk(Hopping(w, req, now)) && Ahead(w, Hopping(w, req, now))
  {
    HopKeepsKeys(w, req, now);
    HopKeepsIntents(w, req, now);
    HopKeepsRecords(w, req, now);
    HopIsAhead(w, req, now);
  }

  /** Tables survive a change of program counters, which they do not mention. */
  lemma PcsAside(w: World, v: World, p: nat, pc: Pc)
    requires Inv(w) && Ahead(w, v) && TablesOk(v)
    requires p < |w.pcs| && v.pcs == w.pcs[p := pc] && PcOk(v, pc)
    ensures Inv(v)
  {
    PcsStayOk(w, v, p, pc);
  }

  lemma MoveKeepsInv(w: World, p: nat, now: int, hit: bool)
    requires Inv(w) && Can(w, Move(p, now, hit))
    ensures Inv(Do(w, Move(p, now, hit)))
  {
    var v := Do(w, Move(p, now, hit));
    if hit {
      SamesTables(w, v, p, Idle);
    } else {
      assert PcOk(w, w.pcs[p]);
      var h := Hopping(w, w.pcs[p].req, now);
      HopKeepsTables(w, w.pcs[p].req, now);
      assert v == h.(pcs := w.pcs[p := Idle]);
      TablesIgnorePcs(h, v);
      PcsAside(w, v, p, Idle);
    }
  }

  lemma TablesIgnorePcs(w: World, v: World)
    requires TablesOk(w) && v == w.(pcs := v.pcs)
    ensures TablesOk(v) && Ahead(w, v)
  {
    forall id | id in v.db.intents ensures IntentOk(v, id) {
      assert IntentOk(w, id);
    }
    forall id | id in v.out.bridge.accepted ensures id in v.db.intents && OrderMatches(v, id) {
      assert OrderMatches(w, id);
    }
    forall id | id in v.db.intents && id in v.out.sim.fundings ensures FundingMatches(v, id) {
      assert FundingMatches(w, id);
    }
  }

  lemma SamesTables(w: World, v: World, p: nat, pc: Pc)
    requires Inv(w) && p < |w.pcs| && v == w.(pcs := w.pcs[p := pc]) && PcOk(w, pc)
    ensures Inv(v)
  {
    TablesIgnorePcs(w, v);
    PcStaysOk(w, v, pc);
    PcsAside(w, v, p, pc);
  }

  // ---------------------------------------------------------- workers' steps

  lemma ReadKeepsInv(w: World, p: nat, id: IntentId)
    requires Inv(w) && Can(w, Read(p, id))
    ensures Inv(Do(w, Read(p, id)))
  {
    assert IntentOk(w, id);
    SamesTables(w, Do(w, Read(p, id)), p, Seen(id, w.db.intents[id]));
  }

  lemma EnterKeepsInv(w: World, p: nat, now: int, hit: bool)
    requires Inv(w) && Can(w, Enter(p, now, hit))
    ensures Inv(Do(w, Enter(p, now, hit)))
  {
    var id := w.pcs[p].id;
    assert PcOk(w, w.pcs[p]);
    var req := Entering(id);
    var v := Do(w, Enter(p, now, hit));
    if hit {
      assert IntentOk(w, id);
      EnteredByReplay(w, id);
      SamesTables(w, v, p, v.pcs[p]);
    } else {
      var h := Hopping(w, req, now);
      HopKeepsTables(w, req, now);
      assert v == h.(pcs := v.pcs);
      EnteredByHop(w, id, now);
      TablesIgnorePcs(h, v);
      PcStaysOk(h, v, v.pcs[p]);
      PcsAside(w, v, p, v.pcs[p]);
    }
  }

  /** Finding the FUNDING key spent means the bridge has delivered. */
  lemma EnteredByReplay(w: World, id: IntentId)
    requires TablesOk(w) && id in w.db.intents && Taken(w.db.ledger, HopKey(id, Funding))
    ensures PcOk(w, Entered(id, w.db.intents[id]))
  {
    assert IntentOk(w, id);
  }

  lemma EnteredByHop(w: World, id: IntentId, now: int)
    requires Inv(w) && id in w.db.intents
    ensures var (h, outcome) := (Hopping(w, Entering(id), now), Apply(w.db, Entering(id), now).1);
            outcome.Returned() ==> PcOk(h, Entered(id, outcome.intent))
  {
    HopKeepsTables(w, Entering(id), now);
    var h := Hopping(w, Entering(id), now);
    assert IntentOk(h, id);
    LedgerAfter(w.db, Entering(id), now);
  }

  lemma GivingUpIsOk(w: World, id: IntentId, snap: Intent, reason: string)
    requires SnapOk(w, id, snap)
    ensures PcOk(w, Next(GiveUp(id, snap, reason)))
  {}

  lemma TroubleIsOk(w: World, id: IntentId, snap: Intent, kind: Trouble)
    requires SnapOk(w, id, snap)
    ensures PcOk(w, Next(AfterTrouble(w.policy, id, snap, kind)))
  {}

  lemma RetryIsOk(w: World, id: IntentId, snap: Intent, reason: string)
    requires SnapOk(w, id, snap)
    ensures PcOk(w, Next(Retry(w.policy, id, snap, reason)))
  {}

  lemma PollKeepsInv(w: World, p: nat, now: int, fault: Fault)
    requires Inv(w) && Can(w, PollBridge(p, now, fault))
    ensures Inv(Do(w, PollBridge(p, now, fault)))
  {
    assert PcOk(w, w.pcs[p]);
    var (id, snap) := (w.pcs[p].id, w.pcs[p].snap);
    PolledIsOk(w, id, snap, now, fault);
    SamesTables(w, Do(w, PollBridge(p, now, fault)), p, Next(Polled(w, id, snap, now, fault)));
  }

  lemma PolledIsOk(w: World, id: IntentId, snap: Intent, now: int, fault: Fault)
    requires TablesOk(w) && SnapOk(w, id, snap) && snap.state == Bridging
    ensures PcOk(w, Next(Polled(w, id, snap, now, fault)))
  {
    B.DeliversNetOfFee(w.out.bridge, id, now);
    assert OrderMatches(w, id);
    var answer := CallStatus(w.out, B.RefFor(id), now, fault);
    if answer.Troubled? {
      TroubleIsOk(w, id, snap, answer.kind);
    } else if answer.value.status == B.InFlight {
      RetryIsOk(w, id, snap, "not delivered yet");
    } else {
      GivingUpIsOk(w, id, snap, "the bridge reported a failure");
    }
  }

  // ------------------------------------------------------- the outside moves

  /** The outside systems only ever add: orders, fundings, and nothing that moves a card. */
  ghost predicate OutsideGrows(a: Outside, b: Outside) {
    && b.bridge.fee == a.bridge.fee
    && (forall r :: r in a.bridge.accepted ==> r in b.bridge.accepted && b.bridge.accepted[r] == a.bridge.accepted[r])
    && (forall r :: r in a.sim.fundings ==> r in b.sim.fundings && b.sim.fundings[r] == a.sim.fundings[r])
    && Laws.SameAccounts(a.sim, b.sim)
  }

  lemma OutsideKeepsTables(w: World, out: Outside)
    requires TablesOk(w) && OutsideGrows(w.out, out) && S.Shape(out.sim) && B.Filed(out.bridge)
    requires forall r :: r in out.bridge.accepted && r !in w.out.bridge.accepted ==>
               r in w.db.intents && OrderMatches(w.(out := out), r)
    requires forall r :: r in out.sim.fundings && r !in w.out.sim.fundings && r in w.db.intents ==>
               FundingMatches(w.(out := out), r)
    ensures TablesOk(w.(out := out)) && Ahead(w, w.(out := out))
  {
    var v := w.(out := out);
    forall id | id in v.db.intents ensures IntentOk(v, id) {
      assert IntentOk(w, id);
    }
    forall r | r in out.bridge.accepted ensures r in v.db.intents && OrderMatches(v, r) {
      if r in w.out.bridge.accepted {
        assert OrderMatches(w, r);
      }
    }
    forall r | r in v.db.intents && r in out.sim.fundings ensures FundingMatches(v, r) {
      if r in w.out.sim.fundings {
        assert FundingMatches(w, r);
      }
    }
  }

  lemma SubmittedOnItsOwnTerms(out: Outside, policy: Policy, id: IntentId, i: Intent, now: int, fault: Fault)
    requires S.Shape(out.sim) && B.Filed(out.bridge)
    ensures var (after, answer) := CallSubmit(out, policy, id, i, now, fault);
            && B.Filed(after.bridge) && after.sim == out.sim && OutsideGrows(out, after)
            && (answer.Said? ==> answer.value == B.RefFor(id) && id in after.bridge.accepted)
            && (forall r :: r in after.bridge.accepted && r !in out.bridge.accepted ==>
                  && r == id && AddressOf(out.sim, i.card.cardId).Some?
                  && after.bridge.accepted[r].order
                     == OrderFor(policy, id, i, AddressOf(out.sim, i.card.cardId).value))
  {}

  lemma SubmitGrows(w: World, id: IntentId, snap: Intent, now: int, fault: Fault)
    requires TablesOk(w) && SnapOk(w, id, snap)
    ensures var (out, answer) := CallSubmit(w.out, w.policy, id, snap, now, fault);
            && TablesOk(w.(out := out)) && Ahead(w, w.(out := out))
            && (answer.Said? ==> answer.value == B.RefFor(id) && id in out.bridge.accepted)
  {
    var (out, answer) := CallSubmit(w.out, w.policy, id, snap, now, fault);
    SubmittedOnItsOwnTerms(w.out, w.policy, id, snap, now, fault);
    OutsideKeepsTables(w, out);
  }

  lemma SubmitKeepsInv(w: World, p: nat, now: int, fault: Fault)
    requires Inv(w) && Can(w, SubmitOrder(p, now, fault))
    ensures Inv(Do(w, SubmitOrder(p, now, fault)))
  {
    assert PcOk(w, w.pcs[p]);
    var (id, snap) := (w.pcs[p].id, w.pcs[p].snap);
    var (out, answer) := CallSubmit(w.out, w.policy, id, snap, now, fault);
    SubmitGrows(w, id, snap, now, fault);
    var mid := w.(out := out);
    PcStaysOk(w, mid, w.pcs[p]);
    var pc := Next(OnSubmit(w.policy, id, snap, answer));
    if answer.Troubled? {
      TroubleIsOk(mid, id, snap, answer.kind);
    }
    assert PcOk(mid, pc);
    var v := Do(w, SubmitOrder(p, now, fault));
    assert v == mid.(pcs := v.pcs);
    TablesIgnorePcs(mid, v);
    PcStaysOk(mid, v, pc);
    PcsAside(w, v, p, pc);
  }

  lemma CallFundOnItsOwnTerms(out: Outside, id: IntentId, snap: Intent, fault: Fault)
    requires S.Shape(out.sim)
    ensures var (after, answer) := CallFund(out, id, snap, fault);
            && after.bridge == out.bridge && S.Shape(after.sim) && OutsideGrows(out, after)
            && (answer == Said(NotYet) || answer.Troubled? || id in after.sim.fundings)
            && (forall r :: r in after.sim.fundings && r !in out.sim.fundings ==>
                  && r == id && after.sim.fundings[r].cardId == snap.card.cardId
                  && after.sim.fundings[r].amount == snap.FundableMoney())
  {
    FundedOnItsOwnTerms(out.sim, snap.card.cardId, snap.FundableMoney(), id);
  }

  lemma FundGrows(w: World, id: IntentId, snap: Intent, fault: Fault)
    requires TablesOk(w) && SnapOk(w, id, snap) && Net(snap, w.out.bridge.fee)
    ensures var (out, answer) := CallFund(w.out, id, snap, fault);
            && TablesOk(w.(out := out)) && Ahead(w, w.(out := out))
            && (answer == Said(NotYet) || answer.Troubled? || id in out.sim.fundings)
  {
    CallFundOnItsOwnTerms(w.out, id, snap, fault);
    OutsideKeepsTables(w, CallFund(w.out, id, snap, fault).0);
  }

  lemma FundedOnItsOwnTerms(sim: S.Sim, cardId: string, amount: Money, ref: string)
    requires S.Shape(sim)
    ensures var t := S.ConfirmFunding(sim, cardId, amount, ref).0;
            && S.Shape(t) && Laws.SameAccounts(sim, t)
            && (forall r :: r in sim.fundings ==> r in t.fundings && t.fundings[r] == sim.fundings[r])
            && (forall r :: r in t.fundings && r !in sim.fundings ==>
                  r == ref && t.fundings[r].cardId == cardId && t.fundings[r].amount == amount)
  {
    Laws.FundKeepsShape(sim, cardId, amount, ref);
    Laws.FundKeepsFundings(sim, cardId, amount, ref);
  }

  lemma FundKeepsInv(w: World, p: nat, fault: Fault)
    requires Inv(w) && Can(w, FundCard(p, fault))
    ensures Inv(Do(w, FundCard(p, fault)))
  {
    assert PcOk(w, w.pcs[p]);
    var (id, snap) := (w.pcs[p].id, w.pcs[p].snap);
    var (out, answer) := CallFund(w.out, id, snap, fault);
    FundGrows(w, id, snap, fault);
    var mid := w.(out := out);
    PcStaysOk(w, mid, w.pcs[p]);
    var pc := Next(OnFund(w.policy, id, snap, answer));
    if answer.Troubled? {
      TroubleIsOk(mid, id, snap, answer.kind);
    } else if answer.value.NotYet? {
      RetryIsOk(mid, id, snap, "not confirmed yet");
    }
    assert PcOk(mid, pc);
    var v := Do(w, FundCard(p, fault));
    assert v == mid.(pcs := v.pcs);
    TablesIgnorePcs(mid, v);
    PcStaysOk(mid, v, pc);
    PcsAside(w, v, p, pc);
  }

  // -------------------------------------------------------- everybody else

  /** Rows of a table left as they were, plus at most brand-new unpaid intents. */
  ghost predicate Appended(w: World, db: Db) {
    && w.db.ledger <= db.ledger
    && (forall id :: id in w.db.intents ==> id in db.intents && db.intents[id] == w.db.intents[id])
    && (forall id :: id in db.intents && id !in w.db.intents ==>
          && db.intents[id].state == Pending && db.intents[id].bridgeRef == None && db.intents[id].bridged == None
          && id !in w.out.bridge.accepted && id !in w.out.sim.fundings)
    && (forall k :: Taken(db.ledger, k) && (k.HopKey? || k.ConfirmKey?) ==> Taken(w.db.ledger, k))
  }

  lemma AppendedKeepsIntents(w: World, db: Db, id: IntentId)
    requires TablesOk(w) && Appended(w, db) && id in db.intents
    ensures IntentOk(w.(db := db), id)
  {
    if id in w.db.intents {
      assert IntentOk(w, id);
      var i := w.db.intents[id];
      if i.state == DepositConfirmed {
        TakenStays(w.db.ledger, db.ledger, ConfirmKey(i.depositRef.value));
      }
      if i.state == Bridging || i.state == Bridged || i.state == Funding {
        TakenStays(w.db.ledger, db.ledger, HopKey(id, i.state));
      }
    }
  }

  lemma AppendedKeepsInv(w: World, db: Db)
    requires Inv(w) && Appended(w, db)
    ensures Inv(w.(db := db))
  {
    var v := w.(db := db);
    forall id | id in v.db.intents ensures IntentOk(v, id) {
      AppendedKeepsIntents(w, db, id);
    }
    forall id | id in v.out.bridge.accepted ensures id in v.db.intents && OrderMatches(v, id) {
      assert OrderMatches(w, id);
    }
    forall id | id in v.db.intents && id in v.out.sim.fundings ensures FundingMatches(v, id) {
      assert FundingMatches(w, id);
    }
    forall q | 0 <= q < |v.pcs| ensures PcOk(v, v.pcs[q]) {
      PcStaysOk(w, v, w.pcs[q]);
    }
  }

  lemma OpenKeepsInv(w: World, o: Opening, at: int)
    requires Inv(w) && Can(w, OpenIntent(o, at))
    ensures Inv(Do(w, OpenIntent(o, at)))
  {
    AppendRow(w.db.ledger, CreatedRow(o.id, o.card, o.amount, o.depositRef, at, o.key));
    AppendedKeepsInv(w, Create(w.db, o, at).0);
  }

  lemma AnnotateKeepsInv(w: World, key: Key)
    requires Inv(w) && Can(w, Annotate(key))
    ensures Inv(Do(w, Annotate(key)))
  {
    AppendRow(w.db.ledger, NoteRow(Some(key)));
    AppendedKeepsInv(w, Note(w.db, key));
  }

  lemma ElsewhereKeepsInv(w: World, req: Request, at: int, hit: bool)
    requires Inv(w) && Can(w, Elsewhere(req, at, hit))
    ensures Inv(Do(w, Elsewhere(req, at, hit)))
  {
    var v := Do(w, Elsewhere(req, at, hit));
    if !hit {
      HopKeepsTables(w, req, at);
      assert v == Hopping(w, req, at);
      forall q | 0 <= q < |v.pcs| ensures PcOk(v, v.pcs[q]) {
        PcStaysOk(w, v, w.pcs[q]);
      }
    } else {
      assert v == w;
    }
  }

  lemma ProviderGrows(sim: S.Sim, op: Laws.Op)
    requires S.Shape(sim)
    ensures var t := Laws.Perform(sim, op).0;
            && S.Shape(t) && Laws.SameAccounts(sim, t)
            && (forall r :: r in sim.fundings ==> r in t.fundings && t.fundings[r] == sim.fundings[r])
            && (forall r :: r in t.fundings && r !in sim.fundings ==> op.Fund? && r == op.ref)
  {
    Laws.ShapeKept(sim, op);
    if op.Fund? {
      FundedOnItsOwnTerms(sim, op.cardId, op.amount, op.ref);
    } else if op.Hold? || op.Settle? || op.GiveBack? || op.Release? {
      Laws.SpendingTouchesNothing(sim, op);
    } else if op.Receive? || op.Observe? || op.Finalize? {
      Laws.DepositsMoveNobody(sim, op);
    } else {
      Laws.AdminTouchesNothing(sim, op);
    }
  }

  lemma ProviderKeepsInv(w: World, op: Laws.Op)
    requires Inv(w) && Can(w, Provider(op))
    ensures Inv(Do(w, Provider(op)))
  {
    var v := Do(w, Provider(op));
    ProviderGrows(w.out.sim, op);
    OutsideKeepsTables(w, v.out);
    forall q | 0 <= q < |v.pcs| ensures PcOk(v, v.pcs[q]) {
      PcStaysOk(w, v, w.pcs[q]);
    }
  }

  lemma StepKeepsInv(w: World, s: Step)
    requires Inv(w) && Can(w, s)
    ensures Inv(Do(w, s))
  {
    match s
    case Read(p, id) => ReadKeepsInv(w, p, id);
    case SubmitOrder(p, now, fault) => SubmitKeepsInv(w, p, now, fault);
    case PollBridge(p, now, fault) => PollKeepsInv(w, p, now, fault);
    case Enter(p, now, hit) => EnterKeepsInv(w, p, now, hit);
    case FundCard(p, fault) => FundKeepsInv(w, p, fault);
    case Move(p, now, hit) => MoveKeepsInv(w, p, now, hit);
    case Crash(p) => SamesTables(w, Do(w, s), p, Idle);
    case OpenIntent(o, at) => OpenKeepsInv(w, o, at);
    case Elsewhere(req, at, hit) => ElsewhereKeepsInv(w, req, at, hit);
    case Annotate(key) => AnnotateKeepsInv(w, key);
    case Provider(op) => ProviderKeepsInv(w, op);
  }
}
