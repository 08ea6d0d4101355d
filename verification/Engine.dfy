/** The top-up engine: what an intent's state is waiting for, the one outside call that
    answers it, and the hop the answer earns. */
module Engine {
  import opened Basics
  import opened FundingStates
  import opened Ledger
  import opened Machine
  import B = Bridge
  import S = Safe

  const PROVIDER := "gnosis_pay_mock"

  datatype Policy = Policy(maxRetries: nat, source: string, destination: string)

  /** The systems the engine calls. */
  datatype Outside = Outside(bridge: B.BridgeState, sim: S.Sim)

  /** How an outside call can go wrong: worth repeating, refused for good, or an exception
      that is nobody's answer. `Lost` took effect before its answer was lost. */
  datatype Trouble = Transient | Permanent | Foreign

  datatype Fault = Fine | Down(kind: Trouble) | Lost(kind: Trouble)

  datatype Answer<+T> = Said(value: T) | Troubled(kind: Trouble)

  function Heard<T>(fault: Fault, answer: Answer<T>): Answer<T> {
    if fault.Fine? then answer else Troubled(fault.kind)
  }

  // ------------------------------------------------------------ outside calls

  /** Where the bridge delivers for this card: the card's own Safe. */
  function AddressOf(sim: S.Sim, cardId: string): Option<string>
    requires S.Shape(sim)
  {
    if cardId !in sim.cards then None else Some(sim.users[sim.cards[cardId].user].safe)
  }

  function OrderFor(policy: Policy, id: IntentId, i: Intent, address: string): B.Order {
    B.Order(id, i.amount, policy.source, policy.destination, address)
  }

  function CallSubmit(out: Outside, policy: Policy, id: IntentId, i: Intent, now: int, fault: Fault)
    : (Outside, Answer<string>)
    requires S.Shape(out.sim)
  {
    var address := AddressOf(out.sim, i.card.cardId);
    if fault.Down? then (out, Troubled(fault.kind))
    else if i.card.providerId != PROVIDER then (out, Troubled(Foreign))
    else if address.None? || address.value == "" then (out, Troubled(Permanent))
    else
      var (bridge, answer) := B.Submit(out.bridge, OrderFor(policy, id, i, address.value), now);
      (out.(bridge := bridge),
       Heard(fault, match answer
                    case Took(t) => Said(t.bridgeRef)
                    case Unavailable => Troubled(Transient)
                    case Refused => Troubled(Permanent)))
  }

  function CallStatus(out: Outside, bridgeRef: string, now: int, fault: Fault): Answer<B.Transfer> {
    Heard(fault, match B.StatusOf(out.bridge, bridgeRef, now)
                 case Took(t) => Said(t)
                 case Unavailable => Troubled(Transient)
                 case Refused => Troubled(Permanent))
  }

  datatype Credit = Credited(issuerRef: string) | NotYet

  function Digits(n: nat): string {
    if n < 10 then ["0123456789"[n]] else Digits(n / 10) + ["0123456789"[n % 10]]
  }

  /** The number a string of decimal digits says. */
  function ValueOf(digits: string): int {
    if digits == "" then 0
    else 10 * ValueOf(digits[..|digits| - 1]) + (digits[|digits| - 1] as int - '0' as int)
  }

  lemma {:induction false} DigitsSayTheNumber(n: nat)
    ensures ValueOf(Digits(n)) == n && Digits(n) != ""
    ensures forall i :: 0 <= i < |Digits(n)| ==> '0' <= Digits(n)[i] <= '9'
  {
    if n < 10 {
      assert Digits(n)[..0] == "";
    } else {
      DigitsSayTheNumber(n / 10);
      assert Digits(n)[..|Digits(n)| - 1] == Digits(n / 10);
    }
  }

  function RefText(t: S.TxRef): string {
    match t
    case Derived(n) => "0x" + Digits(n)
    case Observed(evidence) => evidence
  }

  function CallFund(out: Outside, id: IntentId, i: Intent, fault: Fault): (Outside, Answer<Credit>)
    requires S.Shape(out.sim)
  {
    if fault.Down? then (out, Troubled(fault.kind))
    else if i.card.providerId != PROVIDER then (out, Troubled(Foreign))
    else
      var (sim, reply) := S.ConfirmFunding(out.sim, i.card.cardId, i.FundableMoney(), id);
      (out.(sim := sim),
       Heard(fault, match reply
                    case Succeeded(f) => Said(Credited(RefText(f.issuerRef)))
                    case Awaiting => Said(NotYet)
                    case _ => Troubled(Permanent)))
  }

  /** The order a submit places: the intent's own amount, from the policy's source to its
      destination, for the Safe of the card's own user. */
  lemma SubmitsTheIntentsOrder(out: Outside, policy: Policy, id: IntentId, i: Intent, now: int, fault: Fault)
    requires S.Shape(out.sim) && id !in out.bridge.accepted
    ensures var after := CallSubmit(out, policy, id, i, now, fault).0.bridge;
            id in after.accepted ==>
              && i.card.cardId in out.sim.cards
              && var order, user := after.accepted[id].order, out.sim.users[out.sim.cards[i.card.cardId].user];
                 && order.ref == id && order.amount == i.amount && order.address == user.safe != ""
                 && order.source == policy.source && order.destination == policy.destination
  {}

  /** A call that fails does nothing; one whose answer is lost does what it would have done, and its
      caller is told only that there was trouble. */
  lemma LostAnswersTookEffect(
    out: Outside, policy: Policy, id: IntentId, i: Intent, now: int, kind: Trouble)
    requires S.Shape(out.sim)
    ensures CallSubmit(out, policy, id, i, now, Down(kind)) == (out, Troubled(kind))
    ensures CallFund(out, id, i, Down(kind)) == (out, Troubled(kind))
    ensures CallSubmit(out, policy, id, i, now, Lost(kind)).0 == CallSubmit(out, policy, id, i, now, Fine).0
    ensures CallFund(out, id, i, Lost(kind)).0 == CallFund(out, id, i, Fine).0
    ensures CallFund(out, id, i, Fine).1.Said? ==> CallFund(out, id, i, Lost(kind)).1 == Troubled(kind)
    ensures CallSubmit(out, policy, id, i, now, Fine).1.Said? ==>
              CallSubmit(out, policy, id, i, now, Lost(kind)).1 == Troubled(kind)
  {}

  // --------------------------------------------------------------- decisions

  /** What the engine does next with an intent it has read. */
  datatype Decision = Ask(req: Request) | Raise

  function FailureFor(s: State): Option<State> {
    match s
    case DepositConfirmed => Some(FailedBridge)
    case Bridging => Some(FailedBridge)
    case Bridged => Some(FailedFunding)
    case Funding => Some(FailedFunding)
    case _ => None
  }

  function GiveUp(id: IntentId, i: Intent, reason: string): Decision {
    match FailureFor(i.state)
    case None => Raise
    case Some(to) => Ask(Request(id, to, Some(reason), NO_UPDATES, Some(HopKey(id, to))))
  }

  function Retry(policy: Policy, id: IntentId, i: Intent, reason: string): Decision {
    if i.retryCount >= policy.maxRetries then GiveUp(id, i, reason)
    else Ask(Request(id, i.state, Some(reason), NO_UPDATES, None))
  }

  function AfterTrouble(policy: Policy, id: IntentId, i: Intent, kind: Trouble): Decision {
    match kind
    case Transient => Retry(policy, id, i, "transient")
    case Permanent => GiveUp(id, i, "permanent")
    case Foreign => Raise
  }

  function OnSubmit(policy: Policy, id: IntentId, i: Intent, answer: Answer<string>): Decision {
    match answer
    case Troubled(kind) => AfterTrouble(policy, id, i, kind)
    case Said(bridgeRef) =>
      Ask(Request(id, Bridging, None, NO_UPDATES.(bridgeRef := Some(bridgeRef)), Some(HopKey(id, Bridging))))
  }

  function OnStatus(policy: Policy, id: IntentId, i: Intent, answer: Answer<B.Transfer>): Decision {
    match answer
    case Troubled(kind) => AfterTrouble(policy, id, i, kind)
    case Said(t) =>
      if t.status == B.Failed then GiveUp(id, i, "the bridge reported a failure")
      else if t.status == B.InFlight then Retry(policy, id, i, "not delivered yet")
      else if t.amountOut.None? || t.amountOut.value.currency != i.amount.currency then
        GiveUp(id, i, "completed without a usable amount")
      else
        Ask(Request(id, Bridged, None, NO_UPDATES.(bridged := Some(t.amountOut.value.minor)),
                    Some(HopKey(id, Bridged))))
  }

  function OnFund(policy: Policy, id: IntentId, i: Intent, answer: Answer<Credit>): Decision {
    match answer
    case Troubled(kind) => AfterTrouble(policy, id, i, kind)
    case Said(NotYet) => Retry(policy, id, i, "not confirmed yet")
    case Said(Credited(ref)) =>
      Ask(Request(id, Funded, None, NO_UPDATES.(issuerRef := Some(ref)), Some(HopKey(id, Funded))))
  }

  /** The hop made before `fund_card` is called. */
  function Entering(id: IntentId): Request {
    Request(id, Funding, None, NO_UPDATES, Some(HopKey(id, Funding)))
  }

  predicate Driven(s: State) {
    s == DepositConfirmed || s == Bridging || s == Bridged || s == Funding
  }

  // --------------------------------------------------------- one whole step

  datatype System = System(db: Db, out: Outside)

  /** `step` either returns the hop it made, reports there was nothing to do, or raises. */
  datatype StepResult = Stepped(frm: State, to: State) | Idled(at: State) | Raised

  function Carry(sys: System, frm: State, d: Decision, now: int): (System, StepResult) {
    if d.Raise? then (sys, Raised)
    else
      var (db, outcome) := Advance(sys.db, d.req, now);
      (sys.(db := db), if outcome.Returned() then Stepped(frm, outcome.intent.state) else Raised)
  }

  function StepSubmit(sys: System, policy: Policy, id: IntentId, now: int, fault: Fault): (System, StepResult)
    requires S.Shape(sys.out.sim) && id in sys.db.intents
  {
    var i := sys.db.intents[id];
    var (out, answer) := CallSubmit(sys.out, policy, id, i, now, fault);
    Carry(sys.(out := out), i.state, OnSubmit(policy, id, i, answer), now)
  }

  function StepPoll(sys: System, policy: Policy, id: IntentId, now: int, fault: Fault): (System, StepResult)
    requires id in sys.db.intents
  {
    var i := sys.db.intents[id];
    if i.bridgeRef.None? then Carry(sys, i.state, GiveUp(id, i, "in BRIDGING with no bridge reference"), now)
    else Carry(sys, i.state, OnStatus(policy, id, i, CallStatus(sys.out, i.bridgeRef.value, now, fault)), now)
  }

  function StepFund(sys: System, policy: Policy, id: IntentId, now: int, fault: Fault): (System, StepResult)
    requires S.Shape(sys.out.sim) && id in sys.db.intents
  {
    var started := sys.db.intents[id].state;
    var (db, entered) :=
      if started == Bridged then Advance(sys.db, Entering(id), now)
      else (sys.db, Replayed(sys.db.intents[id]));
    if !entered.Returned() then (sys.(db := db), Raised)
    else
      var (out, answer) := CallFund(sys.out, id, entered.intent, fault);
      Carry(System(db, out), started, OnFund(policy, id, entered.intent, answer), now)
  }

  function Step(sys: System, policy: Policy, id: IntentId, now: int, fault: Fault): (System, StepResult)
    requires S.Shape(sys.out.sim)
  {
    if id !in sys.db.intents then (sys, Raised)
    else match sys.db.intents[id].state
      case DepositConfirmed => StepSubmit(sys, policy, id, now, fault)
      case Bridging => StepPoll(sys, policy, id, now, fault)
      case Bridged => StepFund(sys, policy, id, now, fault)
      case Funding => StepFund(sys, policy, id, now, fault)
      case s => (sys, Idled(s))
  }

  // ------------------------------------------------------------- termination

  /** Hops left before the card is funded; BRIDGED and FUNDING are one step apart from it. */
  function HopsLeft(s: State): nat {
    match s
    case DepositConfirmed => 3
    case Bridging => 2
    case Bridged => 1
    case Funding => 1
    case _ => 0
  }

  function Fuel(policy: Policy, i: Intent): int {
    HopsLeft(i.state) + policy.maxRetries - i.retryCount
  }

  /** A spent hop key belongs to an intent that has made that hop. */
  ghost predicate KeysPast(db: Db) {
    forall id, to :: Taken(db.ledger, HopKey(id, to)) ==>
      id in db.intents && NoEarlier(db.intents[id].state, to)
  }

  lemma HopKeepsKeysPast(db: Db, req: Request, now: int)
    requires KeysPast(db)
    requires req.key.Some? && req.key.value.HopKey? ==> req.key == Some(HopKey(req.intent, req.to))
    ensures KeysPast(Apply(db, req, now).0)
  {
    if req.intent in db.intents {
      var i := db.intents[req.intent];
      AppendRow(db.ledger, IllegalEntry(i, req, now));
      AppendRow(db.ledger, HopEntry(i, req, now));
      if Legal(i.state, req.to) {
        HopDescends(i.state, req.to);
      }
    }
  }

  /** A driven intent's hop is always fresh: no replay can answer for it. */
  lemma HopAhead(db: Db, id: IntentId, to: State)
    requires KeysPast(db) && id in db.intents && Driven(db.intents[id].state)
    requires Legal(db.intents[id].state, to) && to != db.intents[id].state
    ensures !Taken(db.ledger, HopKey(id, to))
  {
    HopDescends(db.intents[id].state, to);
  }

  /** What one call of `step` does to the intent it was called for. */
  predicate Progress(policy: Policy, before: Intent, after: Intent, r: StepResult) {
    && after.retryCount <= policy.maxRetries
    && (r.Stepped? ==> Fuel(policy, after) < Fuel(policy, before))
    && (!r.Stepped? ==> Fuel(policy, after) <= Fuel(policy, before))
    && (r.Raised? ==> after.state == before.state || (before.state == Bridged && after.state == Funding))
    && (r.Idled? ==> after == before && !Driven(before.state))
    && (Driven(before.state) ==> Driven(after.state) || after.state == Funded || after.state.IsFailure())
  }

  /** A decision taken on the intent as it is makes exactly the progress it names. */
  lemma CarryProgress(sys: System, policy: Policy, id: IntentId, frm: State, d: Decision, now: int)
    requires KeysPast(sys.db) && id in sys.db.intents && Driven(sys.db.intents[id].state)
    requires sys.db.intents[id].retryCount <= policy.maxRetries
    requires d.Ask? ==> Sensible(policy, id, sys.db.intents[id], d.req)
    ensures var (after, r) := Carry(sys, frm, d, now);
            id in after.db.intents && KeysPast(after.db)
            && Progress(policy, sys.db.intents[id], after.db.intents[id], r)
  {
    if d.Ask? {
      HopKeepsKeysPast(sys.db, d.req, now);
      if d.req.to != sys.db.intents[id].state {
        HopAhead(sys.db, id, d.req.to);
      }
    }
  }

  /** The requests the engine can make for an intent it has just read. */
  predicate Sensible(policy: Policy, id: IntentId, i: Intent, req: Request) {
    && req.intent == id && Legal(i.state, req.to)
    && (req.to == i.state ==> req.key.None? && i.retryCount < policy.maxRetries)
    && (req.to != i.state ==> req.key == Some(HopKey(id, req.to)) && HopsLeft(req.to) < HopsLeft(i.state))
    && (req.reason.Some? <==> req.to == i.state || req.to.IsFailure())
  }

  lemma DecisionsAreSensible(policy: Policy, id: IntentId, i: Intent,
                             a: Answer<string>, b: Answer<B.Transfer>, c: Answer<Credit>)
    requires Driven(i.state)
    ensures i.state == DepositConfirmed && OnSubmit(policy, id, i, a).Ask? ==>
              Sensible(policy, id, i, OnSubmit(policy, id, i, a).req)
    ensures i.state == Bridging && OnStatus(policy, id, i, b).Ask? ==>
              Sensible(policy, id, i, OnStatus(policy, id, i, b).req)
    ensures i.state == Bridging ==> Sensible(policy, id, i, GiveUp(id, i, "in BRIDGING with no bridge reference").req)
    ensures i.state == Funding && OnFund(policy, id, i, c).Ask? ==>
              Sensible(policy, id, i, OnFund(policy, id, i, c).req)
  {}

  /** Every step that returns burns fuel; one that raises never adds any and never fails the
      intent. */
  lemma StepBurnsFuel(sys: System, policy: Policy, id: IntentId, now: int, fault: Fault)
    requires S.Shape(sys.out.sim) && KeysPast(sys.db) && id in sys.db.intents
    requires sys.db.intents[id].retryCount <= policy.maxRetries
    ensures var (after, r) := Step(sys, policy, id, now, fault);
            id in after.db.intents && KeysPast(after.db)
            && Progress(policy, sys.db.intents[id], after.db.intents[id], r)
  {
    var i := sys.db.intents[id];
    match i.state
    case DepositConfirmed =>
      var (out, answer) := CallSubmit(sys.out, policy, id, i, now, fault);
      DecisionsAreSensible(policy, id, i, answer, Troubled(Foreign), Troubled(Foreign));
      CarryProgress(sys.(out := out), policy, id, i.state, OnSubmit(policy, id, i, answer), now);
    case Bridging =>
      PollBurnsFuel(sys, policy, id, now, fault);
    case Bridged =>
      FundBurnsFuel(sys, policy, id, now, fault);
    case Funding =>
      FundBurnsFuel(sys, policy, id, now, fault);
    case _ =>
  }

  lemma PollBurnsFuel(sys: System, policy: Policy, id: IntentId, now: int, fault: Fault)
    requires KeysPast(sys.db) && id in sys.db.intents && sys.db.intents[id].state == Bridging
    requires sys.db.intents[id].retryCount <= policy.maxRetries
    ensures var (after, r) := StepPoll(sys, policy, id, now, fault);
            id in after.db.intents && KeysPast(after.db)
            && Progress(policy, sys.db.intents[id], after.db.intents[id], r)
  {
    var i := sys.db.intents[id];
    if i.bridgeRef.None? {
      DecisionsAreSensible(policy, id, i, Troubled(Foreign), Troubled(Foreign), Troubled(Foreign));
      CarryProgress(sys, policy, id, i.state, GiveUp(id, i, "in BRIDGING with no bridge reference"), now);
    } else {
      var answer := CallStatus(sys.out, i.bridgeRef.value, now, fault);
      DecisionsAreSensible(policy, id, i, Troubled(Foreign), answer, Troubled(Foreign));
      CarryProgress(sys, policy, id, i.state, OnStatus(policy, id, i, answer), now);
    }
  }

  lemma FundBurnsFuel(sys: System, policy: Policy, id: IntentId, now: int, fault: Fault)
    requires S.Shape(sys.out.sim) && KeysPast(sys.db) && id in sys.db.intents
    requires sys.db.intents[id].state == Bridged || sys.db.intents[id].state == Funding
    requires sys.db.intents[id].retryCount <= policy.maxRetries
    ensures var (after, r) := StepFund(sys, policy, id, now, fault);
            id in after.db.intents && KeysPast(after.db)
            && Progress(policy, sys.db.intents[id], after.db.intents[id], r)
  {
    var started := sys.db.intents[id].state;
    var db := sys.db;
    if started == Bridged {
      HopAhead(sys.db, id, Funding);
      HopKeepsKeysPast(sys.db, Entering(id), now);
      db := Advance(sys.db, Entering(id), now).0;
    }
    var i := db.intents[id];
    var (out, answer) := CallFund(sys.out, id, i, fault);
    DecisionsAreSensible(policy, id, i, Troubled(Foreign), Troubled(Foreign), answer);
    CarryProgress(System(db, out), policy, id, started, OnFund(policy, id, i, answer), now);
  }

  // -------------------------------------------------------- what a step does

  /** What the outside call of a step came to, for the intent it was made for. */
  datatype Verdict = GoOn | TryLater | Hopeless | Unexplained

  function OfTrouble(kind: Trouble): Verdict {
    match kind
    case Transient => TryLater
    case Permanent => Hopeless
    case Foreign => Unexplained
  }

  function SubmitVerdict(answer: Answer<string>): Verdict {
    if answer.Troubled? then OfTrouble(answer.kind) else GoOn
  }

  function StatusVerdict(i: Intent, answer: Answer<B.Transfer>): Verdict {
    if answer.Troubled? then OfTrouble(answer.kind)
    else match answer.value.status
      case Failed => Hopeless
      case InFlight => TryLater
      case Completed =>
        if answer.value.amountOut.Some? && answer.value.amountOut.value.currency == i.amount.currency then GoOn
        else Hopeless
  }

  function FundVerdict(answer: Answer<Credit>): Verdict {
    if answer.Troubled? then OfTrouble(answer.kind) else if answer.value.NotYet? then TryLater else GoOn
  }

  /** Where a stage leads when all goes well, and where it stands while it waits. */
  function Onward(s: State): State {
    match s
    case DepositConfirmed => Bridging
    case Bridging => Bridged
    case _ => Funded
  }

  function WaitsIn(s: State): State {
    if s == Bridged then Funding else s
  }

  /** One intent before and after a step whose outside call came to `v`. */
  predicate Follows(policy: Policy, before: Intent, after: Intent, v: Verdict, r: StepResult) {
    match v
    case GoOn =>
      r == Stepped(before.state, Onward(before.state)) && after.state == Onward(before.state)
      && after.retryCount == before.retryCount && after.lastError == before.lastError
    case TryLater =>
      if before.retryCount < policy.maxRetries then
        r == Stepped(before.state, WaitsIn(before.state)) && after.state == WaitsIn(before.state)
        && after.retryCount == before.retryCount + 1 && after.lastError.Some?
      else
        Fails(before, after, r)
    case Hopeless => Fails(before, after, r)
    case Unexplained =>
      r.Raised? && after.state == WaitsIn(before.state)
      && after.retryCount == before.retryCount && after.lastError == before.lastError
  }

  /** The intent ended in its stage's own failure, which says why. */
  predicate Fails(before: Intent, after: Intent, r: StepResult) {
    var failure := if before.state == DepositConfirmed || before.state == Bridging then FailedBridge else FailedFunding;
    && r == Stepped(before.state, failure) && after.state == failure
    && after.retryCount == before.retryCount && after.lastError.Some?
  }

  /** Exactly the driven states can fail, each in the failure the table allows it. */
  lemma FailureIsTheStages(s: State)
    ensures FailureFor(s).Some? <==> Driven(s)
    ensures FailureFor(s).Some? ==> FailureFor(s).value.IsFailure() && Legal(s, FailureFor(s).value)
    ensures Driven(s) <==> s in {DepositConfirmed, Bridging, Bridged, Funding}
  {}

  /** A decision carried out on the intent it was made for. */
  lemma CarryFollows(sys: System, policy: Policy, id: IntentId, frm: State, d: Decision, now: int)
    requires KeysPast(sys.db) && id in sys.db.intents && Driven(sys.db.intents[id].state)
    requires d.Ask? ==> Sensible(policy, id, sys.db.intents[id], d.req)
    ensures var (after, r) := Carry(sys, frm, d, now); var i := sys.db.intents[id];
            id in after.db.intents
            && (d.Raise? ==> r.Raised? && after.db == sys.db)
            && (d.Ask? ==>
                  r == Stepped(frm, d.req.to) && after.db.intents[id].state == d.req.to
                  && after.db.intents[id].retryCount == i.retryCount + (if d.req.to == i.state then 1 else 0)
                  && after.db.intents[id].lastError == if d.req.reason.Some? then d.req.reason else i.lastError)
  {
    if d.Ask? && d.req.to != sys.db.intents[id].state {
      HopAhead(sys.db, id, d.req.to);
    }
  }

  /** The intent goes on, waits, fails or stays exactly as its outside call says: it fails only
      when the call was hopeless or its retries are spent, and is never failed by an exception. */
  lemma SubmitFollows(sys: System, policy: Policy, id: IntentId, now: int, fault: Fault)
    requires S.Shape(sys.out.sim) && KeysPast(sys.db) && id in sys.db.intents
    requires sys.db.intents[id].state == DepositConfirmed
    ensures var i := sys.db.intents[id]; var (after, r) := StepSubmit(sys, policy, id, now, fault);
            id in after.db.intents
            && Follows(policy, i, after.db.intents[id],
               SubmitVerdict(CallSubmit(sys.out, policy, id, i, now, fault).1), r)
  {
    var i := sys.db.intents[id];
    var (out, answer) := CallSubmit(sys.out, policy, id, i, now, fault);
    DecisionsAreSensible(policy, id, i, answer, Troubled(Foreign), Troubled(Foreign));
    CarryFollows(sys.(out := out), policy, id, i.state, OnSubmit(policy, id, i, answer), now);
  }

  lemma PollFollows(sys: System, policy: Policy, id: IntentId, now: int, fault: Fault)
    requires KeysPast(sys.db) && id in sys.db.intents && sys.db.intents[id].state == Bridging
    ensures var i := sys.db.intents[id]; var (after, r) := StepPoll(sys, policy, id, now, fault);
            var verdict := if i.bridgeRef.None? then Hopeless
                           else StatusVerdict(i, CallStatus(sys.out, i.bridgeRef.value, now, fault));
            id in after.db.intents && Follows(policy, i, after.db.intents[id], verdict, r)
  {
    var i := sys.db.intents[id];
    if i.bridgeRef.None? {
      DecisionsAreSensible(policy, id, i, Troubled(Foreign), Troubled(Foreign), Troubled(Foreign));
      CarryFollows(sys, policy, id, i.state, GiveUp(id, i, "in BRIDGING with no bridge reference"), now);
    } else {
      var answer := CallStatus(sys.out, i.bridgeRef.value, now, fault);
      DecisionsAreSensible(policy, id, i, Troubled(Foreign), answer, Troubled(Foreign));
      CarryFollows(sys, policy, id, i.state, OnStatus(policy, id, i, answer), now);
    }
  }

  /** The intent as `fund_card` is called for it. */
  function AtFunding(db: Db, id: IntentId, now: int): (Db, Intent)
    requires id in db.intents
  {
    if db.intents[id].state != Bridged then (db, db.intents[id])
    else
      var after := Advance(db, Entering(id), now).0;
      (after, if id in after.intents then after.intents[id] else db.intents[id])
  }

  lemma FundFollows(sys: System, policy: Policy, id: IntentId, now: int, fault: Fault)
    requires S.Shape(sys.out.sim) && KeysPast(sys.db) && id in sys.db.intents
    requires sys.db.intents[id].state == Bridged || sys.db.intents[id].state == Funding
    ensures var (_, i) := AtFunding(sys.db, id, now); var (after, r) := StepFund(sys, policy, id, now, fault);
            id in after.db.intents
            && Follows(policy, sys.db.intents[id], after.db.intents[id],
               FundVerdict(CallFund(sys.out, id, i, fault).1), r)
  {
    var started := sys.db.intents[id].state;
    var (db, i) := AtFunding(sys.db, id, now);
    if started == Bridged {
      HopAhead(sys.db, id, Funding);
      HopKeepsKeysPast(sys.db, Entering(id), now);
    }
    var (out, answer) := CallFund(sys.out, id, i, fault);
    DecisionsAreSensible(policy, id, i, Troubled(Foreign), Troubled(Foreign), answer);
    CarryFollows(System(db, out), policy, id, started, OnFund(policy, id, i, answer), now);
  }

  // ------------------------------------------------- one worker, many steps

  /** One call of `step`, after anybody else did anything to anything but this intent. */
  datatype Turn = Turn(sys: System, now: int, fault: Fault)

  ghost predicate Scheduled(db: Db, policy: Policy, id: IntentId, turns: seq<Turn>)
    requires id in db.intents
    decreases |turns|
  {
    turns == [] ||
    (var t := turns[0];
     && S.Shape(t.sys.out.sim) && KeysPast(t.sys.db)
     && id in t.sys.db.intents && t.sys.db.intents[id] == db.intents[id]
     && var after := Step(t.sys, policy, id, t.now, t.fault).0;
        id in after.db.intents && Scheduled(after.db, policy, id, turns[1..]))
  }

  /** Where the intent is after those turns, and how many of them returned a hop. */
  ghost function Outcome(db: Db, policy: Policy, id: IntentId, turns: seq<Turn>): (Intent, nat)
    requires id in db.intents && Scheduled(db, policy, id, turns)
    decreases |turns|
  {
    if turns == [] then (db.intents[id], 0)
    else
      var (after, r) := Step(turns[0].sys, policy, id, turns[0].now, turns[0].fault);
      var (end, n) := Outcome(after.db, policy, id, turns[1..]);
      (end, n + if r.Stepped? then 1 else 0)
  }

  lemma {:induction false} TurnsBurnFuel(db: Db, policy: Policy, id: IntentId, turns: seq<Turn>)
    requires id in db.intents && Scheduled(db, policy, id, turns)
    requires db.intents[id].retryCount <= policy.maxRetries
    ensures var (end, n) := Outcome(db, policy, id, turns);
            && n + Fuel(policy, end) <= Fuel(policy, db.intents[id])
            && end.retryCount <= policy.maxRetries
            && (Driven(db.intents[id].state) ==> Driven(end.state) || end.state == Funded || end.state.IsFailure())
    decreases |turns|
  {
    if turns != [] {
      var t := turns[0];
      StepBurnsFuel(t.sys, policy, id, t.now, t.fault);
      var (after, r) := Step(t.sys, policy, id, t.now, t.fault);
      TurnsBurnFuel(after.db, policy, id, turns[1..]);
      if !Driven(after.db.intents[id].state) {
        RestsForGood(after.db, policy, id, turns[1..]);
      }
    }
  }

  lemma {:induction false} RestsForGood(db: Db, policy: Policy, id: IntentId, turns: seq<Turn>)
    requires id in db.intents && Scheduled(db, policy, id, turns) && !Driven(db.intents[id].state)
    ensures Outcome(db, policy, id, turns) == (db.intents[id], 0)
    decreases |turns|
  {
    if turns != [] {
      var t := turns[0];
      RestsForGood(Step(t.sys, policy, id, t.now, t.fault).0.db, policy, id, turns[1..]);
    }
  }

  /** A confirmed deposit is funded or failed after at most `maxRetries + 3` steps that return,
      however many steps raised in between and whatever the outside systems answered. */
  lemma ConfirmedDepositsFinish(db: Db, policy: Policy, id: IntentId, turns: seq<Turn>)
    requires id in db.intents && Scheduled(db, policy, id, turns)
    requires db.intents[id].state == DepositConfirmed && db.intents[id].retryCount == 0
    ensures var (end, n) := Outcome(db, policy, id, turns);
            && n <= policy.maxRetries + 3
            && (n == policy.maxRetries + 3 ==> end.state == Funded || end.state.IsFailure())
  {
    TurnsBurnFuel(db, policy, id, turns);
  }
}
