/** The engine as the object it is, driving the store, the bridge and the provider; and the
    proof that one of its steps, uninterrupted, is a run of a single worker. */
module TopUpEngine {
  import opened Basics
  import opened FundingStates
  import opened Ledger
  import opened Machine
  import opened Engine
  import B = Bridge
  import S = Safe
  import FundingStore
  import Simulator
  import W = Workers
  import C = Crediting

  class TopUpEngine {
    const policy: Policy
    const store: FundingStore.Store
    const bridge: B.SimulatedBridge
    const issuer: Simulator.GnosisPaySimulator

    constructor (policy: Policy, store: FundingStore.Store, bridge: B.SimulatedBridge,
                 issuer: Simulator.GnosisPaySimulator)
      ensures this.policy == policy && this.store == store && this.bridge == bridge && this.issuer == issuer
    {
      this.policy, this.store, this.bridge, this.issuer := policy, store, bridge, issuer;
    }

    function State(): System
      reads store, bridge, issuer
    {
      System(store.State(), Outside(bridge.State(), issuer.State()))
    }

    ghost predicate Valid()
      reads store, bridge, issuer
    {
      bridge.Valid() && issuer.Valid()
    }

    method Step(id: IntentId, now: int, fault: Fault) returns (r: StepResult)
      requires Valid()
      modifies store, bridge, issuer
      ensures Valid() && (State(), r) == Engine.Step(old(State()), policy, id, now, fault)
    {
      if id !in store.intents {
        return Raised;
      }
      var state := store.intents[id].state;
      if state == DepositConfirmed {
        r := SubmitToBridge(id, now, fault);
      } else if state == Bridging {
        r := CheckBridge(id, now, fault);
      } else if state == Bridged || state == Funding {
        r := FundCard(id, now, fault);
      } else {
        r := Idled(state);
      }
    }

    method SubmitToBridge(id: IntentId, now: int, fault: Fault) returns (r: StepResult)
      requires Valid() && id in store.intents
      modifies store, bridge, issuer
      ensures Valid() && (State(), r) == StepSubmit(old(State()), policy, id, now, fault)
    {
      var i := store.intents[id];
      var answer := Troubled(Foreign);
      var address := AddressOf(issuer.State(), i.card.cardId);
      if fault.Down? {
        answer := Troubled(fault.kind);
      } else if i.card.providerId == PROVIDER {
        if address.None? || address.value == "" {
          answer := Troubled(Permanent);
        } else {
          var reply := bridge.SubmitOrder(OrderFor(policy, id, i, address.value), now);
          answer := Heard(fault, match reply
                                 case Took(t) => Said(t.bridgeRef)
                                 case Unavailable => Troubled(Transient)
                                 case Refused => Troubled(Permanent));
        }
      }
      r := Follow(i.state, OnSubmit(policy, id, i, answer), now);
    }

    method CheckBridge(id: IntentId, now: int, fault: Fault) returns (r: StepResult)
      requires Valid() && id in store.intents
      modifies store
      ensures Valid() && (State(), r) == StepPoll(old(State()), policy, id, now, fault)
    {
      var i := store.intents[id];
      if i.bridgeRef == None {
        r := Follow(i.state, GiveUp(id, i, "in BRIDGING with no bridge reference"), now);
        return;
      }
      var reply := bridge.AskStatus(i.bridgeRef.value, now);
      var answer := Heard(fault, match reply
                                 case Took(t) => Said(t)
                                 case Unavailable => Troubled(Transient)
                                 case Refused => Troubled(Permanent));
      r := Follow(i.state, OnStatus(policy, id, i, answer), now);
    }

    method FundCard(id: IntentId, now: int, fault: Fault) returns (r: StepResult)
      requires Valid() && id in store.intents
      modifies store, issuer
      ensures Valid() && (State(), r) == StepFund(old(State()), policy, id, now, fault)
    {
      var i := store.intents[id];
      var started := i.state;
      if started == Bridged {
        var outcome := store.AdvanceIntent(Entering(id), now);
        if !outcome.Returned() {
          return Raised;
        }
        i := outcome.intent;
      }
      var answer := Troubled(Foreign);
      if fault.Down? {
        answer := Troubled(fault.kind);
      } else if i.card.providerId == PROVIDER {
        var reply := issuer.FundCard(i.card.cardId, i.FundableMoney(), id);
        answer := Heard(fault, match reply
                               case Succeeded(f) => Said(Credited(RefText(f.issuerRef)))
                               case Awaiting => Said(NotYet)
                               case _ => Troubled(Permanent));
      }
      r := Follow(started, OnFund(policy, id, i, answer), now);
    }

    /** Hand a decision to `advance`, or let it raise. */
    method Follow(frm: State, d: Decision, now: int) returns (r: StepResult)
      modifies store
      ensures (State(), r) == Carry(old(State()), frm, d, now)
    {
      if d.Raise? {
        return Raised;
      }
      var outcome := store.AdvanceIntent(d.req, now);
      r := if outcome.Returned() then Stepped(frm, outcome.intent.state) else Raised;
    }
  }

  // ------------------------------------------- a step is a run of one worker

  /** The worker's moves that make up one call of `step`. */
  function Script(sys: System, policy: Policy, id: IntentId, now: int, fault: Fault): seq<W.Step>
    requires S.Shape(sys.out.sim)
  {
    if id !in sys.db.intents then []
    else
      var i := sys.db.intents[id];
      match i.state
      case DepositConfirmed =>
        [W.Read(0, id), W.SubmitOrder(0, now, fault)]
        + Moves(sys.db, OnSubmit(policy, id, i, CallSubmit(sys.out, policy, id, i, now, fault).1), now)
      case Bridging =>
        [W.Read(0, id), W.PollBridge(0, now, fault)] + Moves(sys.db, PollDecision(sys, policy, id, now, fault), now)
      case Bridged =>
        var hit := Taken(sys.db.ledger, HopKey(id, Funding));
        var (db, entered) := Advance(sys.db, Entering(id), now);
        [W.Read(0, id), W.Enter(0, now, hit)]
        + (if entered.Returned() then [W.FundCard(0, fault)]
             + Moves(db, OnFund(policy, id, entered.intent, CallFund(sys.out, id, entered.intent, fault).1), now)
           else [])
      case Funding =>
        [W.Read(0, id), W.FundCard(0, fault)]
        + Moves(sys.db, OnFund(policy, id, i, CallFund(sys.out, id, i, fault).1), now)
      case _ => []
  }

  function PollDecision(sys: System, policy: Policy, id: IntentId, now: int, fault: Fault): Decision
    requires id in sys.db.intents
  {
    var i := sys.db.intents[id];
    if i.bridgeRef.None? then GiveUp(id, i, "in BRIDGING with no bridge reference")
    else OnStatus(policy, id, i, CallStatus(sys.out, i.bridgeRef.value, now, fault))
  }

  function Moves(db: Db, d: Decision, now: int): seq<W.Step> {
    if d.Raise? then [] else [W.Move(0, now, d.req.key.Some? && Taken(db.ledger, d.req.key.value))]
  }

  function Lone(policy: Policy, sys: System, pc: W.Pc): W.World {
    W.World(policy, sys.db, sys.out, [pc])
  }

  lemma CarryIsMoves(policy: Policy, w: W.World, steps: seq<W.Step>, sys: System, frm: State, d: Decision, now: int)
    requires C.Runs(w, steps) && C.Exec(w, steps) == Lone(policy, sys, W.Next(d)) && S.Shape(sys.out.sim)
    ensures C.Runs(w, steps + Moves(sys.db, d, now))
    ensures C.Exec(w, steps + Moves(sys.db, d, now)) == Lone(policy, Carry(sys, frm, d, now).0, W.Idle)
  {
    if d.Raise? {
      assert steps + [] == steps;
    } else {
      C.Extend(w, steps, Moves(sys.db, d, now)[0]);
    }
  }

  lemma ReadsFirst(policy: Policy, sys: System, id: IntentId)
    requires S.Shape(sys.out.sim) && id in sys.db.intents && Driven(sys.db.intents[id].state)
    ensures var w := Lone(policy, sys, W.Idle);
            C.Runs(w, [W.Read(0, id)])
            && C.Exec(w, [W.Read(0, id)]) == Lone(policy, sys, W.Seen(id, sys.db.intents[id]))
  {
    C.Extend(Lone(policy, sys, W.Idle), [], W.Read(0, id));
    assert [] + [W.Read(0, id)] == [W.Read(0, id)];
  }

  /** Everything proved of interleaved workers therefore holds of the engine's own step. */
  lemma StepIsARun(policy: Policy, sys: System, id: IntentId, now: int, fault: Fault)
    requires S.Shape(sys.out.sim)
    ensures var w := Lone(policy, sys, W.Idle); var script := Script(sys, policy, id, now, fault);
            && C.Runs(w, script)
            && C.Exec(w, script) == Lone(policy, Step(sys, policy, id, now, fault).0, W.Idle)
  {
    if id in sys.db.intents {
      match sys.db.intents[id].state
      case DepositConfirmed => SubmitIsARun(policy, sys, id, now, fault);
      case Bridging => PollIsARun(policy, sys, id, now, fault);
      case Bridged => EnterIsARun(policy, sys, id, now, fault);
      case Funding => FundIsARun(policy, sys, id, now, fault);
      case _ =>
    }
  }

  lemma SubmitIsARun(policy: Policy, sys: System, id: IntentId, now: int, fault: Fault)
    requires S.Shape(sys.out.sim) && id in sys.db.intents && sys.db.intents[id].state == DepositConfirmed
    ensures var w := Lone(policy, sys, W.Idle); var script := Script(sys, policy, id, now, fault);
            && C.Runs(w, script)
            && C.Exec(w, script) == Lone(policy, Step(sys, policy, id, now, fault).0, W.Idle)
  {
    var w := Lone(policy, sys, W.Idle);
    var i := sys.db.intents[id];
    var (out, answer) := CallSubmit(sys.out, policy, id, i, now, fault);
    ReadsFirst(policy, sys, id);
    C.Extend(w, [W.Read(0, id)], W.SubmitOrder(0, now, fault));
    assert [W.Read(0, id)] + [W.SubmitOrder(0, now, fault)] == [W.Read(0, id), W.SubmitOrder(0, now, fault)];
    CarryIsMoves(policy, w, [W.Read(0, id), W.SubmitOrder(0, now, fault)], sys.(out := out), i.state,
                 OnSubmit(policy, id, i, answer), now);
  }

  lemma PollIsARun(policy: Policy, sys: System, id: IntentId, now: int, fault: Fault)
    requires S.Shape(sys.out.sim) && id in sys.db.intents && sys.db.intents[id].state == Bridging
    ensures var w := Lone(policy, sys, W.Idle); var script := Script(sys, policy, id, now, fault);
            && C.Runs(w, script)
            && C.Exec(w, script) == Lone(policy, Step(sys, policy, id, now, fault).0, W.Idle)
  {
    var w := Lone(policy, sys, W.Idle);
    ReadsFirst(policy, sys, id);
    C.Extend(w, [W.Read(0, id)], W.PollBridge(0, now, fault));
    assert [W.Read(0, id)] + [W.PollBridge(0, now, fault)] == [W.Read(0, id), W.PollBridge(0, now, fault)];
    CarryIsMoves(policy, w, [W.Read(0, id), W.PollBridge(0, now, fault)], sys, sys.db.intents[id].state,
                 PollDecision(sys, policy, id, now, fault), now);
  }

  lemma FundIsARun(policy: Policy, sys: System, id: IntentId, now: int, fault: Fault)
    requires S.Shape(sys.out.sim) && id in sys.db.intents && sys.db.intents[id].state == Funding
    ensures var w := Lone(policy, sys, W.Idle); var script := Script(sys, policy, id, now, fault);
            && C.Runs(w, script)
            && C.Exec(w, script) == Lone(policy, Step(sys, policy, id, now, fault).0, W.Idle)
  {
    var w := Lone(policy, sys, W.Idle);
    var i := sys.db.intents[id];
    var (out, answer) := CallFund(sys.out, id, i, fault);
    W.CallFundOnItsOwnTerms(sys.out, id, i, fault);
    ReadsFirst(policy, sys, id);
    C.Extend(w, [W.Read(0, id)], W.FundCard(0, fault));
    assert [W.Read(0, id)] + [W.FundCard(0, fault)] == [W.Read(0, id), W.FundCard(0, fault)];
    CarryIsMoves(policy, w, [W.Read(0, id), W.FundCard(0, fault)], System(sys.db, out), i.state,
                 OnFund(policy, id, i, answer), now);
  }

  lemma EnterIsARun(policy: Policy, sys: System, id: IntentId, now: int, fault: Fault)
    requires S.Shape(sys.out.sim) && id in sys.db.intents && sys.db.intents[id].state == Bridged
    ensures var w := Lone(policy, sys, W.Idle); var script := Script(sys, policy, id, now, fault);
            && C.Runs(w, script)
            && C.Exec(w, script) == Lone(policy, Step(sys, policy, id, now, fault).0, W.Idle)
  {
    var w := Lone(policy, sys, W.Idle);
    var hit := Taken(sys.db.ledger, HopKey(id, Funding));
    var (db, entered) := Advance(sys.db, Entering(id), now);
    ReadsFirst(policy, sys, id);
    C.Extend(w, [W.Read(0, id)], W.Enter(0, now, hit));
    var two := [W.Read(0, id), W.Enter(0, now, hit)];
    assert [W.Read(0, id)] + [W.Enter(0, now, hit)] == two;
    assert entered.Returned();
    assert C.Exec(w, two) == Lone(policy, System(db, sys.out), W.Entered(id, entered.intent));
    var (out, answer) := CallFund(sys.out, id, entered.intent, fault);
    W.CallFundOnItsOwnTerms(sys.out, id, entered.intent, fault);
    C.Extend(w, two, W.FundCard(0, fault));
    var d := OnFund(policy, id, entered.intent, answer);
    CarryIsMoves(policy, w, two + [W.FundCard(0, fault)], System(db, out), Bridged, d, now);
    assert two + [W.FundCard(0, fault)] + Moves(db, d, now) == two + ([W.FundCard(0, fault)] + Moves(db, d, now));
  }
}
