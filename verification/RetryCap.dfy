/** How many retries an intent can accumulate when several workers step it at once. */
module RetryCap {
  import opened Basics
  import opened FundingStates
  import opened Ledger
  import opened Machine
  import opened Engine
  import opened Workers
  import opened Crediting
  import B = Bridge
  import S = Safe

  /** The worker still acts on a read of `id` that had retries left, or will retry it. */
  predicate Poised(pc: Pc, id: IntentId, max: nat) {
    match pc
    case Idle => false
    case Seen(i, snap) => i == id && snap.retryCount < max
    case Entered(i, snap) => i == id && snap.retryCount < max
    case Deciding(req) => req.intent == id && req.key.None?
  }

  function CountPoised(pcs: seq<Pc>, id: IntentId, max: nat): nat {
    if pcs == [] then 0
    else CountPoised(pcs[..|pcs| - 1], id, max) + if Poised(pcs[|pcs| - 1], id, max) then 1 else 0
  }

  lemma {:induction false} CountUpdate(pcs: seq<Pc>, p: nat, pc: Pc, id: IntentId, max: nat)
    requires p < |pcs|
    ensures CountPoised(pcs[p := pc], id, max) == CountPoised(pcs, id, max)
            - (if Poised(pcs[p], id, max) then 1 else 0) + (if Poised(pc, id, max) then 1 else 0)
  {
    var n := |pcs| - 1;
    if p == n {
      assert pcs[p := pc][..n] == pcs[..n];
    } else {
      CountUpdate(pcs[..n], p, pc, id, max);
      assert pcs[p := pc][..n] == pcs[..n][p := pc];
    }
  }

  lemma {:induction false} CountBounded(pcs: seq<Pc>, id: IntentId, max: nat)
    ensures CountPoised(pcs, id, max) <= |pcs|
    ensures (forall p :: 0 <= p < |pcs| ==> !Poised(pcs[p], id, max)) ==> CountPoised(pcs, id, max) == 0
    ensures (exists p :: 0 <= p < |pcs| && Poised(pcs[p], id, max)) ==> CountPoised(pcs, id, max) > 0
  {
    if pcs != [] {
      CountBounded(pcs[..|pcs| - 1], id, max);
    }
  }

  /** Retries made at or past the cap can only come from reads that were made before it. */
  predicate Capped(w: World, id: IntentId) {
    id in w.db.intents ==>
      var rc := w.db.intents[id].retryCount;
      rc < w.policy.maxRetries
      || rc + CountPoised(w.pcs, id, w.policy.maxRetries) < w.policy.maxRetries + |w.pcs|
  }

  /** Only a retry adds to the count, and its worker is no longer poised afterwards. */
  lemma OnlyRetriesCount(w: World, s: Step, id: IntentId)
    requires Inv(w) && Can(w, s) && id in w.db.intents
    ensures var v := Do(w, s);
            && id in v.db.intents
            && (v.db.intents[id].retryCount == w.db.intents[id].retryCount
                || (s.Move? && w.pcs[s.p].Deciding? && w.pcs[s.p].req.intent == id && w.pcs[s.p].req.key.None?
                    && v.db.intents[id].retryCount == w.db.intents[id].retryCount + 1))
  {
    match s
    case Enter(p, now, hit) =>
      assert PcOk(w, w.pcs[p]);
      HopCounts(w, Entering(w.pcs[p].id), now, id);
    case Move(p, now, hit) =>
      assert PcOk(w, w.pcs[p]);
      HopCounts(w, w.pcs[p].req, now, id);
    case Elsewhere(req, at, _) =>
      HopCounts(w, req, at, id);
    case _ =>
  }

  lemma HopCounts(w: World, req: Request, now: int, id: IntentId)
    requires Inv(w) && HopOk(w, req) && id in w.db.intents
    ensures var v := Hopping(w, req, now);
            && id in v.db.intents
            && (v.db.intents[id].retryCount == w.db.intents[id].retryCount
                || (req.intent == id && req.key.None?
                    && v.db.intents[id].retryCount == w.db.intents[id].retryCount + 1))
  {
    assert IntentOk(w, req.intent);
    if Apply(w.db, req, now).1.Applied? {
      CommittedHop(w, req, now);
    }
  }

  lemma DecisionPoised(
    policy: Policy, id: IntentId, i: Intent, a: Answer<string>, b: Answer<B.Transfer>, c: Answer<Credit>)
    ensures forall x :: Poised(Next(OnSubmit(policy, id, i, a)), x, policy.maxRetries)
              || Poised(Next(OnStatus(policy, id, i, b)), x, policy.maxRetries)
              || Poised(Next(OnFund(policy, id, i, c)), x, policy.maxRetries)
              || Poised(Next(GiveUp(id, i, "in BRIDGING with no bridge reference")), x, policy.maxRetries)
              ==> x == id && i.retryCount < policy.maxRetries
  {}

  /** Nobody becomes poised except by reading an intent that has retries left. */
  lemma PoisedOnlyByReading(w: World, s: Step, id: IntentId)
    requires Inv(w) && Can(w, s)
    ensures var v := Do(w, s); var max := w.policy.maxRetries;
            && |v.pcs| == |w.pcs|
            && (v.pcs == w.pcs
                || exists p :: 0 <= p < |w.pcs| && v.pcs == w.pcs[p := v.pcs[p]]
                     && (s.Move? ==> s.p == p && v.pcs[p] == Idle)
                     && (Poised(v.pcs[p], id, max) && !Poised(w.pcs[p], id, max) ==>
                           id in w.db.intents && w.db.intents[id].retryCount < max))
  {
    match s
    case Read(p, i) => assert Do(w, s).pcs == w.pcs[p := Do(w, s).pcs[p]];
    case SubmitOrder(p, now, fault) =>
      var answer := CallSubmit(w.out, w.policy, w.pcs[p].id, w.pcs[p].snap, now, fault).1;
      DecisionPoised(w.policy, w.pcs[p].id, w.pcs[p].snap, answer, Troubled(Foreign), Troubled(Foreign));
      assert Do(w, s).pcs == w.pcs[p := Do(w, s).pcs[p]];
    case PollBridge(p, now, fault) =>
      PollPoised(w, p, now, fault, id);
      assert Do(w, s).pcs == w.pcs[p := Do(w, s).pcs[p]];
    case Enter(p, now, hit) =>
      EnterPoised(w, p, now, hit, id);
      assert Do(w, s).pcs == w.pcs[p := Do(w, s).pcs[p]];
    case FundCard(p, fault) =>
      var answer := CallFund(w.out, w.pcs[p].id, w.pcs[p].snap, fault).1;
      DecisionPoised(w.policy, w.pcs[p].id, w.pcs[p].snap, Troubled(Foreign), Troubled(Foreign), answer);
      assert Do(w, s).pcs == w.pcs[p := Do(w, s).pcs[p]];
    case Move(p, now, hit) => assert Do(w, s).pcs == w.pcs[p := Idle];
    case Crash(p) => assert Do(w, s).pcs == w.pcs[p := Idle];
    case _ => assert Do(w, s).pcs == w.pcs;
  }

  lemma PollPoised(w: World, p: nat, now: int, fault: Fault, id: IntentId)
    requires Can(w, PollBridge(p, now, fault))
    ensures Poised(Next(Polled(w, w.pcs[p].id, w.pcs[p].snap, now, fault)), id, w.policy.maxRetries) ==>
              Poised(w.pcs[p], id, w.policy.maxRetries)
  {
    var snap := w.pcs[p].snap;
    var answer := if snap.bridgeRef.None? then Troubled(Foreign)
                  else CallStatus(w.out, snap.bridgeRef.value, now, fault);
    DecisionPoised(w.policy, w.pcs[p].id, snap, Troubled(Foreign), answer, Troubled(Foreign));
  }

  lemma EnterPoised(w: World, p: nat, now: int, hit: bool, id: IntentId)
    requires Inv(w) && Can(w, Enter(p, now, hit))
    ensures var v := Do(w, Enter(p, now, hit)); var max := w.policy.maxRetries;
            Poised(v.pcs[p], id, max) ==> id in w.db.intents && w.db.intents[id].retryCount < max
  {
    assert PcOk(w, w.pcs[p]);
    HopCounts(w, Entering(w.pcs[p].id), now, w.pcs[p].id);
  }

  lemma StepKeepsCap(w: World, s: Step, id: IntentId)
    requires Inv(w) && Can(w, s) && Capped(w, id) && |w.pcs| > 0
    ensures Capped(Do(w, s), id)
  {
    var v := Do(w, s);
    var max := w.policy.maxRetries;
    PoisedOnlyByReading(w, s, id);
    if id in w.db.intents {
      OnlyRetriesCount(w, s, id);
      if v.pcs != w.pcs {
        var p :| 0 <= p < |w.pcs| && v.pcs == w.pcs[p := v.pcs[p]]
                 && (s.Move? ==> s.p == p && v.pcs[p] == Idle)
                 && (Poised(v.pcs[p], id, max) && !Poised(w.pcs[p], id, max) ==>
                       id in w.db.intents && w.db.intents[id].retryCount < max);
        CountUpdate(w.pcs, p, v.pcs[p], id, max);
      }
      CountBounded(w.pcs, id, max);
    } else if id in v.db.intents {
      NobodyKnowsNewIntent(w, id);
      CountBounded(w.pcs, id, max);
      assert v.pcs == w.pcs;
    }
  }

  lemma NobodyKnowsNewIntent(w: World, id: IntentId)
    requires Inv(w) && id !in w.db.intents
    ensures forall p :: 0 <= p < |w.pcs| ==> !Poised(w.pcs[p], id, w.policy.maxRetries)
  {
    forall p | 0 <= p < |w.pcs| ensures !Poised(w.pcs[p], id, w.policy.maxRetries) {
      assert PcOk(w, w.pcs[p]);
    }
  }

  lemma {:induction false} RunKeepsCap(w: World, steps: seq<Step>, id: IntentId)
    requires Safe(w) && Runs(w, steps) && Capped(w, id) && |w.pcs| > 0
    ensures Capped(Exec(w, steps), id)
    ensures Exec(w, steps).policy == w.policy && |Exec(w, steps).pcs| == |w.pcs|
    decreases |steps|
  {
    if steps != [] {
      StepKeepsSafe(w, steps[0]);
      StepKeepsCap(w, steps[0], id);
      PoisedOnlyByReading(w, steps[0], id);
      RunKeepsCap(Do(w, steps[0]), steps[1..], id);
    }
  }

  /** With W workers no intent is ever retried more than `maxRetries + W - 1` times; with one,
      never more than `maxRetries`. */
  lemma RetryCapUnderConcurrency(policy: Policy, bridge: B.BridgeState, workers: nat, steps: seq<Step>, id: IntentId)
    requires workers > 0 && Runs(Start(policy, bridge, workers), steps)
    ensures var v := Exec(Start(policy, bridge, workers), steps);
            id in v.db.intents ==> v.db.intents[id].retryCount <= policy.maxRetries + workers - 1
  {
    var w := Start(policy, bridge, workers);
    StartIsSafe(policy, bridge, workers);
    RunKeepsCap(w, steps, id);
  }

  // ---------------------------------------------------- no retries at all

  /** With no retries allowed nobody is ever about to make one. */
  ghost predicate NeverRetried(w: World, id: IntentId) {
    && w.policy.maxRetries == 0
    && (forall p :: 0 <= p < |w.pcs| ==> !Poised(w.pcs[p], id, 0))
    && (id in w.db.intents ==> w.db.intents[id].retryCount == 0)
  }

  lemma StepNeverRetries(w: World, s: Step, id: IntentId)
    requires Inv(w) && Can(w, s) && NeverRetried(w, id)
    ensures NeverRetried(Do(w, s), id)
  {
    PoisedOnlyByReading(w, s, id);
    if id in w.db.intents {
      OnlyRetriesCount(w, s, id);
      if s.Move? {
        assert !Poised(w.pcs[s.p], id, 0);
      }
    }
  }

  lemma {:induction false} RunNeverRetries(w: World, steps: seq<Step>, id: IntentId)
    requires Safe(w) && Runs(w, steps) && NeverRetried(w, id)
    ensures NeverRetried(Exec(w, steps), id)
    decreases |steps|
  {
    if steps != [] {
      StepKeepsSafe(w, steps[0]);
      StepNeverRetries(w, steps[0], id);
      RunNeverRetries(Do(w, steps[0]), steps[1..], id);
    }
  }

  // ------------------------------------------------------- the bound is reached

  // One worker retries an intent until one retry is left; then all of them read it, all are
  // told to come back later, and all come back.

  const TRIED := Opening("i", Card(PROVIDER, "c"), Money(100, "USD"), Some("s"), Some(DepositKey("s")))
  const CONFIRMING := Request("i", DepositConfirmed, None, NO_UPDATES, Some(ConfirmKey("s")))
  const AGAIN := Request("i", DepositConfirmed, Some("transient"), NO_UPDATES, None)

  /** The intent waits for the bridge after `n` retries. */
  ghost predicate Waiting(w: World, n: nat) {
    && S.Shape(w.out.sim) && "i" in w.db.intents
    && w.db.intents["i"].state == DepositConfirmed && w.db.intents["i"].retryCount == n
  }

  ghost predicate AllIdle(w: World) {
    forall p :: 0 <= p < |w.pcs| ==> w.pcs[p] == Idle
  }

  lemma Begins(policy: Policy, bridge: B.BridgeState, workers: nat) returns (steps: seq<Step>)
    ensures var w := Start(policy, bridge, workers);
            && Runs(w, steps) && Waiting(Exec(w, steps), 0) && AllIdle(Exec(w, steps))
            && Exec(w, steps).policy == policy && |Exec(w, steps).pcs| == workers
  {
    var w := Start(policy, bridge, workers);
    var open, confirm := OpenIntent(TRIED, 0), Elsewhere(CONFIRMING, 0, false);
    var w1 := Do(w, open);
    AppendRow([], CreatedRow("i", TRIED.card, TRIED.amount, TRIED.depositRef, 0, TRIED.key));
    assert !Taken(w1.db.ledger, ConfirmKey("s"));
    Extend(w, [], open);
    assert [] + [open] == [open];
    Extend(w, [open], confirm);
    steps := [open] + [confirm];
  }

  lemma ReadStep(w: World, p: nat, n: nat)
    requires Waiting(w, n) && p < |w.pcs| && w.pcs[p] == Idle
    ensures Can(w, Read(p, "i")) && Do(w, Read(p, "i")) == w.(pcs := w.pcs[p := Seen("i", w.db.intents["i"])])
  {}

  lemma FailStep(w: World, p: nat, snap: Intent)
    requires S.Shape(w.out.sim) && p < |w.pcs| && w.pcs[p] == Seen("i", snap)
    requires snap.state == DepositConfirmed && snap.retryCount < w.policy.maxRetries
    ensures var s := SubmitOrder(p, 0, Down(Transient));
            Can(w, s) && Do(w, s) == w.(pcs := w.pcs[p := Deciding(AGAIN)])
  {}

  lemma RetryStep(w: World, p: nat, n: nat)
    requires Waiting(w, n) && p < |w.pcs| && w.pcs[p] == Deciding(AGAIN)
    ensures var s := Move(p, 0, false); var v := Do(w, s);
            && Can(w, s) && Waiting(v, n + 1) && v.pcs == w.pcs[p := Idle] && v.policy == w.policy
  {}

  lemma {:induction false} RetriesAlone(w: World, from: nat, more: nat) returns (steps: seq<Step>)
    requires Waiting(w, from) && AllIdle(w) && |w.pcs| > 0 && from + more <= w.policy.maxRetries
    ensures Runs(w, steps) && Waiting(Exec(w, steps), from + more)
    ensures Exec(w, steps).pcs == w.pcs && Exec(w, steps).policy == w.policy
    decreases more
  {
    steps := [];
    if more > 0 {
      var read, fail, move := Read(0, "i"), SubmitOrder(0, 0, Down(Transient)), Move(0, 0, false);
      ReadStep(w, 0, from);
      var w1 := Do(w, read);
      FailStep(w1, 0, w.db.intents["i"]);
      var w2 := Do(w1, fail);
      RetryStep(w2, 0, from);
      var w3 := Do(w2, move);
      assert w3.pcs == w.pcs;
      Extend(w, [], read);
      assert [] + [read] == [read];
      Extend(w, [read], fail);
      Extend(w, [read] + [fail], move);
      var rest := RetriesAlone(w3, from + 1, more - 1);
      Join(w, [read] + [fail] + [move], rest);
      steps := [read] + [fail] + [move] + rest;
    }
  }

  /** Workers `0..k` hold `held`; the rest are as they were. */
  ghost predicate FirstHold(w: World, k: nat, held: Pc, rest: Pc) {
    k <= |w.pcs| && (forall p :: 0 <= p < k ==> w.pcs[p] == held) && forall p :: k <= p < |w.pcs| ==> w.pcs[p] == rest
  }

  lemma {:induction false} AllRead(w: World, k: nat, n: nat) returns (steps: seq<Step>)
    requires Waiting(w, n) && FirstHold(w, k, Seen("i", w.db.intents["i"]), Idle)
    ensures Runs(w, steps)
    ensures var v := Exec(w, steps);
            && v == w.(pcs := v.pcs) && |v.pcs| == |w.pcs|
            && FirstHold(v, |v.pcs|, Seen("i", w.db.intents["i"]), Idle)
    decreases |w.pcs| - k
  {
    steps := [];
    if k < |w.pcs| {
      ReadStep(w, k, n);
      Extend(w, [], Read(k, "i"));
      assert [] + [Read(k, "i")] == [Read(k, "i")];
      var rest := AllRead(Do(w, Read(k, "i")), k + 1, n);
      Join(w, [Read(k, "i")], rest);
      steps := [Read(k, "i")] + rest;
    }
  }

  lemma {:induction false} AllFail(w: World, k: nat, snap: Intent) returns (steps: seq<Step>)
    requires S.Shape(w.out.sim) && FirstHold(w, k, Deciding(AGAIN), Seen("i", snap))
    requires snap.state == DepositConfirmed && snap.retryCount < w.policy.maxRetries
    ensures Runs(w, steps)
    ensures var v := Exec(w, steps);
            && v == w.(pcs := v.pcs) && |v.pcs| == |w.pcs|
            && FirstHold(v, |v.pcs|, Deciding(AGAIN), Seen("i", snap))
    decreases |w.pcs| - k
  {
    steps := [];
    if k < |w.pcs| {
      var s := SubmitOrder(k, 0, Down(Transient));
      FailStep(w, k, snap);
      Extend(w, [], s);
      assert [] + [s] == [s];
      var rest := AllFail(Do(w, s), k + 1, snap);
      Join(w, [s], rest);
      steps := [s] + rest;
    }
  }

  lemma {:induction false} AllRetry(w: World, k: nat, n: nat) returns (steps: seq<Step>)
    requires Waiting(w, n) && FirstHold(w, k, Idle, Deciding(AGAIN))
    ensures Runs(w, steps) && Waiting(Exec(w, steps), n + |w.pcs| - k)
    decreases |w.pcs| - k
  {
    steps := [];
    if k < |w.pcs| {
      var s := Move(k, 0, false);
      RetryStep(w, k, n);
      Extend(w, [], s);
      assert [] + [s] == [s];
      var rest := AllRetry(Do(w, s), k + 1, n + 1);
      Join(w, [s], rest);
      steps := [s] + rest;
    }
  }

  /** For every policy that allows a retry, bridge and number of workers, some run reaches the
      bound. */
  lemma BoundIsReached(policy: Policy, bridge: B.BridgeState, workers: nat) returns (steps: seq<Step>)
    requires workers > 0 && policy.maxRetries > 0
    ensures Runs(Start(policy, bridge, workers), steps)
    ensures var v := Exec(Start(policy, bridge, workers), steps);
            "i" in v.db.intents && v.db.intents["i"].retryCount == policy.maxRetries + workers - 1
  {
    var w, last := Start(policy, bridge, workers), policy.maxRetries - 1;
    var begin := Begins(policy, bridge, workers);
    var w1 := Exec(w, begin);
    var alone := RetriesAlone(w1, 0, last);
    var w2 := Exec(w1, alone);
    var snap := w2.db.intents["i"];
    var read := AllRead(w2, 0, last);
    var w3 := Exec(w2, read);
    var fail := AllFail(w3, 0, snap);
    var w4 := Exec(w3, fail);
    var retry := AllRetry(w4, 0, last);
    Join(w3, fail, retry);
    Join(w2, read, fail + retry);
    Join(w1, alone, read + (fail + retry));
    Join(w, begin, alone + (read + (fail + retry)));
    steps := begin + (alone + (read + (fail + retry)));
  }

  /** No run of these workers retries an intent past the cap. */
  ghost predicate CapHolds(policy: Policy, bridge: B.BridgeState, workers: nat) {
    forall steps, id ::
      (Runs(Start(policy, bridge, workers), steps) && id in Exec(Start(policy, bridge, workers), steps).db.intents) ==>
        Exec(Start(policy, bridge, workers), steps).db.intents[id].retryCount <= policy.maxRetries
  }

  /** The cap on retries is a check each worker makes on what it read: it caps the intent exactly
      when one worker runs alone, or when no retry is allowed at all. */
  lemma CapHoldsExactly(policy: Policy, bridge: B.BridgeState, workers: nat)
    requires workers > 0
    ensures CapHolds(policy, bridge, workers) <==> workers == 1 || policy.maxRetries == 0
  {
    var w := Start(policy, bridge, workers);
    if workers == 1 || policy.maxRetries == 0 {
      StartIsSafe(policy, bridge, workers);
      forall steps, id | Runs(w, steps) && id in Exec(w, steps).db.intents
        ensures Exec(w, steps).db.intents[id].retryCount <= policy.maxRetries
      {
        if workers == 1 {
          RetryCapUnderConcurrency(policy, bridge, workers, steps, id);
        } else {
          RunNeverRetries(w, steps, id);
        }
      }
    } else {
      var steps := BoundIsReached(policy, bridge, workers);
      assert Exec(w, steps).db.intents["i"].retryCount > policy.maxRetries;
    }
  }
}
