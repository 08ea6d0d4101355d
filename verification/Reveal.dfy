/** Single-use reveal tokens: redeemed by one atomic take, with a marker left for replays. */
module Reveal {
  import opened Basics

  type Token = string

  datatype Grant = Grant(provider: string, card: string)

  datatype Answer = Granted(grant: Grant) | Replayed(grant: Grant) | Unknown

  /** A redeem between its calls: the token taken and its marker still to write, or the token
      not found and the marker still to look for. */
  datatype Pc =
    | Idle
    | Took(token: Token, grant: Grant)
    | Missed(token: Token)

  /** `answered` is every answer ever given, with the token it was for. */
  datatype World = World(
    live: map<Token, Grant>, spent: map<Token, Grant>, minted: map<Token, Grant>,
    answered: seq<(Token, Answer)>, pcs: seq<Pc>)

  datatype Step =
    | Mint(token: Token, grant: Grant)
    | Take(p: nat, token: Token)
    | Mark(p: nat)
    | Recall(p: nat)
    | Crash(p: nat)
    | ExpireToken(token: Token)
    | ExpireMarker(token: Token)

  predicate Can(w: World, s: Step) {
    match s
    // a fresh token is random, so it is never one minted before
    case Mint(token, _) => token !in w.minted
    case Take(p, _) => p < |w.pcs| && w.pcs[p].Idle?
    case Mark(p) => p < |w.pcs| && w.pcs[p].Took?
    case Recall(p) => p < |w.pcs| && w.pcs[p].Missed?
    case Crash(p) => p < |w.pcs|
    case ExpireToken(_) => true
    case ExpireMarker(_) => true
  }

  function Do(w: World, s: Step): World
    requires Can(w, s)
  {
    match s
    case Mint(token, grant) => w.(live := w.live[token := grant], minted := w.minted[token := grant])
    case Take(p, token) =>
      if token in w.live then w.(live := w.live - {token}, pcs := w.pcs[p := Took(token, w.live[token])])
      else w.(pcs := w.pcs[p := Missed(token)])
    case Mark(p) =>
      var pc := w.pcs[p];
      w.(spent := w.spent[pc.token := pc.grant], answered := w.answered + [(pc.token, Granted(pc.grant))],
         pcs := w.pcs[p := Idle])
    case Recall(p) =>
      var token := w.pcs[p].token;
      var answer := if token in w.spent then Replayed(w.spent[token]) else Unknown;
      w.(answered := w.answered + [(token, answer)], pcs := w.pcs[p := Idle])
    case Crash(p) => w.(pcs := w.pcs[p := Idle])
    case ExpireToken(token) => w.(live := w.live - {token})
    case ExpireMarker(token) => w.(spent := w.spent - {token})
  }

  ghost predicate Runs(w: World, steps: seq<Step>)
    decreases |steps|
  {
    steps == [] || (Can(w, steps[0]) && Runs(Do(w, steps[0]), steps[1..]))
  }

  ghost function Exec(w: World, steps: seq<Step>): World
    requires Runs(w, steps)
    decreases |steps|
  {
    if steps == [] then w else Exec(Do(w, steps[0]), steps[1..])
  }

  predicate GrantedAt(w: World, k: nat, token: Token) {
    k < |w.answered| && w.answered[k].0 == token && w.answered[k].1.Granted?
  }

  /** A token is in one place at a time: live, in one worker's hand, or granted once. */
  ghost predicate Inv(w: World) {
    && (forall t :: t in w.live ==> t in w.minted && w.live[t] == w.minted[t])
    && (forall p :: 0 <= p < |w.pcs| && w.pcs[p].Took? ==>
          && w.pcs[p].token !in w.live && w.pcs[p].token in w.minted && w.pcs[p].grant == w.minted[w.pcs[p].token]
          && forall k: nat :: !GrantedAt(w, k, w.pcs[p].token))
    && (forall p, q :: 0 <= p < q < |w.pcs| && w.pcs[p].Took? && w.pcs[q].Took? ==> w.pcs[p].token != w.pcs[q].token)
    && (forall k :: 0 <= k < |w.answered| && w.answered[k].1.Granted? ==>
          && w.answered[k].0 !in w.live && w.answered[k].0 in w.minted
          && w.answered[k].1.grant == w.minted[w.answered[k].0])
    && (forall k, l :: 0 <= k < l < |w.answered| && w.answered[k].1.Granted? && w.answered[l].1.Granted? ==>
          w.answered[k].0 != w.answered[l].0)
    && (forall t :: t in w.spent ==> exists k: nat :: GrantedAt(w, k, t) && w.answered[k].1.grant == w.spent[t])
    && (forall k :: 0 <= k < |w.answered| && w.answered[k].1.Replayed? ==>
          exists j: nat :: j < k && GrantedAt(w, j, w.answered[k].0) && w.answered[j].1.grant == w.answered[k].1.grant)
  }

  lemma TakeKeepsInv(w: World, p: nat, token: Token)
    requires Inv(w) && Can(w, Take(p, token))
    ensures Inv(Do(w, Take(p, token)))
  {
    var v := Do(w, Take(p, token));
    assert forall k: nat, t :: GrantedAt(v, k, t) <==> GrantedAt(w, k, t);
  }

  lemma MarkKeepsInv(w: World, p: nat)
    requires Inv(w) && Can(w, Mark(p))
    ensures Inv(Do(w, Mark(p)))
  {
    var v, pc := Do(w, Mark(p)), w.pcs[p];
    assert forall k: nat, t :: GrantedAt(w, k, t) ==> GrantedAt(v, k, t) && v.answered[k] == w.answered[k];
    assert GrantedAt(v, |w.answered|, pc.token);
    assert forall k: nat, t :: GrantedAt(v, k, t) ==> GrantedAt(w, k, t) || t == pc.token;
    forall k, l | 0 <= k < l < |v.answered| && v.answered[k].1.Granted? && v.answered[l].1.Granted?
      ensures v.answered[k].0 != v.answered[l].0
    {
      assert GrantedAt(w, k, v.answered[k].0);
    }
  }

  lemma RecallKeepsInv(w: World, p: nat)
    requires Inv(w) && Can(w, Recall(p))
    ensures Inv(Do(w, Recall(p)))
  {
    var v := Do(w, Recall(p));
    assert forall k: nat, t :: GrantedAt(w, k, t) <==> GrantedAt(v, k, t);
    assert forall k: nat, t :: GrantedAt(w, k, t) ==> v.answered[k] == w.answered[k];
  }

  lemma SameAnswersKeepInv(w: World, v: World)
    requires Inv(w) && v.answered == w.answered && |v.pcs| == |w.pcs|
    requires forall p :: 0 <= p < |w.pcs| && v.pcs[p].Took? ==> v.pcs[p] == w.pcs[p]
    requires forall t :: t in w.minted ==> t in v.minted && v.minted[t] == w.minted[t]
    requires forall t :: t in v.live ==> (t in w.live || t !in w.minted) && t in v.minted && v.live[t] == v.minted[t]
    requires forall t :: t in v.spent ==> t in w.spent && v.spent[t] == w.spent[t]
    ensures Inv(v)
  {
    assert forall k: nat, t :: GrantedAt(v, k, t) <==> GrantedAt(w, k, t);
  }

  lemma StepKeepsInv(w: World, s: Step)
    requires Inv(w) && Can(w, s)
    ensures Inv(Do(w, s)) && w.answered <= Do(w, s).answered
  {
    match s
    case Take(p, token) => TakeKeepsInv(w, p, token);
    case Mark(p) => MarkKeepsInv(w, p);
    case Recall(p) => RecallKeepsInv(w, p);
    case _ => SameAnswersKeepInv(w, Do(w, s));
  }

  lemma {:induction false} RunKeepsInv(w: World, steps: seq<Step>)
    requires Inv(w) && Runs(w, steps)
    ensures Inv(Exec(w, steps)) && w.answered <= Exec(w, steps).answered
    decreases |steps|
  {
    if steps != [] {
      StepKeepsInv(w, steps[0]);
      RunKeepsInv(Do(w, steps[0]), steps[1..]);
    }
  }

  function Start(workers: nat): World {
    World(map[], map[], map[], [], seq(workers, _ => Idle))
  }

  /** However redeems interleave, crash and race expiry: a token is granted at most once, only if
      it was minted and for what it was minted, and a replay is only ever reported of a token
      already granted, naming the same card. */
  lemma GrantedAtMostOnce(workers: nat, steps: seq<Step>, token: Token)
    requires Runs(Start(workers), steps)
    ensures var v := Exec(Start(workers), steps);
            && (forall k: nat, l: nat :: GrantedAt(v, k, token) && GrantedAt(v, l, token) ==> k == l)
            && (forall k: nat :: GrantedAt(v, k, token) ==>
                  token in v.minted && v.answered[k].1.grant == v.minted[token])
            && (forall k: nat :: k < |v.answered| && v.answered[k].0 == token && v.answered[k].1.Replayed? ==>
                  exists j: nat :: j < k && GrantedAt(v, j, token) && v.answered[j].1.grant == v.answered[k].1.grant)
  {
    RunKeepsInv(Start(workers), steps);
    var v := Exec(Start(workers), steps);
    forall k: nat, l: nat | GrantedAt(v, k, token) && GrantedAt(v, l, token) ensures k == l {
      assert v.answered[k].0 == v.answered[l].0;
    }
  }

  predicate Takes(pc: Pc, token: Token) {
    pc.Took? && pc.token == token
  }

  predicate InHand(w: World, token: Token) {
    exists p :: 0 <= p < |w.pcs| && Takes(w.pcs[p], token)
  }

  ghost predicate EverGranted(w: World, token: Token) {
    exists k: nat :: GrantedAt(w, k, token)
  }

  /** Minted, and then neither live, nor in anyone's hand, nor ever granted. */
  ghost predicate Wasted(w: World, token: Token) {
    token in w.minted && token !in w.live && !InHand(w, token) && !EverGranted(w, token)
  }

  /** The two ways there: its own deadline, or a redeem that dies after the take. */
  predicate Wastes(w: World, s: Step, token: Token)
    requires Can(w, s)
  {
    (s.ExpireToken? && s.token == token && token in w.live) || (s.Crash? && Takes(w.pcs[s.p], token))
  }

  lemma GrantStays(w: World, s: Step, token: Token)
    requires Can(w, s) && EverGranted(w, token)
    ensures EverGranted(Do(w, s), token)
  {
    var k: nat :| GrantedAt(w, k, token);
    assert GrantedAt(Do(w, s), k, token);
  }

  lemma NewGrantWasTaken(w: World, s: Step, token: Token)
    requires Can(w, s) && !EverGranted(w, token) && EverGranted(Do(w, s), token)
    ensures s.Mark? && Takes(w.pcs[s.p], token)
  {
    var k: nat :| GrantedAt(Do(w, s), k, token);
    assert !GrantedAt(w, k, token);
  }

  lemma HandMoves(w: World, s: Step, token: Token)
    requires Can(w, s) && InHand(w, token) && !Wastes(w, s, token)
    ensures InHand(Do(w, s), token) || EverGranted(Do(w, s), token)
  {
    var p :| 0 <= p < |w.pcs| && Takes(w.pcs[p], token);
    if s.Mark? && s.p == p {
      assert GrantedAt(Do(w, s), |w.answered|, token);
    } else {
      assert Takes(Do(w, s).pcs[p], token);
    }
  }

  lemma LiveMoves(w: World, s: Step, token: Token)
    requires Can(w, s) && token in w.live && !Wastes(w, s, token)
    ensures token in Do(w, s).live || InHand(Do(w, s), token)
  {
    if s.Take? && s.token == token {
      assert Takes(Do(w, s).pcs[s.p], token);
    }
  }

  lemma WastingWastes(w: World, s: Step, token: Token)
    requires Inv(w) && Can(w, s) && Wastes(w, s, token)
    ensures Wasted(Do(w, s), token)
  {
    var v := Do(w, s);
    forall q | 0 <= q < |v.pcs| ensures !Takes(v.pcs[q], token) {
      assert v.pcs[q] == w.pcs[q] || v.pcs[q] == Idle;
    }
    forall k: nat ensures !GrantedAt(v, k, token) {
      assert GrantedAt(v, k, token) <==> GrantedAt(w, k, token);
    }
  }

  lemma WastedStays(w: World, s: Step, token: Token)
    requires Can(w, s) && Wasted(w, token)
    ensures Wasted(Do(w, s), token)
  {
    var v := Do(w, s);
    forall q | 0 <= q < |v.pcs| ensures !Takes(v.pcs[q], token) {
      assert !Takes(w.pcs[q], token);
    }
    if EverGranted(v, token) {
      NewGrantWasTaken(w, s, token);
    }
  }

  /** A token is wasted by exactly those two steps, and once it is, for good. */
  lemma StepWastesExactly(w: World, s: Step, token: Token)
    requires Inv(w) && Can(w, s)
    ensures Wasted(Do(w, s), token) <==> Wasted(w, token) || Wastes(w, s, token)
  {
    if Wasted(w, token) {
      WastedStays(w, s, token);
    } else if Wastes(w, s, token) {
      WastingWastes(w, s, token);
    } else if token in w.minted {
      if EverGranted(w, token) {
        GrantStays(w, s, token);
      } else if InHand(w, token) {
        HandMoves(w, s, token);
      } else {
        LiveMoves(w, s, token);
      }
    }
  }

  ghost predicate WastedOnTheWay(w: World, steps: seq<Step>, token: Token)
    requires Runs(w, steps)
    decreases |steps|
  {
    steps != [] && (Wastes(w, steps[0], token) || WastedOnTheWay(Do(w, steps[0]), steps[1..], token))
  }

  lemma {:induction false} RunWastesExactly(w: World, steps: seq<Step>, token: Token)
    requires Inv(w) && Runs(w, steps)
    ensures Wasted(Exec(w, steps), token) <==> Wasted(w, token) || WastedOnTheWay(w, steps, token)
    decreases |steps|
  {
    if steps != [] {
      StepKeepsInv(w, steps[0]);
      StepWastesExactly(w, steps[0], token);
      RunWastesExactly(Do(w, steps[0]), steps[1..], token);
    }
  }

  /** In every run a token that was minted is still live, being redeemed or granted, exactly when
      its deadline did not come first and no redeem died holding it. */
  lemma GrantedUnlessWasted(workers: nat, steps: seq<Step>, token: Token)
    requires Runs(Start(workers), steps) && token in Exec(Start(workers), steps).minted
    ensures var v := Exec(Start(workers), steps);
            (token in v.live || InHand(v, token) || EverGranted(v, token))
            <==> !WastedOnTheWay(Start(workers), steps, token)
  {
    RunWastesExactly(Start(workers), steps, token);
  }

  /** A token that is wasted is granted in no later run. */
  lemma GoneForGood(w: World, steps: seq<Step>, token: Token)
    requires Inv(w) && Runs(w, steps) && Wasted(w, token)
    ensures Wasted(Exec(w, steps), token) && forall k: nat :: !GrantedAt(Exec(w, steps), k, token)
  {
    RunWastesExactly(w, steps, token);
  }

  /** A replay is told as one, naming the card, for as long as the marker lasts; then the token is
      merely unknown. */
  lemma ReplayIsToldWhileMarked(w: World, p: nat, token: Token)
    requires p < |w.pcs| && w.pcs[p].Idle? && token !in w.live
    ensures var v := Do(Do(w, Take(p, token)), Recall(p));
            v == w.(answered := w.answered
                                + [(token, if token in w.spent then Replayed(w.spent[token]) else Unknown)])
    ensures var x := Do(w, ExpireMarker(token));
            Do(Do(x, Take(p, token)), Recall(p)).answered == w.answered + [(token, Unknown)]
  {
    assert Do(Do(w, Take(p, token)), Recall(p)).pcs == w.pcs;
  }

  // ------------------------------------------------------------------- class

  class RevealTokenStore {
    var live: map<Token, Grant>
    var spent: map<Token, Grant>

    constructor ()
      ensures live == map[] && spent == map[]
    {
      live, spent := map[], map[];
    }

    method MintToken(token: Token, grant: Grant)
      modifies this`live
      ensures live == old(live)[token := grant]
    {
      live := live[token := grant];
    }

    function Alone(pc: Pc, minted: map<Token, Grant>, answered: seq<(Token, Answer)>): World
      reads this
    {
      World(live, spent, minted, answered, [pc])
    }

    /** One redeem with nobody in between: the take, then the marker or the look-up. */
    method Redeem(token: Token, ghost minted: map<Token, Grant>) returns (answer: Answer)
      modifies this
      ensures var w := old(Alone(Idle, minted, []));
              var taken := Do(w, Take(0, token));
              Alone(Idle, minted, [(token, answer)]) == Do(taken, if token in w.live then Mark(0) else Recall(0))
      ensures answer.Granted? <==> token in old(live)
      ensures answer.Replayed? <==> token !in old(live) && token in old(spent)
      ensures token !in live
    {
      if token !in live {
        answer := if token in spent then Replayed(spent[token]) else Unknown;
        assert [Missed(token)][0 := Idle] == [Idle];
        return;
      }
      var grant := live[token];
      live := live - {token};
      spent := spent[token := grant];
      answer := Granted(grant);
    }
  }
}
