/** Delivering challenges and answering them: the store, the ledger and the provider, in the
    order the service uses them, with a crash possible between any two. */
module OtpService {
  import opened Basics
  import opened OtpStore

  datatype Decision = Approve | Decline

  type ChallengeId = string

  /** The rows this service writes, each once per challenge. */
  datatype Entry =
    | Delivered(id: ChallengeId, derived: bool)
    | Undeliverable(id: ChallengeId)
    | Responded(id: ChallengeId, decision: Decision, delivered: bool)

  predicate SameKey(a: Entry, b: Entry) {
    match a
    case Delivered(id, _) => b.Delivered? && b.id == id
    case Undeliverable(id) => b.Undeliverable? && b.id == id
    case Responded(id, _, _) => b.Responded? && b.id == id
  }

  predicate OnFile(rows: seq<Entry>, e: Entry) {
    exists k :: 0 <= k < |rows| && SameKey(rows[k], e)
  }

  function RecordOnce(rows: seq<Entry>, e: Entry): seq<Entry> {
    if OnFile(rows, e) then rows else rows + [e]
  }

  /** Both say the same thing of their challenges. */
  predicate OfKind(e: Entry, like: Entry) {
    && (e.Delivered? <==> like.Delivered?) && (e.Undeliverable? <==> like.Undeliverable?)
    && (e.Responded? <==> like.Responded?)
  }

  /** A row is written exactly when its challenge has none of its kind; nothing else is touched. */
  lemma OneRowPerChallengeAndKind(rows: seq<Entry>, e: Entry)
    ensures RecordOnce(rows, e)
            == if exists k :: 0 <= k < |rows| && rows[k].id == e.id && OfKind(rows[k], e) then rows else rows + [e]
  {
    assert forall k :: 0 <= k < |rows| ==> (SameKey(rows[k], e) <==> rows[k].id == e.id && OfKind(rows[k], e));
  }

  // ---------------------------------------------------------------- deadline

  datatype Limits = Limits(ttl: nat, maxTtl: nat)

  /** The provider's own deadline wins when it names one; either way there is a ceiling. */
  function Deadline(named: Option<int>, now: int, limits: Limits): int {
    var ceiling := now + limits.maxTtl * TICKS;
    if named.None? then Min(now + limits.ttl * TICKS, ceiling) else Min(named.value, ceiling)
  }

  /** What a challenge event says; a retried one has lost its code. */
  datatype ChallengeEvent = ChallengeEvent(
    provider: string, eventId: string, challengeId: Option<string>, card: Option<string>,
    otp: Option<string>, expiresAt: Option<int>)

  function ChallengeFrom(e: ChallengeEvent, minted: string, now: int, limits: Limits): Challenge {
    Challenge(e.provider,
              if e.challengeId.Some? && e.challengeId.value != "" then e.challengeId.value else e.eventId,
              e.card,
              if e.otp.Some? && e.otp.value != "" then e.otp.value else minted,
              e.otp.None?,
              Deadline(e.expiresAt, now, limits))
  }

  /** No code outlives the ceiling, and none outlives the deadline its provider gave it, by a
      full second or more. */
  lemma NoCodeOutlivesItsDeadline(e: ChallengeEvent, minted: string, now: int, limits: Limits)
    ensures var c := ChallengeFrom(e, minted, now, limits); var until := now + c.SecondsLeft(now) * TICKS;
            && c.expiresAt <= now + limits.maxTtl * TICKS
            && (e.expiresAt.Some? ==> c.expiresAt <= e.expiresAt.value)
            && (now < c.expiresAt ==> c.expiresAt <= until < c.expiresAt + TICKS)
  {
    LifetimeCoversDeadline(ChallengeFrom(e, minted, now, limits), now);
  }

  predicate NamesCode(e: ChallengeEvent) {
    e.otp.Some? && |e.otp.value| > 0
  }

  predicate NamesChallenge(e: ChallengeEvent) {
    e.challengeId.Some? && |e.challengeId.value| > 0
  }

  /** What is stored for an event: its own code and challenge where it names them, a minted code
      and the delivery where it does not. A code that is named and empty is replaced like a missing
      one, and yet not said to be derived. */
  lemma ChallengeIsTheEvents(e: ChallengeEvent, minted: string, now: int, limits: Limits)
    ensures var c := ChallengeFrom(e, minted, now, limits);
            && c.provider == e.provider && c.card == e.card
            && (NamesCode(e) ==> e.otp == Some(c.code)) && (!NamesCode(e) ==> c.code == minted)
            && (NamesChallenge(e) ==> e.challengeId == Some(c.id)) && (!NamesChallenge(e) ==> c.id == e.eventId)
            && (c.derived <==> e.otp.None?)
            && (e.otp == Some("") ==> c.code == minted && !c.derived)
  {}

  /** The deadline is the earlier of the ceiling and of the provider's own, or of the usual one
      when the provider names none: no later than either, and one of the two. */
  lemma DeadlineIsTheEarlier(named: Option<int>, now: int, limits: Limits)
    ensures var d, ceiling := Deadline(named, now, limits), now + limits.maxTtl * TICKS;
            var own := if named.Some? then named.value else now + limits.ttl * TICKS;
            d <= ceiling && d <= own && (d == ceiling || d == own)
  {}

  // ---------------------------------------------------------------- delivery

  datatype Desk = Desk(store: Store, rows: seq<Entry>, pushed: seq<ChallengeId>)

  function RowFor(c: Challenge, r: Remembered): Entry {
    if r.Expired? then Undeliverable(c.id) else Delivered(c.id, c.derived)
  }

  /** Store, then ledger, then push; the row is attempted again when the code is already known. */
  function Deliver(d: Desk, c: Challenge, now: int): (Desk, Remembered) {
    var (store, r) := Remember(d.store, c, now);
    (Desk(store, RecordOnce(d.rows, RowFor(c, r)), if r.Stored? then d.pushed + [c.id] else d.pushed), r)
  }

  /** What the cardholder is shown, from a challenge's delivery to its deadline: the code the
      provider sent, when it sent one. */
  lemma TheEventsCodeIsShown(d: Desk, e: ChallengeEvent, minted: string, now: int, later: int, limits: Limits)
    requires var c := ChallengeFrom(e, minted, now, limits);
             now <= later < c.expiresAt && Get(d.store, c.provider, c.id, now).None?
    ensures var id := if NamesChallenge(e) then e.challengeId.value else e.eventId;
            var (after, r) := Deliver(d, ChallengeFrom(e, minted, now, limits), now);
            var shown := Get(after.store, e.provider, id, later);
            && r == Stored && after.pushed == d.pushed + [id] && shown.Some?
            && shown.value.code == (if NamesCode(e) then e.otp.value else minted)
            && shown.value.id == id && shown.value.card == e.card && (shown.value.derived <==> e.otp.None?)
  {
    LifetimeCoversDeadline(ChallengeFrom(e, minted, now, limits), now);
  }

  /** A delivery that died after storing the code and before its row. */
  function HalfDeliver(d: Desk, c: Challenge, now: int): Desk {
    d.(store := Remember(d.store, c, now).0)
  }

  // ------------------------------------------------------------ the provider

  /** A challenge as the provider holds it: answerable once, and only before it expires. */
  datatype Issued = Issued(expiresAt: int, answer: Option<Decision>)

  datatype Response = Accepted | NotFound | AlreadyAnswered

  function Respond(issued: map<ChallengeId, Issued>, id: ChallengeId, decision: Decision, now: int)
    : (map<ChallengeId, Issued>, Response)
  {
    if id !in issued then (issued, NotFound)
    else if issued[id].answer.Some? || now >= issued[id].expiresAt then (issued, AlreadyAnswered)
    else (issued[id := issued[id].(answer := Some(decision))], Accepted)
  }

  class Provider {
    var issued: map<ChallengeId, Issued>

    constructor (issued: map<ChallengeId, Issued>)
      ensures this.issued == issued
    {
      this.issued := issued;
    }

    method AnswerChallenge(id: ChallengeId, decision: Decision, now: int) returns (r: Response)
      modifies this
      ensures (issued, r) == Respond(old(issued), id, decision, now)
    {
      if id !in issued {
        return NotFound;
      }
      if issued[id].answer.Some? {
        return AlreadyAnswered;
      }
      if now >= issued[id].expiresAt {
        return AlreadyAnswered;
      }
      issued := issued[id := issued[id].(answer := Some(decision))];
      r := Accepted;
    }
  }

  /** The decisions the provider holds. */
  function HeldBy(issued: map<ChallengeId, Issued>): map<ChallengeId, Decision> {
    map id | id in issued && issued[id].answer.Some? :: issued[id].answer.value
  }

  class Service {
    const codes: Codes
    var rows: seq<Entry>
    var pushed: seq<ChallengeId>

    constructor (codes: Codes)
      ensures this.codes == codes && rows == [] && pushed == []
    {
      this.codes, rows, pushed := codes, [], [];
    }

    function State(): Desk
      reads this, codes
    {
      Desk(codes.State(), rows, pushed)
    }

    method WriteOnce(e: Entry) returns (wrote: bool)
      modifies this`rows
      ensures rows == RecordOnce(old(rows), e) && (wrote <==> !OnFile(old(rows), e))
    {
      if OnFile(rows, e) {
        return false;
      }
      rows := rows + [e];
      wrote := true;
    }

    method DeliverChallenge(e: ChallengeEvent, minted: string, now: int, limits: Limits) returns (r: Remembered)
      modifies this, codes
      ensures (State(), r) == Deliver(old(State()), ChallengeFrom(e, minted, now, limits), now)
    {
      var c := ChallengeFrom(e, minted, now, limits);
      r := codes.RememberChallenge(c, now);
      if r.Expired? {
        var _ := WriteOnce(Undeliverable(c.id));
        return;
      }
      var _ := WriteOnce(Delivered(c.id, c.derived));
      if r.Stored? {
        pushed := pushed + [c.id];
      }
    }

    /** Tell the provider, put it on record, forget the code; a refusal propagates and nothing
        is consumed. */
    method AnswerChallenge(provider: Provider, supported: bool, c: Challenge, decision: Decision, now: int)
      returns (answered: bool)
      modifies this, codes, provider
      ensures (State(), provider.issued, answered)
              == Answer(old(State()), old(provider.issued), supported, c, decision, now)
    {
      if supported {
        var r := provider.AnswerChallenge(c.id, decision, now);
        if !r.Accepted? {
          return false;
        }
      }
      var _ := WriteOnce(Responded(c.id, decision, supported));
      var _ := codes.ForgetChallenge(c.provider, c.id, now);
      answered := true;
    }
  }

  /** Deliver, ledger, forget. */
  function Answer(
    d: Desk, issued: map<ChallengeId, Issued>, supported: bool, c: Challenge, decision: Decision, now: int)
    : (Desk, map<ChallengeId, Issued>, bool)
  {
    var (after, r) := if supported then Respond(issued, c.id, decision, now) else (issued, Accepted);
    if !r.Accepted? then (d, issued, false)
    else
      (d.(store := Forget(d.store, c.provider, c.id), rows := RecordOnce(d.rows, Responded(c.id, decision, supported))),
       after, true)
  }

  /** A retry after a crash between code and row writes the row the first run owed, keeps the
      first code, and pushes nothing. The row goes by the retried event, which has lost its
      code, so it can call a code derived that the provider sent. */
  lemma RetryConverges(d: Desk, c: Challenge, again: Challenge, now: int, later: int)
    requires now < c.expiresAt && now <= later < c.expiresAt && later < again.expiresAt
    requires again.provider == c.provider && again.id == c.id && Get(d.store, c.provider, c.id, now).None?
    ensures var (after, r) := Deliver(HalfDeliver(d, c, now), again, later);
            && r == AlreadyKnown && after.pushed == d.pushed
            && Get(after.store, c.provider, c.id, later) == Some(c)
            && OnFile(after.rows, Delivered(c.id, c.derived))
            && (!OnFile(d.rows, Delivered(c.id, c.derived)) ==> after.rows == d.rows + [Delivered(c.id, again.derived)])
  {
    LifetimeCoversDeadline(c, now);
    LifetimeCoversDeadline(again, later);
    var e := Delivered(again.id, again.derived);
    var after := RecordOnce(d.rows, e);
    if OnFile(d.rows, e) {
      var k :| 0 <= k < |d.rows| && SameKey(d.rows[k], e);
      assert SameKey(after[k], Delivered(c.id, c.derived));
    } else {
      assert SameKey(after[|d.rows|], Delivered(c.id, c.derived));
    }
  }

  // --------------------------------------------------------------- answering

  /** One cardholder's answer on its way: told to the provider, then on record, then forgotten. */
  datatype Pc =
    | Idle
    | Told(id: ChallengeId, decision: Decision, delivered: bool)
    | Filed(id: ChallengeId)

  /** `supported` is whether the provider takes answers at all; it takes the first and refuses
      the rest. */
  datatype World = World(
    supported: bool, held: map<ChallengeId, Decision>, rows: seq<Entry>, open: set<ChallengeId>, pcs: seq<Pc>)

  datatype Step =
    | Tell(p: nat, id: ChallengeId, decision: Decision, fails: bool)
    | File(p: nat)
    | Consume(p: nat)
    | Crash(p: nat)
    | Arrive(id: ChallengeId)
    | Lapse(id: ChallengeId)

  predicate Can(w: World, s: Step) {
    match s
    case Tell(p, id, _, _) => p < |w.pcs| && w.pcs[p].Idle? && id in w.open
    case File(p) => p < |w.pcs| && w.pcs[p].Told?
    case Consume(p) => p < |w.pcs| && w.pcs[p].Filed?
    case Crash(p) => p < |w.pcs|
    case Arrive(_) => true
    case Lapse(_) => true
  }

  function Do(w: World, s: Step): World
    requires Can(w, s)
  {
    match s
    case Tell(p, id, decision, fails) =>
      if fails then w
      else if !w.supported then w.(pcs := w.pcs[p := Told(id, decision, false)])
      else if id in w.held then w
      else w.(held := w.held[id := decision], pcs := w.pcs[p := Told(id, decision, true)])
    case File(p) =>
      var pc := w.pcs[p];
      w.(rows := RecordOnce(w.rows, Responded(pc.id, pc.decision, pc.delivered)), pcs := w.pcs[p := Filed(pc.id)])
    case Consume(p) => w.(open := w.open - {w.pcs[p].id}, pcs := w.pcs[p := Idle])
    case Crash(p) => w.(pcs := w.pcs[p := Idle])
    case Arrive(id) => w.(open := w.open + {id})
    case Lapse(id) => w.(open := w.open - {id})
  }

  ghost predicate Runs(w: World, steps: seq<Step>)
    decreases |steps|
  {
    steps == [] || (Can(w, steps[0]) && Runs(Do(w, steps[0]), steps[1..]))
  }

  ghost function Exec(w: World, steps: seq<Step>): World
    requires Runs(w, steps)
    decreases |steps|
  {
    if steps == [] then w else Exec(Do(w, steps[0]), steps[1..])
  }

  predicate Truthful(w: World, e: Entry) {
    e.Responded? ==>
      (e.delivered == w.supported && (e.delivered ==> e.id in w.held && w.held[e.id] == e.decision))
  }

  predicate PcTruthful(w: World, pc: Pc) {
    pc.Told? ==> Truthful(w, Responded(pc.id, pc.decision, pc.delivered))
  }

  ghost predicate Inv(w: World) {
    && (forall k :: 0 <= k < |w.rows| ==> Truthful(w, w.rows[k]))
    && (forall p :: 0 <= p < |w.pcs| ==> PcTruthful(w, w.pcs[p]))
    && (forall i, j :: 0 <= i < j < |w.rows| ==> !SameKey(w.rows[i], w.rows[j]))
  }

  lemma StepKeepsInv(w: World, s: Step)
    requires Inv(w) && Can(w, s)
    ensures Inv(Do(w, s)) && w.rows <= Do(w, s).rows
    ensures forall id :: id in w.held ==> id in Do(w, s).held && Do(w, s).held[id] == w.held[id]
  {
    if s.File? {
      assert PcTruthful(w, w.pcs[s.p]);
    }
  }

  /** Answers race, crash and repeat, yet a row that says a decision was delivered records the
      very decision the provider holds, there is one row to a challenge, and neither changes. */
  lemma {:induction false} RowsTellTheProvidersDecision(w: World, steps: seq<Step>)
    requires Inv(w) && Runs(w, steps)
    ensures Inv(Exec(w, steps)) && w.rows <= Exec(w, steps).rows
    ensures forall id :: id in w.held ==> id in Exec(w, steps).held && Exec(w, steps).held[id] == w.held[id]
    decreases |steps|
  {
    if steps != [] {
      StepKeepsInv(w, steps[0]);
      RowsTellTheProvidersDecision(Do(w, steps[0]), steps[1..]);
    }
  }

  predicate Responds(e: Entry, id: ChallengeId) {
    e.Responded? && e.id == id
  }

  predicate OnRecord(w: World, id: ChallengeId) {
    exists k :: 0 <= k < |w.rows| && Responds(w.rows[k], id)
  }

  predicate Carries(pc: Pc, id: ChallengeId) {
    pc.Told? && pc.id == id
  }

  predicate AboutToBeFiled(w: World, id: ChallengeId) {
    exists p :: 0 <= p < |w.pcs| && Carries(w.pcs[p], id)
  }

  /** The provider holds a decision that has no row and that nobody is about to file. */
  predicate Unfiled(w: World, id: ChallengeId) {
    w.supported && id in w.held && !OnRecord(w, id) && !AboutToBeFiled(w, id)
  }

  /** A crash of the one worker that still had the decision to file. */
  predicate LosesRow(w: World, s: Step, id: ChallengeId)
    requires Can(w, s)
  {
    && s.Crash? && w.supported && Carries(w.pcs[s.p], id) && !OnRecord(w, id)
    && forall q :: 0 <= q < |w.pcs| && q != s.p ==> !Carries(w.pcs[q], id)
  }

  lemma RecordStays(w: World, s: Step, id: ChallengeId)
    requires Can(w, s) && OnRecord(w, id)
    ensures OnRecord(Do(w, s), id)
  {
    var k :| 0 <= k < |w.rows| && Responds(w.rows[k], id);
    assert Do(w, s).rows[k] == w.rows[k];
  }

  lemma CarrierGoesOn(w: World, s: Step, id: ChallengeId)
    requires Can(w, s) && w.supported && AboutToBeFiled(w, id) && !OnRecord(w, id) && !LosesRow(w, s, id)
    ensures OnRecord(Do(w, s), id) || AboutToBeFiled(Do(w, s), id)
  {
    var v := Do(w, s);
    var p :| 0 <= p < |w.pcs| && Carries(w.pcs[p], id) && (s.Crash? ==> p != s.p);
    if s.File? && s.p == p {
      FilingPuts(w.rows, Responded(id, w.pcs[p].decision, w.pcs[p].delivered), id);
    } else {
      assert Carries(v.pcs[p], id);
    }
  }

  lemma FilingPuts(rows: seq<Entry>, e: Entry, id: ChallengeId)
    requires Responds(e, id)
    ensures exists k :: 0 <= k < |RecordOnce(rows, e)| && Responds(RecordOnce(rows, e)[k], id)
  {
    if OnFile(rows, e) {
      var k :| 0 <= k < |rows| && SameKey(rows[k], e);
      assert RecordOnce(rows, e)[k] == rows[k] && Responds(rows[k], id);
    } else {
      assert RecordOnce(rows, e)[|rows|] == e;
    }
  }

  lemma NewlyHeldIsCarried(w: World, s: Step, id: ChallengeId)
    requires Can(w, s) && w.supported && id !in w.held && id in Do(w, s).held
    ensures AboutToBeFiled(Do(w, s), id)
  {
    assert Carries(Do(w, s).pcs[s.p], id);
  }

  lemma UnfiledStays(w: World, s: Step, id: ChallengeId)
    requires Can(w, s) && Unfiled(w, id)
    ensures Unfiled(Do(w, s), id)
  {
    var v := Do(w, s);
    if s.File? {
      assert !Carries(w.pcs[s.p], id);
    }
  }

  lemma LosingLeavesItUnfiled(w: World, s: Step, id: ChallengeId)
    requires Inv(w) && Can(w, s) && LosesRow(w, s, id)
    ensures Unfiled(Do(w, s), id)
  {
    assert PcTruthful(w, w.pcs[s.p]);
  }

  /** A held decision goes unfiled by exactly that crash, and once it is, for good. */
  lemma StepUnfilesExactly(w: World, s: Step, id: ChallengeId)
    requires Inv(w) && Can(w, s)
    ensures Unfiled(Do(w, s), id) <==> Unfiled(w, id) || LosesRow(w, s, id)
  {
    if Unfiled(w, id) {
      UnfiledStays(w, s, id);
    } else if LosesRow(w, s, id) {
      LosingLeavesItUnfiled(w, s, id);
    } else if Unfiled(Do(w, s), id) {
      if id !in w.held {
        NewlyHeldIsCarried(w, s, id);
      } else if OnRecord(w, id) {
        RecordStays(w, s, id);
      } else {
        CarrierGoesOn(w, s, id);
      }
    }
  }

  ghost predicate RowLostOnTheWay(w: World, steps: seq<Step>, id: ChallengeId)
    requires Runs(w, steps)
    decreases |steps|
  {
    steps != [] && (LosesRow(w, steps[0], id) || RowLostOnTheWay(Do(w, steps[0]), steps[1..], id))
  }

  lemma {:induction false} RunUnfilesExactly(w: World, steps: seq<Step>, id: ChallengeId)
    requires Inv(w) && Runs(w, steps)
    ensures Unfiled(Exec(w, steps), id) <==> Unfiled(w, id) || RowLostOnTheWay(w, steps, id)
    decreases |steps|
  {
    if steps != [] {
      StepKeepsInv(w, steps[0]);
      StepUnfilesExactly(w, steps[0], id);
      RunUnfilesExactly(Do(w, steps[0]), steps[1..], id);
    }
  }

  /** No challenge answered yet. */
  function Start(supported: bool, workers: nat): World {
    World(supported, map[], [], {}, seq(workers, _ => Idle))
  }

  /** In every run each decision the provider holds is on record, or its worker is about to put
      it there, exactly when no such crash came in between. */
  lemma HeldIsFiledUnlessLost(workers: nat, steps: seq<Step>, id: ChallengeId)
    requires Runs(Start(true, workers), steps) && id in Exec(Start(true, workers), steps).held
    ensures var v := Exec(Start(true, workers), steps);
            v.supported
              && (OnRecord(v, id) || AboutToBeFiled(v, id) <==> !RowLostOnTheWay(Start(true, workers), steps, id))
  {
    RunUnfilesExactly(Start(true, workers), steps, id);
    SupportStays(Start(true, workers), steps);
  }

  lemma {:induction false} SupportStays(w: World, steps: seq<Step>)
    requires Runs(w, steps)
    ensures Exec(w, steps).supported == w.supported
    decreases |steps|
  {
    if steps != [] {
      SupportStays(Do(w, steps[0]), steps[1..]);
    }
  }

  /** An open challenge can be answered, which puts the decision with the provider and on record
      and closes it; one that has lapsed cannot. */
  lemma OpenIsAnswered(w: World, p: nat, id: ChallengeId, decision: Decision)
    requires p < |w.pcs| && w.pcs[p].Idle? && w.supported && id !in w.held && !OnRecord(w, id)
    ensures var steps := [Arrive(id)] + ([Tell(p, id, decision, false)] + ([File(p)] + ([Consume(p)] + [])));
            Runs(w, steps)
            && Exec(w, steps) == w.(held := w.held[id := decision], open := w.open - {id},
                                    rows := w.rows + [Responded(id, decision, true)])
    ensures !Can(Do(w, Lapse(id)), Tell(p, id, decision, false))
    ensures forall other :: other != id ==> (other in Do(w, Lapse(id)).open <==> other in w.open)
  {
    var w1 := Do(w, Arrive(id));
    var w2 := Do(w1, Tell(p, id, decision, false));
    var w3 := Do(w2, File(p));
    assert !OnFile(w.rows, Responded(id, decision, true)) by {
      assert forall k :: 0 <= k < |w.rows| ==> !Responds(w.rows[k], id);
    }
    var w4 := Do(w3, Consume(p));
    assert w4.pcs == w.pcs && w4.open == w.open - {id};
    Prepend(w3, Consume(p), []);
    Prepend(w2, File(p), [Consume(p)] + []);
    Prepend(w1, Tell(p, id, decision, false), [File(p)] + ([Consume(p)] + []));
    Prepend(w, Arrive(id), [Tell(p, id, decision, false)] + ([File(p)] + ([Consume(p)] + [])));
  }

  /** A decision without a row stays without one: every later answer is refused before it could
      be filed. */
  lemma UnfiledForGood(w: World, steps: seq<Step>, id: ChallengeId)
    requires Inv(w) && Runs(w, steps) && Unfiled(w, id)
    ensures Unfiled(Exec(w, steps), id)
  {
    RunUnfilesExactly(w, steps, id);
  }

  lemma Prepend(w: World, s: Step, rest: seq<Step>)
    requires Can(w, s) && Runs(Do(w, s), rest)
    ensures Runs(w, [s] + rest) && Exec(w, [s] + rest) == Exec(Do(w, s), rest)
  {
    assert ([s] + rest)[1..] == rest;
  }

  function Alone(supported: bool, issued: map<ChallengeId, Issued>, rows: seq<Entry>, open: set<ChallengeId>): World {
    World(supported, HeldBy(issued), rows, open, [Idle])
  }

  /** An undisturbed answer is one worker's run of this world: told, filed, consumed. */
  lemma AnswerIsARun(d: Desk, issued: map<ChallengeId, Issued>, supported: bool, c: Challenge, decision: Decision,
                     now: int, open: set<ChallengeId>)
    requires c.id in open
    ensures var (after, told, answered) := Answer(d, issued, supported, c, decision, now);
            var w := Alone(supported, issued, d.rows, open);
            var fails := !answered;
            var steps := [Tell(0, c.id, decision, fails)] + (if fails then [] else [File(0)] + ([Consume(0)] + []));
            && Runs(w, steps)
            && Exec(w, steps) == Alone(supported, told, after.rows, if fails then open else open - {c.id})
  {
    var (after, told, answered) := Answer(d, issued, supported, c, decision, now);
    var w := Alone(supported, issued, d.rows, open);
    var tell := Tell(0, c.id, decision, !answered);
    if answered {
      var w1 := World(supported, HeldBy(told), d.rows, open, [Told(c.id, decision, supported)]);
      assert supported ==> HeldBy(told) == HeldBy(issued)[c.id := decision];
      assert Do(w, tell) == w1;
      var w2 := World(supported, HeldBy(told), after.rows, open, [Filed(c.id)]);
      assert Do(w1, File(0)) == w2;
      assert Do(w2, Consume(0)) == Alone(supported, told, after.rows, open - {c.id});
      Prepend(w2, Consume(0), []);
      Prepend(w1, File(0), [Consume(0)] + []);
      Prepend(w, tell, [File(0)] + ([Consume(0)] + []));
    } else {
      Prepend(w, tell, []);
    }
  }
}
