/** Finding intents that stopped moving, and giving each one more push. */
module Reconciler {
  import opened Basics
  import opened FundingStates
  import opened Ledger
  import opened Machine
  import opened Engine
  import Intake
  import S = Safe
  import Laws = SafeLaws

  datatype Pacing = Pacing(stuckAfter: nat, maxBackoff: nat, batchLimit: nat)

  predicate Reconcilable(s: State) {
    s == Pending || Driven(s)
  }

  // ---------------------------------------------------------------- schedule

  function Doubled(n: nat): (r: nat)
    ensures r >= 1
  {
    if n == 0 then 1 else 2 * Doubled(n - 1)
  }

  function Delay(retryCount: nat, p: Pacing): nat {
    Min(p.stuckAfter * Doubled(retryCount), p.maxBackoff)
  }

  function DueAfter(i: Intent, p: Pacing): int {
    i.changedAt + Delay(i.retryCount, p)
  }

  /** The rule as it is meant: quiet for longer than the doubled, capped threshold. */
  predicate Due(i: Intent, now: int, p: Pacing) {
    Reconcilable(i.state) && Quiet(i, now) >= Min(p.stuckAfter * Doubled(i.retryCount), p.maxBackoff)
  }

  /** For how long nothing has happened to the intent. */
  function Quiet(i: Intent, now: int): int {
    now - i.changedAt
  }

  /** An intent is due exactly when it has been quiet for its doubled threshold or the cap, in a
      state the scan looks at; each wait is what its retry adds to the sum of all waits. */
  lemma DueIsExact(i: Intent, now: int, p: Pacing)
    ensures Due(i, now, p) <==> Reconcilable(i.state) && now >= DueAfter(i, p)
    ensures now >= DueAfter(i, p) <==>
              now - i.changedAt >= p.stuckAfter * Doubled(i.retryCount) || now - i.changedAt >= p.maxBackoff
    ensures DueAfter(i, p) - i.changedAt == TotalDelay(i.retryCount + 1, p) - TotalDelay(i.retryCount, p)
    ensures Reconcilable(i.state) <==>
              i.state in {Pending, DepositConfirmed, Bridging, Bridged, Funding}
  {}

  /** What the query can ask: quiet for longer than the base threshold. */
  predicate Candidate(i: Intent, now: int, p: Pacing) {
    Reconcilable(i.state) && i.changedAt <= now - p.stuckAfter
  }

  lemma Grows(a: nat, b: nat)
    requires b >= 1
    ensures a * b >= a
  {}

  /** The base cutoff loses no due intent exactly when the cap is no shorter than the base. */
  lemma CutoffIsExact(p: Pacing)
    ensures (forall i: Intent, now: int :: Due(i, now, p) ==> Candidate(i, now, p)) <==> p.maxBackoff >= p.stuckAfter
  {
    if p.maxBackoff >= p.stuckAfter {
      forall i: Intent, now: int | Due(i, now, p) ensures Candidate(i, now, p) {
        Grows(p.stuckAfter, Doubled(i.retryCount));
      }
    } else {
      var untried := Intent(Bridging, Card("", ""), Money(1, ""), None, None, None, None, 0, None, 0);
      assert Delay(0, p) == p.maxBackoff;
      assert Due(untried, p.maxBackoff, p) && !Candidate(untried, p.maxBackoff, p);
    }
  }

  /** How long the first `n` waits of a much-retried intent come to. */
  function TotalDelay(n: nat, p: Pacing): nat {
    if n == 0 then 0 else TotalDelay(n - 1, p) + Delay(n - 1, p)
  }

  lemma {:induction false} WaitsAreCapped(n: nat, p: Pacing)
    ensures TotalDelay(n, p) <= n * p.maxBackoff
  {
    if n > 0 {
      WaitsAreCapped(n - 1, p);
      assert n * p.maxBackoff == (n - 1) * p.maxBackoff + p.maxBackoff;
    }
  }

  lemma Geometric(s: nat, d: nat)
    ensures s * (2 * d - 1) == s * (d - 1) + s * d
    ensures s * (2 * d) == 2 * (s * d)
  {}

  /** The waits double until the cap: their sum never passes the geometric one, and reaches it
      exactly when the last of them is not capped. */
  lemma {:induction false} WaitsDouble(n: nat, p: Pacing)
    ensures TotalDelay(n, p) <= p.stuckAfter * (Doubled(n) - 1)
    ensures n > 0 ==>
      (TotalDelay(n, p) == p.stuckAfter * (Doubled(n) - 1) <==> p.stuckAfter * Doubled(n - 1) <= p.maxBackoff)
  {
    if n > 0 {
      WaitsDouble(n - 1, p);
      Geometric(p.stuckAfter, Doubled(n - 1));
      if n > 1 {
        Geometric(p.stuckAfter, Doubled(n - 2));
      }
    }
  }

  // ------------------------------------------------------------------- query

  function Candidates(intents: map<IntentId, Intent>, now: int, p: Pacing): set<IntentId> {
    set id | id in intents && Candidate(intents[id], now, p)
  }

  ghost predicate Distinct(ids: seq<IntentId>) {
    forall i, j :: 0 <= i < j < |ids| ==> ids[i] != ids[j]
  }

  function Ids(ids: seq<IntentId>): set<IntentId> {
    set id | id in ids
  }

  /** An answer to `ORDER BY state_changed_at LIMIT limit` over `from`: rows that changed at the
      same moment may come in any order. */
  ghost predicate OldestOf(intents: map<IntentId, Intent>, from: set<IntentId>, limit: nat, batch: seq<IntentId>)
    requires from <= intents.Keys
  {
    && Distinct(batch) && Ids(batch) <= from
    && |batch| == Min(limit, |from|)
    && (forall i, j :: 0 <= i < j < |batch| ==> intents[batch[i]].changedAt <= intents[batch[j]].changedAt)
    && forall b, c :: b in batch && c in from && c !in batch ==> intents[b].changedAt <= intents[c].changedAt
  }

  lemma {:induction false} DistinctCount(ids: seq<IntentId>)
    requires Distinct(ids)
    ensures |Ids(ids)| == |ids|
  {
    if ids != [] {
      var front, last := ids[..|ids| - 1], ids[|ids| - 1];
      DistinctCount(front);
      assert Ids(ids) == Ids(front) + {last};
    }
  }

  lemma SubsetCount<T>(a: set<T>, b: set<T>)
    requires a <= b
    ensures |a| <= |b|
    ensures |a| == |b| ==> a == b
    decreases a
  {
    if a != {} {
      var x :| x in a;
      SubsetCount(a - {x}, b - {x});
      assert b == (b - {x}) + {x} && a == (a - {x}) + {x};
    }
  }

  function OlderThan(intents: map<IntentId, Intent>, from: set<IntentId>, id: IntentId): set<IntentId>
    requires from <= intents.Keys && id in intents
  {
    set c | c in from && intents[c].changedAt < intents[id].changedAt
  }

  /** Everything else that an answer may put before `id`. */
  function NotNewer(intents: map<IntentId, Intent>, from: set<IntentId>, id: IntentId): set<IntentId>
    requires from <= intents.Keys && id in intents
  {
    set c | c in from && c != id && intents[c].changedAt <= intents[id].changedAt
  }

  /** Some answer always exists. */
  lemma {:induction false} QueryHasAnAnswer(intents: map<IntentId, Intent>, from: set<IntentId>, limit: nat)
    returns (batch: seq<IntentId>)
    requires from <= intents.Keys
    ensures OldestOf(intents, from, limit, batch)
    decreases limit
  {
    batch := [];
    if limit > 0 && from != {} {
      var first := SomeOldest(intents, from);
      var rest := QueryHasAnAnswer(intents, from - {first}, limit - 1);
      batch := [first] + rest;
      assert forall id :: id in batch <==> id == first || id in rest;
      assert forall id :: id in rest ==> id in Ids(rest);
      assert Ids(batch) == {first} + Ids(rest);
    }
  }

  lemma {:induction false} SomeOldest(intents: map<IntentId, Intent>, from: set<IntentId>) returns (first: IntentId)
    requires from <= intents.Keys && from != {}
    ensures first in from && forall c :: c in from ==> intents[first].changedAt <= intents[c].changedAt
    decreases |from|
  {
    first :| first in from;
    if from != {first} {
      var other := SomeOldest(intents, from - {first});
      if intents[other].changedAt < intents[first].changedAt {
        first := other;
      }
    }
  }

  lemma CrowdedOut(intents: map<IntentId, Intent>, from: set<IntentId>, limit: nat, batch: seq<IntentId>, id: IntentId)
    requires from <= intents.Keys && OldestOf(intents, from, limit, batch) && id in from
    requires |OlderThan(intents, from, id)| >= limit
    ensures id !in batch
  {
    if id in batch {
      var ahead := OlderThan(intents, from, id);
      assert ahead + {id} <= Ids(batch);
      SubsetCount(ahead + {id}, Ids(batch));
      DistinctCount(batch);
    }
  }

  lemma NotCrowdedOut(
    intents: map<IntentId, Intent>, from: set<IntentId>, limit: nat, batch: seq<IntentId>, id: IntentId)
    requires from <= intents.Keys && OldestOf(intents, from, limit, batch) && id in from
    requires |NotNewer(intents, from, id)| < limit
    ensures id in batch
  {
    if id !in batch {
      DistinctCount(batch);
      SubsetCount(Ids(batch), from);
      assert id !in Ids(batch) && |batch| == limit;
      assert Ids(batch) <= NotNewer(intents, from, id);
      SubsetCount(Ids(batch), NotNewer(intents, from, id));
    }
  }

  /** An answer over everything else that is not newer is also one over all of `from`. */
  lemma PassedOver(intents: map<IntentId, Intent>, from: set<IntentId>, limit: nat, id: IntentId)
      returns (batch: seq<IntentId>)
    requires from <= intents.Keys && id in from && |NotNewer(intents, from, id)| >= limit
    ensures OldestOf(intents, from, limit, batch) && id !in batch
  {
    var others := NotNewer(intents, from, id);
    batch := QueryHasAnAnswer(intents, others, limit);
    SubsetCount(others, from);
    assert id !in Ids(batch);
    forall b, c | b in batch && c in from && c !in batch ensures intents[b].changedAt <= intents[c].changedAt {
      assert b in Ids(batch) && b in others;
    }
  }

  /** The same rows with `id` put first among those that changed when it did. */
  function Favouring(intents: map<IntentId, Intent>, id: IntentId): map<IntentId, Intent> {
    map c | c in intents :: intents[c].(changedAt := 2 * intents[c].changedAt - if c == id then 1 else 0)
  }

  lemma ChosenFirst(intents: map<IntentId, Intent>, from: set<IntentId>, limit: nat, id: IntentId)
      returns (batch: seq<IntentId>)
    requires from <= intents.Keys && id in from && |OlderThan(intents, from, id)| < limit
    ensures OldestOf(intents, from, limit, batch) && id in batch
  {
    var favoured := Favouring(intents, id);
    batch := QueryHasAnAnswer(favoured, from, limit);
    assert NotNewer(favoured, from, id) == OlderThan(intents, from, id);
    NotCrowdedOut(favoured, from, limit, batch, id);
    FavouredIsAnAnswer(intents, from, limit, batch, id);
  }

  lemma FavouredIsAnAnswer(
    intents: map<IntentId, Intent>, from: set<IntentId>, limit: nat, batch: seq<IntentId>, id: IntentId)
    requires from <= intents.Keys && OldestOf(Favouring(intents, id), from, limit, batch)
    ensures OldestOf(intents, from, limit, batch)
  {
    var favoured := Favouring(intents, id);
    forall a, b | a in intents && b in intents && favoured[a].changedAt <= favoured[b].changedAt
      ensures intents[a].changedAt <= intents[b].changedAt
    {}
    forall i | 0 <= i < |batch| ensures batch[i] in intents {
      assert batch[i] in Ids(batch);
    }
    forall b, c | b in batch && c in from && c !in batch ensures intents[b].changedAt <= intents[c].changedAt {
      assert favoured[b].changedAt <= favoured[c].changedAt;
    }
  }

  /** Whatever order the database puts rows that changed at one moment in: a candidate is always
      examined exactly when fewer than the batch limit of the others are not newer, and it can be
      examined at all exactly when fewer than that are older. */
  lemma ExaminedExactly(intents: map<IntentId, Intent>, from: set<IntentId>, limit: nat, id: IntentId)
    requires from <= intents.Keys && id in from
    ensures (forall batch :: OldestOf(intents, from, limit, batch) ==> id in batch)
            <==> |NotNewer(intents, from, id)| < limit
    ensures (exists batch :: OldestOf(intents, from, limit, batch) && id in batch)
            <==> |OlderThan(intents, from, id)| < limit
  {
    if |NotNewer(intents, from, id)| < limit {
      forall batch | OldestOf(intents, from, limit, batch) ensures id in batch {
        NotCrowdedOut(intents, from, limit, batch, id);
      }
    } else {
      var batch := PassedOver(intents, from, limit, id);
    }
    if |OlderThan(intents, from, id)| < limit {
      var batch := ChosenFirst(intents, from, limit, id);
    } else {
      forall batch | OldestOf(intents, from, limit, batch) ensures id !in batch {
        CrowdedOut(intents, from, limit, batch, id);
      }
    }
  }

  /** One scan is sure to find an intent and its time past exactly when the rule means it and the
      batch limit leaves room for it. */
  lemma ScanFindsTheDue(intents: map<IntentId, Intent>, now: int, p: Pacing, id: IntentId)
    requires p.maxBackoff >= p.stuckAfter
    ensures var from := Candidates(intents, now, p);
            (forall batch :: OldestOf(intents, from, p.batchLimit, batch) ==>
               id in batch && now >= DueAfter(intents[id], p))
            <==> id in intents && Due(intents[id], now, p) && |NotNewer(intents, from, id)| < p.batchLimit
  {
    var from := Candidates(intents, now, p);
    var some := QueryHasAnAnswer(intents, from, p.batchLimit);
    assert id in some ==> id in Ids(some);
    if id in intents {
      Grows(p.stuckAfter, Doubled(intents[id].retryCount));
    }
    if id in from {
      ExaminedExactly(intents, from, p.batchLimit, id);
    }
  }

  /** With room for every candidate, one scan finds precisely the intents the rule means. */
  lemma RoomForAll(intents: map<IntentId, Intent>, now: int, p: Pacing, batch: seq<IntentId>, id: IntentId)
    requires OldestOf(intents, Candidates(intents, now, p), p.batchLimit, batch)
    requires p.maxBackoff >= p.stuckAfter && |Candidates(intents, now, p)| <= p.batchLimit
    ensures id in batch && now >= DueAfter(intents[id], p) <==> id in intents && Due(intents[id], now, p)
  {
    DistinctCount(batch);
    SubsetCount(Ids(batch), Candidates(intents, now, p));
    assert id in batch <==> id in Ids(batch);
    if id in intents {
      Grows(p.stuckAfter, Doubled(intents[id].retryCount));
    }
  }

  // -------------------------------------------------------------------- pass

  datatype Moved = Moved(id: IntentId, result: StepResult)

  datatype Plan = Plan(id: IntentId, state: State, retryCount: nat, dueAt: int)

  datatype Report = Report(stepped: seq<Moved>, waiting: seq<Plan>, raised: bool)

  const NOTHING := Report([], [], false)

  lemma StepKeepsShape(sys: System, policy: Policy, id: IntentId, now: int, fault: Fault)
    requires S.Shape(sys.out.sim)
    ensures S.Shape(Step(sys, policy, id, now, fault).0.out.sim)
  {
    if id in sys.db.intents && (sys.db.intents[id].state == Bridged || sys.db.intents[id].state == Funding) {
      var entered := Advance(sys.db, Entering(id), now).1;
      var i := if sys.db.intents[id].state == Bridged && entered.Returned() then entered.intent else sys.db.intents[id];
      Laws.FundKeepsShape(sys.out.sim, i.card.cardId, i.FundableMoney(), id);
    }
  }

  /** What is done for an intent that is stuck and out of backoff; `None` when there is nothing
      to be done: nobody has sent anything yet. */
  function Visit(sys: System, policy: Policy, id: IntentId, now: int, fault: Fault): (r: (System, Option<StepResult>))
    requires S.Shape(sys.out.sim) && id in sys.db.intents
    ensures S.Shape(r.0.out.sim)
  {
    var i := sys.db.intents[id];
    StepKeepsShape(sys, policy, id, now, fault);
    if i.state != Pending then
      var (after, result) := Step(sys, policy, id, now, fault);
      (after, Some(result))
    else if i.depositRef.None? then (sys, None)
    else
      var (db, outcome) := Advance(sys.db, Intake.ConfirmRequest(id, i.depositRef.value), now);
      (sys.(db := db), Some(if outcome.Returned() then Stepped(Pending, outcome.intent.state) else Raised))
  }

  /** The rest of one pass over `batch`; an exception ends it. */
  function Pass(sys: System, policy: Policy, p: Pacing, batch: seq<IntentId>, skip: set<IntentId>, now: int,
                faults: IntentId -> Fault, report: Report): (r: (System, Report))
    requires S.Shape(sys.out.sim)
    ensures S.Shape(r.0.out.sim)
    decreases |batch|
  {
    if batch == [] then (sys, report)
    else
      var id := batch[0];
      if id in skip || id !in sys.db.intents then Pass(sys, policy, p, batch[1..], skip, now, faults, report)
      else
        var i := sys.db.intents[id];
        if now < DueAfter(i, p) then
          var plan := Plan(id, i.state, i.retryCount, DueAfter(i, p));
          Pass(sys, policy, p, batch[1..], skip, now, faults, report.(waiting := report.waiting + [plan]))
        else
          var (after, done) := Visit(sys, policy, id, now, faults(id));
          match done
          case None => Pass(after, policy, p, batch[1..], skip, now, faults, report)
          case Some(result) =>
            if result.Raised? then (after, report.(raised := true))
            else Pass(after, policy, p, batch[1..], skip, now, faults,
                      report.(stepped := report.stepped + [Moved(id, result)]))
  }

  // -------------------------------------------------------------------- laws

  predicate OthersSame(a: Db, b: Db, id: IntentId) {
    && a.intents.Keys == b.intents.Keys
    && forall other :: other in a.intents && other != id ==> b.intents[other] == a.intents[other]
  }

  lemma VisitTouchesOne(sys: System, policy: Policy, id: IntentId, now: int, fault: Fault)
    requires S.Shape(sys.out.sim) && id in sys.db.intents
    ensures OthersSame(sys.db, Visit(sys, policy, id, now, fault).0.db, id)
  {
    match sys.db.intents[id].state
    case DepositConfirmed => SubmitTouchesOne(sys, policy, id, now, fault);
    case Bridging => PollTouchesOne(sys, policy, id, now, fault);
    case Bridged => FundTouchesOne(sys, policy, id, now, fault);
    case Funding => FundTouchesOne(sys, policy, id, now, fault);
    case _ =>
  }

  lemma CarryTouchesOne(sys: System, frm: State, d: Decision, now: int, id: IntentId)
    requires d.Ask? ==> d.req.intent == id
    ensures OthersSame(sys.db, Carry(sys, frm, d, now).0.db, id)
  {}

  lemma SubmitTouchesOne(sys: System, policy: Policy, id: IntentId, now: int, fault: Fault)
    requires S.Shape(sys.out.sim) && id in sys.db.intents
    ensures OthersSame(sys.db, StepSubmit(sys, policy, id, now, fault).0.db, id)
  {
    var i := sys.db.intents[id];
    var (out, answer) := CallSubmit(sys.out, policy, id, i, now, fault);
    CarryTouchesOne(sys.(out := out), i.state, OnSubmit(policy, id, i, answer), now, id);
  }

  lemma PollTouchesOne(sys: System, policy: Policy, id: IntentId, now: int, fault: Fault)
    requires id in sys.db.intents
    ensures OthersSame(sys.db, StepPoll(sys, policy, id, now, fault).0.db, id)
  {
    var i := sys.db.intents[id];
    if i.bridgeRef.None? {
      CarryTouchesOne(sys, i.state, GiveUp(id, i, "in BRIDGING with no bridge reference"), now, id);
    } else {
      CarryTouchesOne(sys, i.state, OnStatus(policy, id, i, CallStatus(sys.out, i.bridgeRef.value, now, fault)), now,
        id);
    }
  }

  lemma FundTouchesOne(sys: System, policy: Policy, id: IntentId, now: int, fault: Fault)
    requires S.Shape(sys.out.sim) && id in sys.db.intents
    ensures OthersSame(sys.db, StepFund(sys, policy, id, now, fault).0.db, id)
  {
    var started := sys.db.intents[id].state;
    var (db, entered) :=
      if started == Bridged then Advance(sys.db, Entering(id), now) else (sys.db, Replayed(sys.db.intents[id]));
    if entered.Returned() {
      var (out, answer) := CallFund(sys.out, id, entered.intent, fault);
      CarryTouchesOne(System(db, out), started, OnFund(policy, id, entered.intent, answer), now, id);
    }
  }

  function Names(moved: seq<Moved>): seq<IntentId> {
    seq(|moved|, i requires 0 <= i < |moved| => moved[i].id)
  }

  /** An intent with nothing sent to it. */
  predicate Unpaid(i: Intent) {
    i.state == Pending && i.depositRef.None?
  }

  /** A pass changes no intent it was told to skip, was not given, or finds unpaid or not due. */
  lemma {:induction false} PassLeaves(
    sys: System, policy: Policy, p: Pacing, batch: seq<IntentId>, skip: set<IntentId>, now: int,
    faults: IntentId -> Fault, report: Report, id: IntentId)
    requires S.Shape(sys.out.sim) && id in sys.db.intents
    requires id in skip || id !in batch || Unpaid(sys.db.intents[id]) || now < DueAfter(sys.db.intents[id], p)
    ensures var after := Pass(sys, policy, p, batch, skip, now, faults, report).0;
            id in after.db.intents && after.db.intents[id] == sys.db.intents[id]
    decreases |batch|
  {
    if batch != [] {
      var head := batch[0];
      if head in skip || head !in sys.db.intents {
        PassLeaves(sys, policy, p, batch[1..], skip, now, faults, report, id);
      } else {
        var i := sys.db.intents[head];
        if now < DueAfter(i, p) {
          var plan := Plan(head, i.state, i.retryCount, DueAfter(i, p));
          PassLeaves(sys, policy, p, batch[1..], skip, now, faults, report.(waiting := report.waiting + [plan]), id);
        } else {
          VisitTouchesOne(sys, policy, head, now, faults(head));
          var (after, done) := Visit(sys, policy, head, now, faults(head));
          if done.None? {
            PassLeaves(after, policy, p, batch[1..], skip, now, faults, report, id);
          } else if !done.value.Raised? {
            PassLeaves(after, policy, p, batch[1..], skip, now, faults,
                       report.(stepped := report.stepped + [Moved(head, done.value)]), id);
          }
        }
      }
    }
  }

  /** The intents one pass over `batch` is meant to step, in order. */
  function ToStep(
    intents: map<IntentId, Intent>, p: Pacing, batch: seq<IntentId>, skip: set<IntentId>, now: int): seq<IntentId>
    decreases |batch|
  {
    if batch == [] then []
    else
      var id := batch[0];
      (if id !in skip && id in intents && now >= DueAfter(intents[id], p) && !Unpaid(intents[id]) then [id] else [])
      + ToStep(intents, p, batch[1..], skip, now)
  }

  /** ... and those it is meant to leave for later. */
  function ToWait(
    intents: map<IntentId, Intent>, p: Pacing, batch: seq<IntentId>, skip: set<IntentId>, now: int): seq<Plan>
    decreases |batch|
  {
    if batch == [] then []
    else
      var id := batch[0];
      (if id !in skip && id in intents && now < DueAfter(intents[id], p)
       then [Plan(id, intents[id].state, intents[id].retryCount, DueAfter(intents[id], p))] else [])
      + ToWait(intents, p, batch[1..], skip, now)
  }

  lemma {:induction false} PlansLookOnlyAtTheBatch(
    a: map<IntentId, Intent>, b: map<IntentId, Intent>, p: Pacing, batch: seq<IntentId>, skip: set<IntentId>, now: int)
    requires forall id :: id in batch ==> (id in a <==> id in b) && (id in a ==> a[id] == b[id])
    ensures ToStep(a, p, batch, skip, now) == ToStep(b, p, batch, skip, now)
    ensures ToWait(a, p, batch, skip, now) == ToWait(b, p, batch, skip, now)
    decreases |batch|
  {
    if batch != [] {
      assert batch[0] in batch && forall id :: id in batch[1..] ==> id in batch;
      PlansLookOnlyAtTheBatch(a, b, p, batch[1..], skip, now);
    }
  }

  lemma NamesAppend(moved: seq<Moved>, m: Moved)
    ensures Names(moved + [m]) == Names(moved) + [m.id]
  {}

  lemma VisitAnswers(sys: System, policy: Policy, id: IntentId, now: int, fault: Fault)
    requires S.Shape(sys.out.sim) && id in sys.db.intents
    ensures Visit(sys, policy, id, now, fault).1.None? <==> Unpaid(sys.db.intents[id])
  {}

  /** The report of a pass that was to make these steps and leave these waiting. */
  ghost predicate AsMeant(done: Report, steps: seq<IntentId>, waits: seq<Plan>) {
    && Names(done.stepped) <= steps && done.waiting <= waits
    && (!done.raised ==> Names(done.stepped) == steps && done.waiting == waits)
  }

  function Steps(
    report: Report, intents: map<IntentId, Intent>, p: Pacing, batch: seq<IntentId>, skip: set<IntentId>, now: int)
    : seq<IntentId>
  {
    Names(report.stepped) + ToStep(intents, p, batch, skip, now)
  }

  function Waits(
    report: Report, intents: map<IntentId, Intent>, p: Pacing, batch: seq<IntentId>, skip: set<IntentId>, now: int)
    : seq<Plan>
  {
    report.waiting + ToWait(intents, p, batch, skip, now)
  }

  lemma HeadSkipped(
    report: Report, intents: map<IntentId, Intent>, p: Pacing, batch: seq<IntentId>, skip: set<IntentId>, now: int)
    requires batch != []
    requires batch[0] in skip || batch[0] !in intents
             || (now >= DueAfter(intents[batch[0]], p) && Unpaid(intents[batch[0]]))
    ensures Steps(report, intents, p, batch, skip, now) == Steps(report, intents, p, batch[1..], skip, now)
    ensures Waits(report, intents, p, batch, skip, now) == Waits(report, intents, p, batch[1..], skip, now)
  {
    var rest := batch[1..];
    assert ToStep(intents, p, batch, skip, now) == [] + ToStep(intents, p, rest, skip, now)
           == ToStep(intents, p, rest, skip, now);
    assert ToWait(intents, p, batch, skip, now) == [] + ToWait(intents, p, rest, skip, now)
           == ToWait(intents, p, rest, skip, now);
  }

  lemma HeadWaits(
    report: Report, intents: map<IntentId, Intent>, p: Pacing, batch: seq<IntentId>, skip: set<IntentId>, now: int)
    requires batch != [] && batch[0] !in skip && batch[0] in intents && now < DueAfter(intents[batch[0]], p)
    ensures var i := intents[batch[0]];
            var more := report.(waiting := report.waiting + [Plan(batch[0], i.state, i.retryCount, DueAfter(i, p))]);
            && Steps(report, intents, p, batch, skip, now) == Steps(more, intents, p, batch[1..], skip, now)
            && Waits(report, intents, p, batch, skip, now) == Waits(more, intents, p, batch[1..], skip, now)
  {}

  lemma HeadSteps(report: Report, intents: map<IntentId, Intent>, p: Pacing, batch: seq<IntentId>, skip: set<IntentId>,
                  now: int, result: StepResult)
    requires batch != [] && batch[0] !in skip && batch[0] in intents && now >= DueAfter(intents[batch[0]], p)
    requires !Unpaid(intents[batch[0]])
    ensures var more := report.(stepped := report.stepped + [Moved(batch[0], result)]);
            && Steps(report, intents, p, batch, skip, now) == Steps(more, intents, p, batch[1..], skip, now)
            && Waits(report, intents, p, batch, skip, now) == Waits(more, intents, p, batch[1..], skip, now)
            && Names(report.stepped) <= Steps(report, intents, p, batch, skip, now)
  {
    NamesAppend(report.stepped, Moved(batch[0], result));
    Regroup(Names(report.stepped), batch[0], ToStep(intents, p, batch[1..], skip, now));
  }

  lemma Regroup<T>(a: seq<T>, x: T, b: seq<T>)
    ensures a + ([x] + b) == (a + [x]) + b && a <= a + ([x] + b)
  {}

  /** However the outside systems answer, a pass steps exactly the due intents of its batch that
      have a deposit, once each and in order, and reports the rest as waiting; only an exception
      cuts it short. */
  lemma {:induction false} PassStepsTheDue(
    sys: System, policy: Policy, p: Pacing, batch: seq<IntentId>, skip: set<IntentId>, now: int,
    faults: IntentId -> Fault, report: Report)
    requires S.Shape(sys.out.sim) && Distinct(batch) && !report.raised
    ensures AsMeant(Pass(sys, policy, p, batch, skip, now, faults, report).1,
                    Steps(report, sys.db.intents, p, batch, skip, now),
                      Waits(report, sys.db.intents, p, batch, skip, now))
    decreases |batch|, 1
  {
    if batch != [] {
      var id, rest := batch[0], batch[1..];
      if id in skip || id !in sys.db.intents {
        HeadSkipped(report, sys.db.intents, p, batch, skip, now);
        PassStepsTheDue(sys, policy, p, rest, skip, now, faults, report);
      } else if now < DueAfter(sys.db.intents[id], p) {
        var i := sys.db.intents[id];
        var plan := Plan(id, i.state, i.retryCount, DueAfter(i, p));
        HeadWaits(report, sys.db.intents, p, batch, skip, now);
        PassStepsTheDue(sys, policy, p, rest, skip, now, faults, report.(waiting := report.waiting + [plan]));
      } else {
        PassVisits(sys, policy, p, batch, skip, now, faults, report);
      }
    }
  }

  lemma PassVisits(
    sys: System, policy: Policy, p: Pacing, batch: seq<IntentId>, skip: set<IntentId>, now: int,
    faults: IntentId -> Fault, report: Report)
    requires S.Shape(sys.out.sim) && Distinct(batch) && !report.raised && batch != []
    requires batch[0] !in skip && batch[0] in sys.db.intents && now >= DueAfter(sys.db.intents[batch[0]], p)
    ensures AsMeant(Pass(sys, policy, p, batch, skip, now, faults, report).1,
                    Steps(report, sys.db.intents, p, batch, skip, now),
                      Waits(report, sys.db.intents, p, batch, skip, now))
    decreases |batch|, 0
  {
    var id, rest := batch[0], batch[1..];
    var (after, done) := Visit(sys, policy, id, now, faults(id));
    VisitTouchesOne(sys, policy, id, now, faults(id));
    VisitAnswers(sys, policy, id, now, faults(id));
    assert forall x :: x in rest ==> x != id;
    PlansLookOnlyAtTheBatch(sys.db.intents, after.db.intents, p, rest, skip, now);
    if done.None? {
      HeadSkipped(report, sys.db.intents, p, batch, skip, now);
      PassStepsTheDue(after, policy, p, rest, skip, now, faults, report);
    } else {
      HeadSteps(report, sys.db.intents, p, batch, skip, now, done.value);
      if !done.value.Raised? {
        PassStepsTheDue(after, policy, p, rest, skip, now, faults,
          report.(stepped := report.stepped + [Moved(id, done.value)]));
      }
    }
  }

  lemma {:induction false} ToStepIsDistinct(
    intents: map<IntentId, Intent>, p: Pacing, batch: seq<IntentId>, skip: set<IntentId>, now: int)
    requires Distinct(batch)
    ensures var steps := ToStep(intents, p, batch, skip, now);
            Distinct(steps) && forall id :: id in steps <==>
              id in batch && id !in skip && id in intents && now >= DueAfter(intents[id], p) && !Unpaid(intents[id])
    decreases |batch|
  {
    if batch != [] {
      ToStepIsDistinct(intents, p, batch[1..], skip, now);
      assert forall id :: id in batch <==> id == batch[0] || id in batch[1..];
    }
  }

  // -------------------------------------------------------------- starvation

  /** One reconciler pass some time later, over whatever the query answered. */
  datatype Round = Round(now: int, batch: seq<IntentId>, skip: set<IntentId>, faults: IntentId -> Fault)

  ghost predicate Rounds(sys: System, policy: Policy, p: Pacing, rounds: seq<Round>)
    requires S.Shape(sys.out.sim)
    decreases |rounds|
  {
    rounds == [] ||
    (var r := rounds[0];
     && OldestOf(sys.db.intents, Candidates(sys.db.intents, r.now, p), p.batchLimit, r.batch)
     && Rounds(Pass(sys, policy, p, r.batch, r.skip, r.now, r.faults, NOTHING).0, policy, p, rounds[1..]))
  }

  ghost function AfterRounds(sys: System, policy: Policy, p: Pacing, rounds: seq<Round>): System
    requires S.Shape(sys.out.sim) && Rounds(sys, policy, p, rounds)
    decreases |rounds|
  {
    if rounds == [] then sys
    else
      var r := rounds[0];
      AfterRounds(Pass(sys, policy, p, r.batch, r.skip, r.now, r.faults, NOTHING).0, policy, p, rounds[1..])
  }

  /** A batch's worth of older intents that nobody has paid for. */
  predicate BlockedBy(intents: map<IntentId, Intent>, unpaid: set<IntentId>, id: IntentId, p: Pacing) {
    && id in intents && |unpaid| >= p.batchLimit
    && forall u :: u in unpaid ==> u in intents && Unpaid(intents[u]) && intents[u].changedAt < intents[id].changedAt
  }

  lemma BlockedIsLeft(sys: System, policy: Policy, p: Pacing, r: Round, unpaid: set<IntentId>, id: IntentId)
    requires S.Shape(sys.out.sim) && BlockedBy(sys.db.intents, unpaid, id, p)
    requires OldestOf(sys.db.intents, Candidates(sys.db.intents, r.now, p), p.batchLimit, r.batch)
    ensures var after := Pass(sys, policy, p, r.batch, r.skip, r.now, r.faults, NOTHING).0;
            BlockedBy(after.db.intents, unpaid, id, p) && after.db.intents[id] == sys.db.intents[id]
  {
    var intents := sys.db.intents;
    var from := Candidates(intents, r.now, p);
    if id in r.batch {
      assert id in Ids(r.batch) && unpaid <= OlderThan(intents, from, id);
      SubsetCount(unpaid, OlderThan(intents, from, id));
      CrowdedOut(intents, from, p.batchLimit, r.batch, id);
    }
    PassLeaves(sys, policy, p, r.batch, r.skip, r.now, r.faults, NOTHING, id);
    forall u | u in unpaid
      ensures var after := Pass(sys, policy, p, r.batch, r.skip, r.now, r.faults, NOTHING).0;
              u in after.db.intents && after.db.intents[u] == intents[u]
    {
      PassLeaves(sys, policy, p, r.batch, r.skip, r.now, r.faults, NOTHING, u);
    }
  }

  /** Behind a full batch of older unpaid intents the reconciler never reaches an intent, however
      many passes go by: the batch limit is spent on rows it then walks past. */
  lemma {:induction false} StarvedForGood(
    sys: System, policy: Policy, p: Pacing, rounds: seq<Round>, unpaid: set<IntentId>, id: IntentId)
    requires S.Shape(sys.out.sim) && Rounds(sys, policy, p, rounds) && BlockedBy(sys.db.intents, unpaid, id, p)
    ensures var after := AfterRounds(sys, policy, p, rounds);
            id in after.db.intents && after.db.intents[id] == sys.db.intents[id]
    decreases |rounds|
  {
    if rounds != [] {
      var r := rounds[0];
      BlockedIsLeft(sys, policy, p, r, unpaid, id);
      StarvedForGood(Pass(sys, policy, p, r.batch, r.skip, r.now, r.faults, NOTHING).0, policy, p, rounds[1..], unpaid,
        id);
    }
  }

  // Such a state is there to be reached: a batch's worth of customers who opened a top-up and
  // never paid, and one after them who did.

  const CARD := Card("p", "c")
  const DOLLAR := Money(100, "USD")
  const PAID_ID := "paid"

  function Nth(n: nat): IntentId {
    seq(n + 5, _ => 'u')
  }

  function Unpaids(n: nat): (db: Db)
    ensures forall id :: id in db.intents <==> exists k: nat :: k < n && id == Nth(k)
    ensures forall id :: id in db.intents ==> Unpaid(db.intents[id]) && db.intents[id].changedAt == 0
  {
    if n == 0 then EMPTY
    else
      var before := Unpaids(n - 1);
      assert forall k: nat :: k < n - 1 ==> |Nth(k)| != |Nth(n - 1)|;
      Create(before, Opening(Nth(n - 1), CARD, DOLLAR, None, None), 0).0
  }

  function UnpaidIds(n: nat): set<IntentId> {
    set k: nat | k < n :: Nth(k)
  }

  lemma {:induction false} UnpaidCount(n: nat)
    ensures |UnpaidIds(n)| == n
  {
    if n > 0 {
      UnpaidCount(n - 1);
      assert forall k: nat :: k < n - 1 ==> |Nth(k)| != |Nth(n - 1)|;
      assert UnpaidIds(n) == UnpaidIds(n - 1) + {Nth(n - 1)};
    }
  }

  const PAID := Opening(PAID_ID, CARD, DOLLAR, Some("s"), Some(DepositKey("s")))

  function PaidOpened(n: nat): Db {
    assert |PAID_ID| == 4;
    Create(Unpaids(n), PAID, 1).0
  }

  function PaidLast(n: nat): Db {
    Advance(PaidOpened(n), Intake.ConfirmRequest(PAID_ID, "s"), 1).0
  }

  lemma {:induction false} UnpaidsAreSound(n: nat)
    ensures Sound(Unpaids(n)) && forall key :: !Taken(Unpaids(n).ledger, key)
  {
    if n == 0 {
      EmptyIsSound();
    } else {
      UnpaidsAreSound(n - 1);
      assert forall k: nat :: k < n - 1 ==> |Nth(k)| != |Nth(n - 1)|;
      CreateKeepsSound(Unpaids(n - 1), Opening(Nth(n - 1), CARD, DOLLAR, None, None), 0);
      AppendRow(Unpaids(n - 1).ledger, CreatedRow(Nth(n - 1), CARD, DOLLAR, None, 0, None));
    }
  }

  /** For every batch limit there are tables, made by opening intents and confirming one deposit,
      in which a paid intent is due from then on and no number of passes ever reaches it. */
  lemma StarvationHappens(p: Pacing, out: Outside, policy: Policy, rounds: seq<Round>)
    requires S.Shape(out.sim) && Rounds(System(PaidLast(p.batchLimit), out), policy, p, rounds)
    ensures var db := PaidLast(p.batchLimit); var after := AfterRounds(System(db, out), policy, p, rounds).db;
            && Sound(db) && BlockedBy(db.intents, UnpaidIds(p.batchLimit), PAID_ID, p)
            && PAID_ID in after.intents && after.intents[PAID_ID] == db.intents[PAID_ID]
            && after.intents[PAID_ID].state == DepositConfirmed
            && forall now :: now >= 1 + Delay(0, p) ==> Due(after.intents[PAID_ID], now, p)
  {
    var db, n := PaidLast(p.batchLimit), p.batchLimit;
    PaidLastIsSound(n);
    UnpaidCount(n);
    assert BlockedBy(db.intents, UnpaidIds(n), PAID_ID, p);
    StarvedForGood(System(db, out), policy, p, rounds, UnpaidIds(n), PAID_ID);
  }

  function PaidIntent(state: State): Intent {
    Intent(state, CARD, DOLLAR, None, Some("s"), None, None, 0, None, 1)
  }

  lemma PaidOpenedIsSound(n: nat)
    ensures var db := PaidOpened(n);
            && Sound(db) && db.intents == Unpaids(n).intents[PAID_ID := PaidIntent(Pending)]
            && !Taken(db.ledger, ConfirmKey("s")) && PAID_ID !in Unpaids(n).intents
  {
    UnpaidsAreSound(n);
    assert forall k: nat :: |Nth(k)| != |PAID_ID|;
    CreateKeepsSound(Unpaids(n), PAID, 1);
    AppendRow(Unpaids(n).ledger, CreatedRow(PAID_ID, CARD, DOLLAR, Some("s"), 1, Some(DepositKey("s"))));
  }

  lemma PaidLastIsSound(n: nat)
    ensures var db := PaidLast(n);
            && Sound(db) && PAID_ID !in Unpaids(n).intents
            && db.intents == Unpaids(n).intents[PAID_ID := PaidIntent(DepositConfirmed)]
  {
    PaidOpenedIsSound(n);
    ApplyKeepsSound(PaidOpened(n), Intake.ConfirmRequest(PAID_ID, "s"), 1);
  }
}
