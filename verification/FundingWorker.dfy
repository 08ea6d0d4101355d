/** One pass of the process that makes the pipeline move: poll every watched address, drive what is
    new, reconcile the rest. */
module FundingWorker {
  import opened Basics
  import opened FundingStates
  import opened Ledger
  import opened Machine
  import opened Engine
  import opened Reconciler
  import Intake
  import D = Deposits
  import Watcher
  import S = Safe
  import FundingStore
  import Driver = TopUpEngine

  // ----------------------------------------------------------------- polling

  /** One watched address on this pass: what the node listed past its cursor, newest first, what
      it could show of it, and the ids drawn for what it may open. */
  datatype Polled = Polled(
    addr: Intake.Address, listing: seq<Watcher.Entry>, available: set<Signature>, ids: seq<IntentId>)

  predicate AllUndrawn(db: Db, polls: seq<Polled>) {
    && (forall i :: 0 <= i < |polls| ==> |polls[i].listing| <= |polls[i].ids| && D.Undrawn(db, polls[i].ids))
    && forall i, j, id :: 0 <= i < j < |polls| && id in polls[i].ids ==> id !in polls[j].ids
  }

  function RouteTo(routes: map<Intake.Address, Card>, addr: Intake.Address): Option<Card> {
    if addr in routes then Some(routes[addr]) else None
  }

  function PageFor(polled: Polled, unit: nat): Watcher.Page
    requires unit > 0
  {
    Watcher.PageOf(Watcher.Reverse(polled.listing), polled.available, unit)
  }

  datatype Watched = Watched(db: Db, cursors: map<Intake.Address, Watcher.Position>, reports: seq<D.Report>)

  /** Every watched address in turn: its page goes on record and its cursor follows. */
  function PollAll(
    start: Watched, routes: map<Intake.Address, Card>, currency: string, unit: nat, polls: seq<Polled>, now: int)
    : Watched
    requires unit > 0 && AllUndrawn(start.db, polls)
    decreases |polls|
  {
    if polls == [] then start
    else
      PollDraws(start.db, routes, currency, unit, polls, now);
      var page := PageFor(polls[0], unit);
      var (db, report) := D.RecordPage(start.db, RouteTo(routes, polls[0].addr), currency, page, polls[0].ids, now);
      var cursors := if page.cursor.None? then start.cursors
                     else Intake.Advanced(start.cursors, polls[0].addr, page.cursor.value);
      PollAll(Watched(db, cursors, start.reports + [report]), routes, currency, unit, polls[1..], now)
  }

  lemma PollDraws(db: Db, routes: map<Intake.Address, Card>, currency: string, unit: nat, polls: seq<Polled>, now: int)
    requires unit > 0 && polls != [] && AllUndrawn(db, polls)
    ensures var page := PageFor(polls[0], unit);
            && |page.deposits| <= |polls[0].ids| && D.Positive(page.deposits) && D.Undrawn(db, polls[0].ids)
            && AllUndrawn(D.RecordPage(db, RouteTo(routes, polls[0].addr), currency, page, polls[0].ids, now).0,
               polls[1..])
  {
    var page := PageFor(polls[0], unit);
    D.PageIsPositive(Watcher.Reverse(polls[0].listing), polls[0].available, unit);
    D.RecordPageDraws(db, RouteTo(routes, polls[0].addr), currency, page, polls[0].ids, now);
  }

  // ----------------------------------------- what every step keeps of the tables

  predicate Apart(db: Db, req: Request) {
    req.intent in db.intents && db.intents[req.intent].state != Pending && KeepsDeposit(req)
      && (req.key.Some? ==> req.key.value.HopKey?)
  }

  lemma CarryKeepsTables(sys: System, frm: State, d: Decision, now: int)
    requires D.Consistent(sys.db) && (d.Ask? ==> Apart(sys.db, d.req))
    ensures D.Consistent(Carry(sys, frm, d, now).0.db)
  {
    if d.Ask? {
      Intake.HopKeepsTables(sys.db, d.req, now);
    }
  }

  lemma StepKeepsTables(sys: System, policy: Policy, id: IntentId, now: int, fault: Fault)
    requires S.Shape(sys.out.sim) && D.Consistent(sys.db)
    ensures D.Consistent(Step(sys, policy, id, now, fault).0.db)
  {
    if id in sys.db.intents {
      var i := sys.db.intents[id];
      match i.state
      case DepositConfirmed =>
        var (out, answer) := CallSubmit(sys.out, policy, id, i, now, fault);
        CarryKeepsTables(sys.(out := out), i.state, OnSubmit(policy, id, i, answer), now);
      case Bridging => PollKeepsTables(sys, policy, id, now, fault);
      case Bridged => FundKeepsTables(sys, policy, id, now, fault);
      case Funding => FundKeepsTables(sys, policy, id, now, fault);
      case _ =>
    }
  }

  lemma PollKeepsTables(sys: System, policy: Policy, id: IntentId, now: int, fault: Fault)
    requires D.Consistent(sys.db) && id in sys.db.intents && sys.db.intents[id].state == Bridging
    ensures D.Consistent(StepPoll(sys, policy, id, now, fault).0.db)
  {
    var i := sys.db.intents[id];
    if i.bridgeRef.None? {
      CarryKeepsTables(sys, i.state, GiveUp(id, i, "in BRIDGING with no bridge reference"), now);
    } else {
      CarryKeepsTables(sys, i.state, OnStatus(policy, id, i, CallStatus(sys.out, i.bridgeRef.value, now, fault)), now);
    }
  }

  lemma FundKeepsTables(sys: System, policy: Policy, id: IntentId, now: int, fault: Fault)
    requires S.Shape(sys.out.sim) && D.Consistent(sys.db) && id in sys.db.intents
    requires sys.db.intents[id].state == Bridged || sys.db.intents[id].state == Funding
    ensures D.Consistent(StepFund(sys, policy, id, now, fault).0.db)
  {
    if sys.db.intents[id].state == Bridged {
      EnterKeepsTables(sys.db, id, now);
      var (db, entered) := Advance(sys.db, Entering(id), now);
      if entered.Returned() {
        FundingKeepsTables(System(db, sys.out), Bridged, policy, id, entered.intent, now, fault);
      }
    } else {
      FundingKeepsTables(sys, Funding, policy, id, sys.db.intents[id], now, fault);
    }
  }

  lemma EnterKeepsTables(db: Db, id: IntentId, now: int)
    requires D.Consistent(db) && id in db.intents && db.intents[id].state == Bridged
    ensures var after := Advance(db, Entering(id), now).0;
            D.Consistent(after) && id in after.intents && after.intents[id].state != Pending
  {
    Intake.HopKeepsTables(db, Entering(id), now);
  }

  lemma FundingKeepsTables(sys: System, frm: State, policy: Policy, id: IntentId, i: Intent, now: int, fault: Fault)
    requires S.Shape(sys.out.sim) && D.Consistent(sys.db) && id in sys.db.intents && sys.db.intents[id].state != Pending
    ensures var (out, answer) := CallFund(sys.out, id, i, fault);
            D.Consistent(Carry(System(sys.db, out), frm, OnFund(policy, id, i, answer), now).0.db)
  {
    var (out, answer) := CallFund(sys.out, id, i, fault);
    CarryKeepsTables(System(sys.db, out), frm, OnFund(policy, id, i, answer), now);
  }

  lemma VisitKeepsTables(sys: System, policy: Policy, id: IntentId, now: int, fault: Fault)
    requires S.Shape(sys.out.sim) && D.Consistent(sys.db) && id in sys.db.intents
    ensures D.Consistent(Visit(sys, policy, id, now, fault).0.db)
  {
    var i := sys.db.intents[id];
    if i.state != Pending {
      StepKeepsTables(sys, policy, id, now, fault);
    } else if i.depositRef.Some? {
      Intake.HopKeepsTables(sys.db, Intake.ConfirmRequest(id, i.depositRef.value), now);
    }
  }

  // ----------------------------------------------------------------- driving

  predicate Ready(i: Intent, now: int, firstAttemptAfter: nat) {
    Driven(i.state) && i.retryCount == 0 && i.changedAt <= now - firstAttemptAfter
  }

  function ReadyIntents(intents: map<IntentId, Intent>, now: int, firstAttemptAfter: nat): set<IntentId> {
    set id | id in intents && Ready(intents[id], now, firstAttemptAfter)
  }

  /** First attempts for everything ready; an exception ends the pass. */
  function Drive(sys: System, policy: Policy, ready: seq<IntentId>, now: int, faults: IntentId -> Fault, report: Report)
    : (r: (System, Report))
    requires S.Shape(sys.out.sim)
    ensures S.Shape(r.0.out.sim)
    decreases |ready|
  {
    if ready == [] then (sys, report)
    else
      StepKeepsShape(sys, policy, ready[0], now, faults(ready[0]));
      var (after, result) := Step(sys, policy, ready[0], now, faults(ready[0]));
      if result.Raised? then (after, report.(raised := true))
      else Drive(after, policy, ready[1..], now, faults, report.(stepped := report.stepped + [Moved(ready[0], result)]))
  }

  function Touched(report: Report): set<IntentId> {
    Ids(Names(report.stepped))
  }

  /** How the database answers `ORDER BY state_changed_at LIMIT n` over some rows. */
  type Query = (map<IntentId, Intent>, set<IntentId>, nat) -> seq<IntentId>

  ghost predicate Answers(query: Query) {
    forall intents: map<IntentId, Intent>, from: set<IntentId>, limit: nat :: from <= intents.Keys ==>
      OldestOf(intents, from, limit, query(intents, from, limit))
  }

  /** The rows a first attempt is made for: a call of the engine's is due, none has failed yet, and
      nobody has touched the intent for a moment. What has been retried is left to the reconciler. */
  lemma OnlyUntriedAreDriven(
    intents: map<IntentId, Intent>, now: int, firstAttemptAfter: nat, limit: nat, batch: seq<IntentId>, id: IntentId)
    requires OldestOf(intents, ReadyIntents(intents, now, firstAttemptAfter), limit, batch)
    ensures id in batch ==>
              && id in intents && intents[id].retryCount == 0 && now - intents[id].changedAt >= firstAttemptAfter
              && intents[id].state in {DepositConfirmed, Bridging, Bridged, Funding}
    ensures (|batch| < limit && id in intents && intents[id].retryCount == 0
             && now - intents[id].changedAt >= firstAttemptAfter
             && intents[id].state in {DepositConfirmed, Bridging, Bridged, Funding}) ==> id in batch
  {
    var ready := ReadyIntents(intents, now, firstAttemptAfter);
    DistinctCount(batch);
    assert id in batch <==> id in Ids(batch);
    if |batch| < limit {
      SubsetCount(Ids(batch), ready);
    }
  }

  // -------------------------------------------------------------------- laws

  predicate DroveAll(done: Report, all: seq<IntentId>) {
    Names(done.stepped) <= all && (!done.raised ==> Names(done.stepped) == all)
  }

  lemma Shift<T>(a: seq<T>, s: seq<T>)
    requires s != []
    ensures (a + [s[0]]) + s[1..] == a + s && a <= a + s
  {}

  lemma {:induction false} DriveStepsEachOnce(
    sys: System, policy: Policy, ready: seq<IntentId>, now: int, faults: IntentId -> Fault, report: Report)
    requires S.Shape(sys.out.sim) && !report.raised
    ensures DroveAll(Drive(sys, policy, ready, now, faults, report).1, Names(report.stepped) + ready)
    decreases |ready|
  {
    if ready != [] {
      StepKeepsShape(sys, policy, ready[0], now, faults(ready[0]));
      var (after, result) := Step(sys, policy, ready[0], now, faults(ready[0]));
      Shift(Names(report.stepped), ready);
      if !result.Raised? {
        NamesAppend(report.stepped, Moved(ready[0], result));
        DriveStepsEachOnce(after, policy, ready[1..], now, faults,
          report.(stepped := report.stepped + [Moved(ready[0], result)]));
      }
    }
  }

  lemma PrefixOfDistinct(a: seq<IntentId>, b: seq<IntentId>)
    requires a <= b && Distinct(b)
    ensures Distinct(a)
    ensures forall id :: id in a ==> id in b
  {}

  lemma DistinctTogether(a: seq<IntentId>, b: seq<IntentId>)
    requires Distinct(a) && Distinct(b) && forall id :: id in a ==> id !in b
    ensures Distinct(a + b)
  {
    forall i, j | 0 <= i < j < |a + b| ensures (a + b)[i] != (a + b)[j] {
      if i < |a| <= j {
        assert a[i] in a && b[j - |a|] in b;
      }
    }
  }

  lemma DrivenAreDistinct(
    sys: System, policy: Policy, ready: seq<IntentId>, now: int, faults: IntentId -> Fault)
    requires S.Shape(sys.out.sim) && Distinct(ready)
    ensures Distinct(Names(Drive(sys, policy, ready, now, faults, NOTHING).1.stepped))
  {
    DriveStepsEachOnce(sys, policy, ready, now, faults, NOTHING);
    assert Names([]) + ready == ready;
    PrefixOfDistinct(Names(Drive(sys, policy, ready, now, faults, NOTHING).1.stepped), ready);
  }

  lemma ReconciledAreNew(
    sys: System, policy: Policy, p: Pacing, stuck: seq<IntentId>, skip: set<IntentId>, now: int,
      faults: IntentId -> Fault)
    requires S.Shape(sys.out.sim) && Distinct(stuck)
    ensures var names := Names(Pass(sys, policy, p, stuck, skip, now, faults, NOTHING).1.stepped);
            Distinct(names) && forall id :: id in names ==> id !in skip
  {
    var steps := ToStep(sys.db.intents, p, stuck, skip, now);
    PassStepsTheDue(sys, policy, p, stuck, skip, now, faults, NOTHING);
    ToStepIsDistinct(sys.db.intents, p, stuck, skip, now);
    assert Names([]) + steps == steps;
    PrefixOfDistinct(Names(Pass(sys, policy, p, stuck, skip, now, faults, NOTHING).1.stepped), steps);
  }

  /** Between driving and reconciling, no intent is stepped twice in one pass. */
  lemma OnePassStepsEachOnce(
    sys: System, policy: Policy, p: Pacing, ready: seq<IntentId>, stuck: seq<IntentId>, now: int,
      faults: IntentId -> Fault)
    requires S.Shape(sys.out.sim) && Distinct(ready) && Distinct(stuck)
    ensures var (mid, driven) := Drive(sys, policy, ready, now, faults, NOTHING);
            Distinct(Names(driven.stepped)
                     + Names(Pass(mid, policy, p, stuck, Touched(driven), now, faults, NOTHING).1.stepped))
  {
    var (mid, driven) := Drive(sys, policy, ready, now, faults, NOTHING);
    DrivenAreDistinct(sys, policy, ready, now, faults);
    ReconciledAreNew(mid, policy, p, stuck, Touched(driven), now, faults);
    DistinctTogether(Names(driven.stepped),
      Names(Pass(mid, policy, p, stuck, Touched(driven), now, faults, NOTHING).1.stepped));
  }

  // ------------------------------------------------------------------- class

  class Worker {
    const store: FundingStore.Store
    const engine: Driver.TopUpEngine
    const pacing: Pacing
    const firstAttemptAfter: nat
    const collector: D.DepositCollector
    const watcher: Watcher.SolanaDepositWatcher
    const query: Query

    constructor (store: FundingStore.Store, engine: Driver.TopUpEngine, pacing: Pacing, firstAttemptAfter: nat,
                 collector: D.DepositCollector, watcher: Watcher.SolanaDepositWatcher, query: Query)
      requires engine.store == store && engine.Valid() && Answers(query)
      requires collector.store == store && collector.Valid() && watcher.Valid()
      ensures Valid() && this.store == store && this.engine == engine && this.pacing == pacing
      ensures this.firstAttemptAfter == firstAttemptAfter && this.query == query
      ensures this.collector == collector && this.watcher == watcher
    {
      this.store, this.engine, this.pacing, this.firstAttemptAfter, this.query :=
        store, engine, pacing, firstAttemptAfter, query;
      this.collector, this.watcher := collector, watcher;
    }

    ghost predicate Valid()
      reads store, engine.store, engine.bridge, engine.issuer, collector.store
    {
      && engine.store == store && engine.Valid() && Answers(query)
      && collector.store == store && collector.Valid() && watcher.Valid()
    }

    function FindStuck(now: int): (batch: seq<IntentId>)
      requires Valid()
      reads store, engine.store, engine.bridge, engine.issuer, collector.store
      ensures OldestOf(store.intents, Candidates(store.intents, now, pacing), pacing.batchLimit, batch)
    {
      query(store.intents, Candidates(store.intents, now, pacing), pacing.batchLimit)
    }

    function FindReady(now: int): (batch: seq<IntentId>)
      requires Valid()
      reads store, engine.store, engine.bridge, engine.issuer, collector.store
      ensures OldestOf(store.intents, ReadyIntents(store.intents, now, firstAttemptAfter), pacing.batchLimit, batch)
    {
      query(store.intents, ReadyIntents(store.intents, now, firstAttemptAfter), pacing.batchLimit)
    }

    method ConfirmStalledDeposit(id: IntentId, now: int) returns (result: Option<StepResult>)
      requires Valid() && id in store.intents && store.intents[id].state == Pending
      modifies store
      ensures Valid()
      ensures (engine.State(), result) == Visit(old(engine.State()), engine.policy, id, now, Fine)
    {
      var i := store.intents[id];
      VisitKeepsTables(engine.State(), engine.policy, id, now, Fine);
      if i.depositRef.None? {
        return None;
      }
      var outcome := store.AdvanceIntent(Intake.ConfirmRequest(id, i.depositRef.value), now);
      result := Some(if outcome.Returned() then Stepped(Pending, outcome.intent.state) else Raised);
    }

    method VisitIntent(id: IntentId, now: int, fault: Fault) returns (result: Option<StepResult>)
      requires Valid() && id in store.intents
      modifies store, engine.bridge, engine.issuer
      ensures Valid()
      ensures (engine.State(), result) == Visit(old(engine.State()), engine.policy, id, now, fault)
    {
      VisitKeepsTables(engine.State(), engine.policy, id, now, fault);
      if store.intents[id].state == Pending {
        result := ConfirmStalledDeposit(id, now);
      } else {
        var r := engine.Step(id, now, fault);
        result := Some(r);
      }
    }

    method Reconcile(batch: seq<IntentId>, skip: set<IntentId>, now: int, faults: IntentId -> Fault)
        returns (report: Report)
      requires Valid()
      modifies store, engine.bridge, engine.issuer
      ensures Valid()
      ensures (engine.State(), report)
              == Pass(old(engine.State()), engine.policy, pacing, batch, skip, now, faults, NOTHING)
    {
      report := NOTHING;
      var k := 0;
      while k < |batch|
        invariant k <= |batch| && Valid()
        invariant Pass(old(engine.State()), engine.policy, pacing, batch, skip, now, faults, NOTHING)
                  == Pass(engine.State(), engine.policy, pacing, batch[k..], skip, now, faults, report)
      {
        var id := batch[k];
        assert batch[k..][0] == id && batch[k..][1..] == batch[k + 1..];
        k := k + 1;
        if id in skip || id !in store.intents {
          continue;
        }
        var i := store.intents[id];
        var due := DueAfter(i, pacing);
        if now < due {
          report := report.(waiting := report.waiting + [Plan(id, i.state, i.retryCount, due)]);
          continue;
        }
        var result := VisitIntent(id, now, faults(id));
        if result.Some? {
          if result.value.Raised? {
            report := report.(raised := true);
            return;
          }
          report := report.(stepped := report.stepped + [Moved(id, result.value)]);
        }
      }
    }

    method DriveReady(ready: seq<IntentId>, now: int, faults: IntentId -> Fault) returns (report: Report)
      requires Valid()
      modifies store, engine.bridge, engine.issuer
      ensures Valid()
      ensures (engine.State(), report) == Drive(old(engine.State()), engine.policy, ready, now, faults, NOTHING)
    {
      report := NOTHING;
      var k := 0;
      while k < |ready|
        invariant k <= |ready| && Valid()
        invariant Drive(old(engine.State()), engine.policy, ready, now, faults, NOTHING)
                  == Drive(engine.State(), engine.policy, ready[k..], now, faults, report)
      {
        assert ready[k..][0] == ready[k] && ready[k..][1..] == ready[k + 1..];
        StepKeepsTables(engine.State(), engine.policy, ready[k], now, faults(ready[k]));
        var result := engine.Step(ready[k], now, faults(ready[k]));
        if result.Raised? {
          report := report.(raised := true);
          return;
        }
        report := report.(stepped := report.stepped + [Moved(ready[k], result)]);
        k := k + 1;
      }
    }

    /** Every watched address in turn. */
    method PollEach(polls: seq<Polled>, now: int) returns (reports: seq<D.Report>)
      requires Valid() && AllUndrawn(store.State(), polls)
      modifies collector`cursors, store
      ensures Valid() && engine.State().out == old(engine.State()).out
      ensures Watched(store.State(), collector.cursors, reports)
              == PollAll(Watched(old(store.State()), old(collector.cursors), []), collector.routes, collector.currency,
                         watcher.unit, polls, now)
    {
      reports := [];
      ghost var start := Watched(store.State(), collector.cursors, []);
      var k := 0;
      while k < |polls|
        invariant k <= |polls| && Valid() && AllUndrawn(store.State(), polls[k..])
        invariant engine.State().out == old(engine.State()).out && collector.routes == old(collector.routes)
        invariant PollAll(start, collector.routes, collector.currency, watcher.unit, polls, now)
                  == PollAll(Watched(store.State(), collector.cursors, reports), collector.routes, collector.currency,
                             watcher.unit, polls[k..], now)
      {
        var next := polls[k];
        assert polls[k..][0] == next && polls[k..][1..] == polls[k + 1..];
        PollDraws(store.State(), collector.routes, collector.currency, watcher.unit, polls[k..], now);
        assert collector.RouteFor(next.addr) == RouteTo(collector.routes, next.addr);
        var report := collector.CollectDeposits(watcher, next.addr, next.listing, next.available, next.ids, now);
        reports := reports + [report];
        k := k + 1;
      }
    }

    /** Poll every watched address, drive what is new, then reconcile whatever was not driven. */
    method RunPass(polls: seq<Polled>, now: int, faults: IntentId -> Fault)
      returns (deposits: seq<D.Report>, driven: Report, reconciled: Report)
      requires Valid() && AllUndrawn(store.State(), polls)
      modifies collector`cursors, store, engine.bridge, engine.issuer
      ensures Valid()
      ensures Distinct(Names(driven.stepped) + Names(reconciled.stepped))
      ensures var watched := PollAll(Watched(old(store.State()), old(collector.cursors), []), collector.routes,
                                     collector.currency, watcher.unit, polls, now);
              var sys := System(watched.db, old(engine.State()).out);
              var ready := query(sys.db.intents, ReadyIntents(sys.db.intents, now, firstAttemptAfter),
                  pacing.batchLimit);
              var drove := Drive(sys, engine.policy, ready, now, faults, NOTHING);
              && deposits == watched.reports && collector.cursors == watched.cursors
              && driven == drove.1
              && (driven.raised ==> engine.State() == drove.0 && reconciled == NOTHING)
              && (!driven.raised ==>
                    var stuck := query(drove.0.db.intents, Candidates(drove.0.db.intents, now, pacing),
                        pacing.batchLimit);
                    (engine.State(), reconciled)
                    == Pass(drove.0, engine.policy, pacing, stuck, Touched(driven), now, faults, NOTHING))
    {
      deposits := PollEach(polls, now);
      driven, reconciled := StepReadyAndStuck(now, faults);
    }

    method StepReadyAndStuck(now: int, faults: IntentId -> Fault) returns (driven: Report, reconciled: Report)
      requires Valid()
      modifies store, engine.bridge, engine.issuer
      ensures Valid()
      ensures Distinct(Names(driven.stepped) + Names(reconciled.stepped))
      ensures var sys := old(engine.State());
              var ready := query(sys.db.intents, ReadyIntents(sys.db.intents, now, firstAttemptAfter),
                  pacing.batchLimit);
              var drove := Drive(sys, engine.policy, ready, now, faults, NOTHING);
              && driven == drove.1
              && (driven.raised ==> engine.State() == drove.0 && reconciled == NOTHING)
              && (!driven.raised ==>
                    var stuck := query(drove.0.db.intents, Candidates(drove.0.db.intents, now, pacing),
                        pacing.batchLimit);
                    (engine.State(), reconciled)
                    == Pass(drove.0, engine.policy, pacing, stuck, Touched(driven), now, faults, NOTHING))
    {
      ghost var start := engine.State();
      reconciled := NOTHING;
      var ready := FindReady(now);
      driven := DriveReady(ready, now, faults);
      DrivenAreDistinct(start, engine.policy, ready, now, faults);
      if driven.raised {
        assert Names(driven.stepped) + Names([]) == Names(driven.stepped);
        return;
      }
      var stuck := FindStuck(now);
      reconciled := Reconcile(stuck, Touched(driven), now, faults);
      OnePassStepsEachOnce(start, engine.policy, pacing, ready, stuck, now, faults);
    }
  }
}
