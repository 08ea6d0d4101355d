/** Collecting deposits as the code runs it — one watcher, its page, the tables it writes —
    and the proof that one collection, uninterrupted, is a run of a single intake worker. */
module Deposits {
  import opened Basics
  import opened FundingStates
  import opened Ledger
  import opened Machine
  import opened Watcher
  import opened Intake
  import FundingStore
  import Laws = IntakeLaws

  datatype Report = Report(
    intents: seq<IntentId>, duplicates: seq<Signature>, unroutable: seq<Signature>, ignored: seq<Ignored>)
  {
    function Observed(): nat { |intents| + |duplicates| + |unroutable| + |ignored| }
  }

  ghost predicate Consistent(db: Db) {
    Sound(db) && KeysTell(db)
  }

  /** Ids that have not been drawn yet, each once. */
  predicate Undrawn(db: Db, ids: seq<IntentId>) {
    (forall i :: 0 <= i < |ids| ==> ids[i] !in db.intents) && forall i, j :: 0 <= i < j < |ids| ==> ids[i] != ids[j]
  }

  predicate Positive(ds: seq<Deposit>) {
    forall d :: d in ds ==> d.minor > 0
  }

  function NoteAll(db: Db, skips: seq<Ignored>): Db
    decreases |skips|
  {
    if skips == [] then db else NoteAll(Note(db, IgnoredKey(skips[0].sig)), skips[1..])
  }

  /** One deposit of the page, filed and, when it opened an intent, confirmed. */
  function RecordOne(db: Db, report: Report, route: Option<Card>, currency: string, d: Deposit, id: IntentId, now: int)
    : (r: (Db, Report))
    requires id !in db.intents
    ensures r.0.intents.Keys <= db.intents.Keys + {id}
  {
    var (after, filing) := File(db, route, currency, d, id, now);
    match filing
    case NewIntent => (Advance(after, ConfirmRequest(id, d.sig), now).0, report.(intents := report.intents + [id]))
    case Duplicate => (after, report.(duplicates := report.duplicates + [d.sig]))
    case Unroutable => (after, report.(unroutable := report.unroutable + [d.sig]))
    case Raised => (after, report)
  }

  function RecordAll(
    db: Db, report: Report, route: Option<Card>, currency: string, ds: seq<Deposit>, ids: seq<IntentId>, now: int)
    : (Db, Report)
    requires |ds| <= |ids| && Undrawn(db, ids)
    decreases |ds|
  {
    if ds == [] then (db, report)
    else
      var (after, more) := RecordOne(db, report, route, currency, ds[0], ids[0], now);
      RecordAll(after, more, route, currency, ds[1..], ids[1..], now)
  }

  function RecordPage(db: Db, route: Option<Card>, currency: string, page: Page, ids: seq<IntentId>, now: int)
    : (Db, Report)
    requires |page.deposits| <= |ids| && Undrawn(db, ids)
  {
    NoteAllTables(db, page.ignored);
    RecordAll(NoteAll(db, page.ignored), Report([], [], [], page.ignored), route, currency, page.deposits, ids, now)
  }

  // -------------------------------------------------------------------- laws

  /** Only ids drawn for this page are ever given to what it opens. */
  lemma {:induction false} RecordAllDraws(
    db: Db, report: Report, route: Option<Card>, currency: string, ds: seq<Deposit>, ids: seq<IntentId>, now: int)
    requires |ds| <= |ids| && Undrawn(db, ids)
    ensures forall id :: id in RecordAll(db, report, route, currency, ds, ids, now).0.intents ==>
              id in db.intents || id in ids
    decreases |ds|
  {
    if ds != [] {
      var (next, more) := RecordOne(db, report, route, currency, ds[0], ids[0], now);
      RecordAllDraws(next, more, route, currency, ds[1..], ids[1..], now);
      assert next.intents.Keys <= db.intents.Keys + {ids[0]};
    }
  }

  lemma RecordPageDraws(db: Db, route: Option<Card>, currency: string, page: Page, ids: seq<IntentId>, now: int)
    requires |page.deposits| <= |ids| && Undrawn(db, ids)
    ensures forall id :: id in RecordPage(db, route, currency, page, ids, now).0.intents ==>
              id in db.intents || id in ids
  {
    NoteAllTables(db, page.ignored);
    RecordAllDraws(NoteAll(db, page.ignored), Report([], [], [], page.ignored), route, currency, page.deposits, ids,
      now);
  }

  lemma {:induction false} NoteAllTables(db: Db, skips: seq<Ignored>)
    ensures NoteAll(db, skips).intents == db.intents
    decreases |skips|
  {
    if skips != [] {
      NoteAllTables(Note(db, IgnoredKey(skips[0].sig)), skips[1..]);
    }
  }

  lemma ExtendsOn(a: Db, b: Db, c: Db)
    requires Extends(a, b) && Extends(b, c)
    ensures Extends(a, c)
  {}

  lemma {:induction false} NoteAllKeeps(db: Db, skips: seq<Ignored>)
    requires Consistent(db)
    ensures Consistent(NoteAll(db, skips)) && Extends(db, NoteAll(db, skips))
    decreases |skips|
  {
    if skips != [] {
      var next := Note(db, IgnoredKey(skips[0].sig));
      NoteKeepsTables(db, IgnoredKey(skips[0].sig));
      NoteAllKeeps(next, skips[1..]);
      ExtendsOn(db, next, NoteAll(db, skips));
    }
  }

  predicate OnRecord(db: Db, sig: Signature) {
    DepositClaimed(db.intents, sig) || Taken(db.ledger, UnroutableKey(sig))
  }

  lemma StaysOnRecord(db: Db, after: Db, sig: Signature)
    requires OnRecord(db, sig) && Extends(db, after)
    ensures OnRecord(after, sig)
  {
    if DepositClaimed(db.intents, sig) {
      ClaimStays(db, after, sig);
    } else {
      TakenStays(db.ledger, after.ledger, UnroutableKey(sig));
    }
  }

  /** What becomes of the `k`th deposit of a page: it depends on the route, on the deposits that
      had an intent before, and on the page's own earlier entries. */
  function FilingAt(db: Db, route: Option<Card>, ds: seq<Deposit>, k: nat): Filing
    requires k < |ds|
  {
    if route.None? then Unroutable
    else if DepositClaimed(db.intents, ds[k].sig) || exists l :: 0 <= l < k && ds[l].sig == ds[k].sig then Duplicate
    else NewIntent
  }

  function Filings(db: Db, route: Option<Card>, ds: seq<Deposit>): seq<Filing> {
    seq(|ds|, k requires 0 <= k < |ds| => FilingAt(db, route, ds, k))
  }

  function Sigs(ds: seq<Deposit>): seq<Signature> {
    seq(|ds|, k requires 0 <= k < |ds| => ds[k].sig)
  }

  /** The items at the positions with filing `f`, in order. */
  function Pick<T>(xs: seq<T>, filings: seq<Filing>, f: Filing): seq<T>
    requires |xs| == |filings|
  {
    if xs == [] then [] else (if filings[0] == f then [xs[0]] else []) + Pick(xs[1..], filings[1..], f)
  }

  /** The three lists of a report: `before` and what this page adds, position by position. */
  predicate SortedAs(done: Report, before: Report, ids: seq<IntentId>, sigs: seq<Signature>, filings: seq<Filing>)
    requires |ids| == |filings| && |sigs| == |filings|
  {
    && done.intents == before.intents + Pick(ids, filings, NewIntent)
    && done.duplicates == before.duplicates + Pick(sigs, filings, Duplicate)
    && done.unroutable == before.unroutable + Pick(sigs, filings, Unroutable)
    && done.ignored == before.ignored
  }

  predicate ConfirmedFor(db: Db, id: IntentId, sig: Signature) {
    id in db.intents && db.intents[id].state == DepositConfirmed && db.intents[id].depositRef == Some(sig)
  }

  predicate OthersKept(db: Db, after: Db) {
    forall id :: id in db.intents ==> id in after.intents && after.intents[id] == db.intents[id]
  }

  /** Whatever becomes of a deposit, it is on record, in the list its filing says, and an intent
      it opened is a confirmed deposit. */
  lemma RecordOneKeeps(
    db: Db, report: Report, route: Option<Card>, currency: string, d: Deposit, id: IntentId, now: int)
    requires Consistent(db) && id !in db.intents && d.minor > 0
    ensures var (after, more) := RecordOne(db, report, route, currency, d, id, now);
            && Consistent(after) && Extends(db, after) && OthersKept(db, after) && OnRecord(after, d.sig)
            && match FilingAt(db, route, [d], 0)
               case NewIntent => more == report.(intents := report.intents + [id]) && ConfirmedFor(after, id, d.sig)
               case Duplicate => more == report.(duplicates := report.duplicates + [d.sig])
                 && after.intents == db.intents
               case _ => more == report.(unroutable := report.unroutable + [d.sig]) && after.intents == db.intents
  {
    FilingTells(db, route, currency, d, id, now);
    if File(db, route, currency, d, id, now).1.NewIntent? {
      RecordNewKeeps(db, report, route, currency, d, id, now);
    } else {
      RecordOldKeeps(db, report, route, currency, d, id, now);
    }
  }

  lemma RecordOldKeeps(
    db: Db, report: Report, route: Option<Card>, currency: string, d: Deposit, id: IntentId, now: int)
    requires Consistent(db) && id !in db.intents && d.minor > 0
    requires !File(db, route, currency, d, id, now).1.NewIntent?
    ensures var (after, more) := RecordOne(db, report, route, currency, d, id, now);
            && Consistent(after) && Extends(db, after) && OthersKept(db, after) && OnRecord(after, d.sig)
            && after.intents == db.intents
            && more == if route.None? then report.(unroutable := report.unroutable + [d.sig])
                       else report.(duplicates := report.duplicates + [d.sig])
  {
    FileNeverRaises(db, route, currency, d, id, now);
    FilingTells(db, route, currency, d, id, now);
  }

  lemma RecordNewKeeps(
    db: Db, report: Report, route: Option<Card>, currency: string, d: Deposit, id: IntentId, now: int)
    requires Consistent(db) && id !in db.intents && d.minor > 0
    requires File(db, route, currency, d, id, now).1.NewIntent?
    ensures var after := RecordOne(db, report, route, currency, d, id, now).0;
            && Consistent(after) && Extends(db, after) && OthersKept(db, after) && OnRecord(after, d.sig)
            && ConfirmedFor(after, id, d.sig)
  {
    var filed := File(db, route, currency, d, id, now).0;
    FileNeverRaises(db, route, currency, d, id, now);
    NewIsPending(db, route, currency, d, id, now);
    ConfirmNewKeeps(db, filed, id, d.sig, now);
  }

  lemma NewIsPending(db: Db, route: Option<Card>, currency: string, d: Deposit, id: IntentId, now: int)
    requires id !in db.intents && File(db, route, currency, d, id, now).1.NewIntent?
    ensures var filed := File(db, route, currency, d, id, now).0;
            && OthersKept(db, filed) && id in filed.intents
            && filed.intents[id].depositRef == Some(d.sig) && filed.intents[id].state == Pending
  {}

  lemma ConfirmNewKeeps(db: Db, filed: Db, id: IntentId, sig: Signature, now: int)
    requires Extends(db, filed) && OthersKept(db, filed) && Consistent(filed) && id !in db.intents
    requires id in filed.intents && filed.intents[id].depositRef == Some(sig) && filed.intents[id].state == Pending
    ensures var after := Advance(filed, ConfirmRequest(id, sig), now).0;
            && Consistent(after) && Extends(db, after) && OthersKept(db, after) && OnRecord(after, sig)
            && ConfirmedFor(after, id, sig)
  {
    ConfirmsNew(filed, id, sig, now);
    var after := Advance(filed, ConfirmRequest(id, sig), now).0;
    ExtendsOn(db, filed, after);
    AdvanceTouchesOne(filed, ConfirmRequest(id, sig), now);
    ClaimedOnceConfirmed(after, id, sig);
  }

  lemma AdvanceTouchesOne(db: Db, req: Request, now: int)
    ensures forall id :: id in db.intents && id != req.intent ==>
              id in Advance(db, req, now).0.intents && Advance(db, req, now).0.intents[id] == db.intents[id]
  {}

  lemma ClaimedOnceConfirmed(db: Db, id: IntentId, sig: Signature)
    requires ConfirmedFor(db, id, sig)
    ensures DepositClaimed(db.intents, sig) && OnRecord(db, sig)
  {}

  /** Recording one deposit claims its signature, if it is routed, and no other. */
  lemma RecordOneClaims(
    db: Db, report: Report, route: Option<Card>, currency: string, d: Deposit, id: IntentId, now: int, sig: Signature)
    requires Consistent(db) && id !in db.intents && d.minor > 0
    ensures var after := RecordOne(db, report, route, currency, d, id, now).0;
            DepositClaimed(after.intents, sig) <==> DepositClaimed(db.intents, sig) || (route.Some? && sig == d.sig)
  {
    var after := RecordOne(db, report, route, currency, d, id, now).0;
    RecordOneKeeps(db, report, route, currency, d, id, now);
    if FilingAt(db, route, [d], 0) == NewIntent {
      NewClaims(db, after, id, d.sig, sig);
    }
  }

  lemma NewClaims(db: Db, after: Db, id: IntentId, own: Signature, sig: Signature)
    requires ConfirmedFor(after, id, own) && OthersKept(db, after) && after.intents.Keys <= db.intents.Keys + {id}
    ensures DepositClaimed(after.intents, sig) <==> DepositClaimed(db.intents, sig) || sig == own
  {
    if DepositClaimed(db.intents, sig) {
      var x :| x in db.intents && db.intents[x].depositRef == Some(sig);
      assert after.intents[x].depositRef == Some(sig);
    } else if DepositClaimed(after.intents, sig) {
      var x :| x in after.intents && after.intents[x].depositRef == Some(sig);
      assert x == id;
    }
  }

  lemma FilingsFollow(
    db: Db, report: Report, route: Option<Card>, currency: string, ds: seq<Deposit>, id: IntentId, now: int)
    requires Consistent(db) && ds != [] && id !in db.intents && ds[0].minor > 0
    ensures Filings(RecordOne(db, report, route, currency, ds[0], id, now).0, route, ds[1..])
            == Filings(db, route, ds)[1..]
    ensures FilingAt(db, route, [ds[0]], 0) == Filings(db, route, ds)[0]
  {
    var next := RecordOne(db, report, route, currency, ds[0], id, now).0;
    forall k | 0 <= k < |ds[1..]| ensures FilingAt(next, route, ds[1..], k) == FilingAt(db, route, ds, k + 1) {
      RecordOneClaims(db, report, route, currency, ds[0], id, now, ds[k + 1].sig);
      assert ds[1..][k] == ds[k + 1];
      if l :| 0 <= l < k && ds[1..][l].sig == ds[1..][k].sig {
        assert ds[l + 1].sig == ds[k + 1].sig;
      }
      if l :| 0 <= l < k + 1 && ds[l].sig == ds[k + 1].sig {
        assert l > 0 ==> ds[1..][l - 1].sig == ds[1..][k].sig;
      }
    }
  }

  lemma ConfirmsNew(db: Db, id: IntentId, sig: Signature, now: int)
    requires Consistent(db) && id in db.intents && db.intents[id].depositRef == Some(sig)
             && db.intents[id].state == Pending
    ensures var after := Advance(db, ConfirmRequest(id, sig), now).0;
            && Consistent(after) && Extends(db, after)
            && after.intents[id].state == DepositConfirmed && after.intents[id].depositRef == Some(sig)
  {
    assert ConfirmTells(db, id);
    HopKeepsTables(db, ConfirmRequest(id, sig), now);
  }

  lemma {:induction false} RecordAllKeeps(
    db: Db, report: Report, route: Option<Card>, currency: string, ds: seq<Deposit>, ids: seq<IntentId>, now: int)
    requires |ds| <= |ids| && Undrawn(db, ids) && Consistent(db) && Positive(ds)
    ensures var after := RecordAll(db, report, route, currency, ds, ids, now).0;
            && Consistent(after) && Extends(db, after) && OthersKept(db, after)
            && forall d :: d in ds ==> OnRecord(after, d.sig)
    decreases |ds|
  {
    if ds != [] {
      var (next, more) := RecordOne(db, report, route, currency, ds[0], ids[0], now);
      RecordOneKeeps(db, report, route, currency, ds[0], ids[0], now);
      RecordAllKeeps(next, more, route, currency, ds[1..], ids[1..], now);
      var after := RecordAll(db, report, route, currency, ds, ids, now).0;
      ExtendsOn(db, next, after);
      forall d | d in ds ensures OnRecord(after, d.sig) {
        if d == ds[0] {
          StaysOnRecord(next, after, d.sig);
        } else {
          assert d in ds[1..];
        }
      }
    }
  }

  /** The first position is one list's, the rest are as they were. */
  lemma SortedFront(
    done: Report, before: Report, more: Report, ids: seq<IntentId>, sigs: seq<Signature>, filings: seq<Filing>)
    requires |ids| == |filings| && |sigs| == |filings| && filings != []
    requires match filings[0]
             case NewIntent => more == before.(intents := before.intents + [ids[0]])
             case Duplicate => more == before.(duplicates := before.duplicates + [sigs[0]])
             case Unroutable => more == before.(unroutable := before.unroutable + [sigs[0]])
             case Raised => more == before
    requires SortedAs(done, more, ids[1..], sigs[1..], filings[1..])
    ensures SortedAs(done, before, ids, sigs, filings)
  {}

  /** Where the page stands after its first deposit. */
  lemma AfterTheFirst(
    db: Db, report: Report, route: Option<Card>, currency: string, ds: seq<Deposit>, ids: seq<IntentId>, now: int)
    requires 0 < |ds| <= |ids| && Undrawn(db, ids) && Consistent(db) && Positive(ds)
    ensures var next := RecordOne(db, report, route, currency, ds[0], ids[0], now).0;
            && Undrawn(next, ids[1..]) && Consistent(next) && Positive(ds[1..])
            && Filings(next, route, ds[1..]) == Filings(db, route, ds)[1..]
            && ids[..|ds|][1..] == ids[1..][..|ds[1..]|] && Sigs(ds)[1..] == Sigs(ds[1..])
  {
    assert ds[0] in ds;
    RecordOneKeeps(db, report, route, currency, ds[0], ids[0], now);
    FilingsFollow(db, report, route, currency, ds, ids[0], now);
  }

  lemma FirstIsSorted(
    db: Db, report: Report, route: Option<Card>, currency: string, ds: seq<Deposit>, ids: seq<IntentId>, now: int)
    requires 0 < |ds| <= |ids| && Undrawn(db, ids) && Consistent(db) && Positive(ds)
    ensures var more := RecordOne(db, report, route, currency, ds[0], ids[0], now).1;
            match Filings(db, route, ds)[0]
            case NewIntent => more == report.(intents := report.intents + [ids[0]])
            case Duplicate => more == report.(duplicates := report.duplicates + [Sigs(ds)[0]])
            case Unroutable => more == report.(unroutable := report.unroutable + [Sigs(ds)[0]])
            case Raised => more == report
  {
    assert ds[0] in ds;
    RecordOneKeeps(db, report, route, currency, ds[0], ids[0], now);
    FilingsFollow(db, report, route, currency, ds, ids[0], now);
  }

  lemma {:induction false} RecordAllSorts(
    db: Db, report: Report, route: Option<Card>, currency: string, ds: seq<Deposit>, ids: seq<IntentId>, now: int)
    requires |ds| <= |ids| && Undrawn(db, ids) && Consistent(db) && Positive(ds)
    ensures SortedAs(RecordAll(db, report, route, currency, ds, ids, now).1, report,
                     ids[..|ds|], Sigs(ds), Filings(db, route, ds))
    decreases |ds|
  {
    if ds != [] {
      var (next, more) := RecordOne(db, report, route, currency, ds[0], ids[0], now);
      AfterTheFirst(db, report, route, currency, ds, ids, now);
      RecordAllSorts(next, more, route, currency, ds[1..], ids[1..], now);
      FirstIsSorted(db, report, route, currency, ds, ids, now);
      SortedFront(RecordAll(next, more, route, currency, ds[1..], ids[1..], now).1, report, more,
                  ids[..|ds|], Sigs(ds), Filings(db, route, ds));
    }
  }

  lemma {:induction false} RecordAllConfirms(
    db: Db, report: Report, route: Option<Card>, currency: string, ds: seq<Deposit>, ids: seq<IntentId>, now: int,
      k: nat)
    requires |ds| <= |ids| && Undrawn(db, ids) && Consistent(db) && Positive(ds)
    requires k < |ds| && Filings(db, route, ds)[k] == NewIntent
    ensures ConfirmedFor(RecordAll(db, report, route, currency, ds, ids, now).0, ids[k], ds[k].sig)
    decreases |ds|
  {
    var (next, more) := RecordOne(db, report, route, currency, ds[0], ids[0], now);
    AfterTheFirst(db, report, route, currency, ds, ids, now);
    if k == 0 {
      FirstStaysConfirmed(db, report, route, currency, ds, ids, now);
    } else {
      assert Filings(next, route, ds[1..])[k - 1] == Filings(db, route, ds)[k];
      assert ids[1..][k - 1] == ids[k] && ds[1..][k - 1] == ds[k];
      RecordAllConfirms(next, more, route, currency, ds[1..], ids[1..], now, k - 1);
    }
  }

  lemma FirstIsConfirmed(
    db: Db, report: Report, route: Option<Card>, currency: string, ds: seq<Deposit>, ids: seq<IntentId>, now: int)
    requires 0 < |ds| <= |ids| && Undrawn(db, ids) && Consistent(db) && Positive(ds)
    requires Filings(db, route, ds)[0] == NewIntent
    ensures ConfirmedFor(RecordOne(db, report, route, currency, ds[0], ids[0], now).0, ids[0], ds[0].sig)
  {
    assert ds[0] in ds;
    RecordOneKeeps(db, report, route, currency, ds[0], ids[0], now);
    FilingsFollow(db, report, route, currency, ds, ids[0], now);
  }

  lemma FirstStaysConfirmed(
    db: Db, report: Report, route: Option<Card>, currency: string, ds: seq<Deposit>, ids: seq<IntentId>, now: int)
    requires 0 < |ds| <= |ids| && Undrawn(db, ids) && Consistent(db) && Positive(ds)
    requires Filings(db, route, ds)[0] == NewIntent
    ensures ConfirmedFor(RecordAll(db, report, route, currency, ds, ids, now).0, ids[0], ds[0].sig)
  {
    var (next, more) := RecordOne(db, report, route, currency, ds[0], ids[0], now);
    AfterTheFirst(db, report, route, currency, ds, ids, now);
    FirstIsConfirmed(db, report, route, currency, ds, ids, now);
    RecordAllKeeps(next, more, route, currency, ds[1..], ids[1..], now);
  }

  /** Every deposit of the page is, by its position, in exactly the list of what became of it;
      afterwards all of them are on record, every intent the page opened is a confirmed deposit
      of the transfer it was opened for, and no other intent has changed. */
  lemma EveryDepositIsSorted(
    db: Db, report: Report, route: Option<Card>, currency: string, ds: seq<Deposit>, ids: seq<IntentId>, now: int)
    requires |ds| <= |ids| && Undrawn(db, ids) && Consistent(db) && Positive(ds)
    ensures var (after, done) := RecordAll(db, report, route, currency, ds, ids, now);
            && SortedAs(done, report, ids[..|ds|], Sigs(ds), Filings(db, route, ds))
            && (forall k :: 0 <= k < |ds| ==> OnRecord(after, ds[k].sig))
            && (forall k :: 0 <= k < |ds| && Filings(db, route, ds)[k] == NewIntent ==>
               ConfirmedFor(after, ids[k], ds[k].sig))
            && OthersKept(db, after)
  {
    RecordAllKeeps(db, report, route, currency, ds, ids, now);
    RecordAllSorts(db, report, route, currency, ds, ids, now);
    var after := RecordAll(db, report, route, currency, ds, ids, now).0;
    forall k | 0 <= k < |ds| && Filings(db, route, ds)[k] == NewIntent ensures ConfirmedFor(after, ids[k], ds[k].sig) {
      RecordAllConfirms(db, report, route, currency, ds, ids, now, k);
    }
  }

  /** A page seen again after a restart opens nothing and changes no intent. */
  lemma {:induction false} ReobservedOpensNothing(
    db: Db, report: Report, route: Option<Card>, currency: string, ds: seq<Deposit>, ids: seq<IntentId>, now: int)
    requires |ds| <= |ids| && Undrawn(db, ids) && Consistent(db) && Positive(ds)
    requires forall d :: d in ds ==> DepositClaimed(db.intents, d.sig)
    ensures var (after, done) := RecordAll(db, report, route, currency, ds, ids, now);
            after.intents == db.intents && done.intents == report.intents
    decreases |ds|
  {
    if ds != [] {
      var (next, more) := RecordOne(db, report, route, currency, ds[0], ids[0], now);
      RecordOneKeeps(db, report, route, currency, ds[0], ids[0], now);
      assert ds[0] in ds;
      forall d | d in ds[1..] ensures DepositClaimed(next.intents, d.sig) {
        assert d in ds;
      }
      ReobservedOpensNothing(next, more, route, currency, ds[1..], ids[1..], now);
    }
  }

  /** Asking first and creating second is filing; what is created can then be confirmed. */
  lemma OpeningIsFiling(db: Db, card: Card, currency: string, d: Deposit, id: IntentId, now: int)
    requires Consistent(db) && id !in db.intents && d.minor > 0
    ensures var (filed, filing) := File(db, Some(card), currency, d, id, now);
            var created := Create(db, OpeningFor(card, currency, d, id), now).0;
            && Consistent(filed)
            && (DepositClaimed(db.intents, d.sig) ==> filing.Duplicate? && filed == Note(db, DuplicateKey(d.sig)))
            && (!DepositClaimed(db.intents, d.sig) ==>
                  filing.NewIntent? && filed == created
                    && Consistent(Advance(created, ConfirmRequest(id, d.sig), now).0))
  {
    FileNeverRaises(db, Some(card), currency, d, id, now);
    FilingTells(db, Some(card), currency, d, id, now);
    if !DepositClaimed(db.intents, d.sig) {
      ConfirmsNew(File(db, Some(card), currency, d, id, now).0, id, d.sig, now);
    }
  }

  // ------------------------------------------------------------------- class

  class DepositCollector {
    const store: FundingStore.Store
    const currency: string
    var routes: map<Address, Card>
    var cursors: map<Address, Position>

    constructor (store: FundingStore.Store, currency: string)
      ensures this.store == store && this.currency == currency && routes == map[] && cursors == map[]
    {
      this.store, this.currency, routes, cursors := store, currency, map[], map[];
    }

    ghost predicate Valid()
      reads store
    {
      Consistent(store.State())
    }

    function RouteFor(addr: Address): Option<Card>
      reads this
    {
      if addr in routes then Some(routes[addr]) else None
    }

    /** An address funds one card for good; asking again for the same card is harmless. */
    method RegisterRoute(addr: Address, card: Card) returns (ok: bool)
      modifies this`routes
      ensures ok <==> (addr in old(routes) ==> old(routes)[addr] == card)
      ensures ok ==> routes == old(routes)[addr := card]
      ensures !ok ==> routes == old(routes)
      ensures forall a :: a in old(routes) ==> a in routes && routes[a] == old(routes)[a]
    {
      if addr in routes {
        ok := routes[addr] == card;
        assert ok ==> routes == routes[addr := card];
        return;
      }
      routes := routes[addr := card];
      ok := true;
    }

    method AdvanceCursor(addr: Address, to: Position)
      modifies this`cursors
      ensures cursors == Advanced(old(cursors), addr, to)
    {
      if addr in cursors && to.slot < cursors[addr].slot {
        return;
      }
      cursors := cursors[addr := to];
    }

    method RecordOnce(key: Key)
      modifies store`ledger
      ensures store.State() == Note(old(store.State()), key)
    {
      if Taken(store.ledger, key) {
        return;
      }
      var _ := store.Record(NoteRow(Some(key)));
    }

    method OpenIntent(card: Card, d: Deposit, id: IntentId, now: int) returns (isNew: bool)
      requires Valid() && id !in store.intents && d.minor > 0
      modifies store
      ensures Valid()
      ensures var (filed, filing) := File(old(store.State()), Some(card), currency, d, id, now);
              isNew == filing.NewIntent?
              && store.State() == if isNew then Advance(filed, ConfirmRequest(id, d.sig), now).0 else filed
    {
      ghost var start := store.State();
      OpeningIsFiling(start, card, currency, d, id, now);
      if DepositClaimed(store.intents, d.sig) {
        RecordOnce(DuplicateKey(d.sig));
        return false;
      }
      var outcome := store.CreateIntent(OpeningFor(card, currency, d, id), now);
      var moved := store.AdvanceIntent(ConfirmRequest(id, d.sig), now);
      return true;
    }

    method RecordIgnored(skips: seq<Ignored>)
      modifies store`ledger
      ensures store.State() == NoteAll(old(store.State()), skips)
    {
      var k := 0;
      while k < |skips|
        invariant k <= |skips|
        invariant NoteAll(old(store.State()), skips) == NoteAll(store.State(), skips[k..])
      {
        RecordOnce(IgnoredKey(skips[k].sig));
        assert skips[k..][1..] == skips[k + 1..];
        k := k + 1;
      }
    }

    method RecordDeposit(addr: Address, d: Deposit, id: IntentId, now: int, report: Report) returns (more: Report)
      requires Valid() && id !in store.intents && d.minor > 0
      modifies store
      ensures Valid()
      ensures (store.State(), more) == RecordOne(old(store.State()), report, RouteFor(addr), currency, d, id, now)
    {
      RecordOneKeeps(store.State(), report, RouteFor(addr), currency, d, id, now);
      FileNeverRaises(store.State(), RouteFor(addr), currency, d, id, now);
      if addr !in routes {
        RecordOnce(UnroutableKey(d.sig));
        return report.(unroutable := report.unroutable + [d.sig]);
      }
      var isNew := OpenIntent(routes[addr], d, id, now);
      more := if isNew then report.(intents := report.intents + [id])
              else report.(duplicates := report.duplicates + [d.sig]);
    }

    method RecordDeposits(addr: Address, page: Page, ids: seq<IntentId>, now: int) returns (report: Report)
      requires Valid() && |page.deposits| <= |ids| && Undrawn(store.State(), ids) && Positive(page.deposits)
      modifies store
      ensures Valid()
      ensures (store.State(), report) == RecordPage(old(store.State()), RouteFor(addr), currency, page, ids, now)
    {
      NoteAllTables(store.State(), page.ignored);
      NoteAllKeeps(store.State(), page.ignored);
      RecordIgnored(page.ignored);
      report := Report([], [], [], page.ignored);
      ghost var noted := store.State();
      ghost var ds, route := page.deposits, RouteFor(addr);
      ghost var none := report;
      var i := 0;
      while i < |page.deposits|
        invariant i <= |page.deposits| && Valid() && Undrawn(store.State(), ids[i..])
        invariant RecordAll(noted, none, route, currency, ds, ids, now)
                  == RecordAll(store.State(), report, route, currency, ds[i..], ids[i..], now)
      {
        assert ds[i..][0] == ds[i] && ds[i..][1..] == ds[i + 1..];
        assert ids[i..][0] == ids[i] && ids[i..][1..] == ids[i + 1..];
        report := RecordDeposit(addr, page.deposits[i], ids[i], now, report);
        i := i + 1;
      }
    }

    /** One poll of `addr`: first the page goes on record, then the cursor moves. `listing` is
        the node's answer to the cursor, newest first. */
    method CollectDeposits(watcher: SolanaDepositWatcher, addr: Address, listing: seq<Entry>,
                           available: set<Signature>, ids: seq<IntentId>, now: int)
      returns (report: Report)
      requires Valid() && watcher.Valid() && |listing| <= |ids| && Undrawn(store.State(), ids)
      modifies this`cursors, store
      ensures Valid()
      ensures var page := PageOf(Reverse(listing), available, watcher.unit);
              && |page.deposits| <= |ids|
              && (store.State(), report)
                 == RecordPage(old(store.State()), old(RouteFor(addr)), currency, page, ids, now)
              && cursors == if page.cursor.None? then old(cursors)
                            else Advanced(old(cursors), addr, page.cursor.value)
    {
      var page := watcher.Poll(listing, available);
      PageIsPositive(Reverse(listing), available, watcher.unit);
      report := RecordDeposits(addr, page, ids, now);
      if page.cursor.Some? {
        AdvanceCursor(addr, page.cursor.value);
      }
    }
  }

  lemma PageIsPositive(es: seq<Entry>, available: set<Signature>, unit: nat)
    requires unit > 0
    ensures var page := PageOf(es, available, unit); Positive(page.deposits) && |page.deposits| <= |es|
  {
    var read := es[..ReadableUpTo(es, available)];
    EveryEntryOnce(read, unit);
    forall d | d in Deposits(read, unit) ensures d.minor > 0 {
      var i :| 0 <= i < |read| && FindingOf(read[i], unit) == Credit(d);
      CreditSplitsExactly(read[i], unit);
    }
  }

  // ------------------------------- a collection is a run of one intake worker

  lemma Prepend(w: World, s: Step, rest: seq<Step>)
    requires w.unit > 0 && Can(w, s) && Laws.Runs(Do(w, s), rest)
    ensures Laws.Runs(w, [s] + rest) && Laws.Exec(w, [s] + rest) == Laws.Exec(Do(w, s), rest)
  {
    assert ([s] + rest)[1..] == rest;
  }

  /** The same but for the bookings, which no step looks at. */
  ghost predicate Same(u: World, v: World) {
    u == v.(booked := u.booked)
  }

  function AtWork(w: World, p: nat, db: Db, page: Page): World
    requires p < |w.pcs| && w.pcs[p].Recording?
  {
    w.(db := db, pcs := w.pcs[p := Recording(w.pcs[p].addr, w.pcs[p].upto, page)])
  }

  lemma {:induction false} NotingIsARun(w: World, p: nat) returns (steps: seq<Step>)
    requires w.unit > 0 && p < |w.pcs| && w.pcs[p].Recording?
    ensures var page := w.pcs[p].page;
            Laws.Runs(w, steps)
              && Laws.Exec(w, steps) == AtWork(w, p, NoteAll(w.db, page.ignored), page.(ignored := []))
    decreases |w.pcs[p].page.ignored|
  {
    steps := [];
    if w.pcs[p].page.ignored != [] {
      var v := Do(w, Step.NoteIgnored(p));
      var rest := NotingIsARun(v, p);
      Prepend(w, Step.NoteIgnored(p), rest);
      steps := [Step.NoteIgnored(p)] + rest;
    }
  }

  lemma ConfirmIsAStep(w: World, p: nat, now: int)
    requires w.unit > 0 && p < |w.pcs| && w.pcs[p].Confirming? && Consistent(w.db)
    requires var (id, sig) := (w.pcs[p].id, w.pcs[p].sig);
             id in w.db.intents && w.db.intents[id].depositRef == Some(sig) && w.db.intents[id].state == Pending
    ensures var c := Step.Confirm(p, now, !Free(w.db.ledger, Some(ConfirmKey(w.pcs[p].sig)))); var pc := w.pcs[p];
            && Can(w, c)
            && Do(w, c) == w.(db := Advance(w.db, ConfirmRequest(pc.id, pc.sig), now).0,
                              pcs := w.pcs[p := Recording(pc.addr, pc.upto, pc.page)])
  {
    ConfirmReturns(w.db, w.pcs[p].id, w.pcs[p].sig, now);
  }

  /** Filing one deposit is one step, or two when it opens an intent. */
  lemma OneIsARun(w: World, p: nat, report: Report, id: IntentId, now: int) returns (steps: seq<Step>)
    requires w.unit > 0 && p < |w.pcs| && w.pcs[p].Recording? && w.pcs[p].page.ignored == []
    requires w.pcs[p].page.deposits != [] && w.pcs[p].page.deposits[0].minor > 0
    requires Consistent(w.db) && id !in w.db.intents
    ensures var pc := w.pcs[p];
            && Laws.Runs(w, steps)
            && Same(Laws.Exec(w, steps),
                    AtWork(w, p,
                      RecordOne(w.db, report, RouteOf(w, pc.addr), w.currency, pc.page.deposits[0], id, now).0,
                           Rest(pc.page)))
  {
    var pc := w.pcs[p];
    var d := pc.page.deposits[0];
    var s := Step.RecordDeposit(p, id, now);
    var v := Do(w, s);
    FileNeverRaises(w.db, RouteOf(w, pc.addr), w.currency, d, id, now);
    if v.pcs[p].Confirming? {
      var c := Step.Confirm(p, now, !Free(v.db.ledger, Some(ConfirmKey(d.sig))));
      ConfirmIsAStep(v, p, now);
      Prepend(v, c, []);
      Prepend(w, s, [c] + []);
      steps := [s] + ([c] + []);
    } else {
      Prepend(w, s, []);
      steps := [s] + [];
    }
  }

  lemma ConfirmReturns(db: Db, id: IntentId, sig: Signature, now: int)
    requires Consistent(db) && id in db.intents && db.intents[id].depositRef == Some(sig)
             && db.intents[id].state == Pending
    ensures Advance(db, ConfirmRequest(id, sig), now).1.Returned()
  {}

  lemma {:induction false} Join(w: World, first: seq<Step>, second: seq<Step>)
    requires Laws.Runs(w, first) && Laws.Runs(Laws.Exec(w, first), second)
    ensures Laws.Runs(w, first + second) && Laws.Exec(w, first + second) == Laws.Exec(Laws.Exec(w, first), second)
    decreases |first|
  {
    if first == [] {
      assert first + second == second;
    } else {
      Join(Do(w, first[0]), first[1..], second);
      assert (first + second)[1..] == first[1..] + second;
    }
  }

  lemma UndrawnRest(db: Db, after: Db, ids: seq<IntentId>)
    requires ids != [] && Undrawn(db, ids) && after.intents.Keys <= db.intents.Keys + {ids[0]}
    ensures Undrawn(after, ids[1..])
  {}

  lemma StillAtWork(w: World, p: nat, db: Db, page: Page, db2: Db, page2: Page)
    requires p < |w.pcs| && w.pcs[p].Recording?
    ensures forall v :: Same(v, AtWork(w, p, db, page)) ==>
            && p < |v.pcs| && v.pcs[p] == Recording(w.pcs[p].addr, w.pcs[p].upto, page)
            && Same(AtWork(v, p, db2, page2), AtWork(w, p, db2, page2))
  {}

  lemma {:induction false} RecordingIsARun(w: World, p: nat, report: Report, ids: seq<IntentId>, now: int)
    returns (steps: seq<Step>)
    requires w.unit > 0 && p < |w.pcs| && w.pcs[p].Recording? && w.pcs[p].page.ignored == []
    requires Consistent(w.db) && |w.pcs[p].page.deposits| <= |ids| && Undrawn(w.db, ids)
             && Positive(w.pcs[p].page.deposits)
    ensures var pc := w.pcs[p];
            && Laws.Runs(w, steps)
            && Same(Laws.Exec(w, steps),
                    AtWork(w, p, RecordAll(w.db, report, RouteOf(w, pc.addr), w.currency, pc.page.deposits, ids, now).0,
                           pc.page.(deposits := [])))
    decreases |w.pcs[p].page.deposits|
  {
    steps := [];
    var pc := w.pcs[p];
    if pc.page.deposits != [] {
      var route := RouteOf(w, pc.addr);
      var first := OneIsARun(w, p, report, ids[0], now);
      var (db, more) := RecordOne(w.db, report, route, w.currency, pc.page.deposits[0], ids[0], now);
      RecordOneKeeps(w.db, report, route, w.currency, pc.page.deposits[0], ids[0], now);
      UndrawnRest(w.db, db, ids);
      var done := RecordAll(db, more, route, w.currency, Rest(pc.page).deposits, ids[1..], now).0;
      StillAtWork(w, p, db, Rest(pc.page), done, pc.page.(deposits := []));
      var v := Laws.Exec(w, first);
      var rest := RecordingIsARun(v, p, more, ids[1..], now);
      Join(w, first, rest);
      steps := first + rest;
    }
  }

  lemma LastMove(w: World, recorded: World, p: nat, page: Page, addr: Address)
    requires p < |w.pcs| && w.pcs[p].Idle? && |recorded.pcs| == |w.pcs| && recorded.unit > 0
    requires forall q :: 0 <= q < |w.pcs| && q != p ==> recorded.pcs[q] == w.pcs[q]
    requires Can(recorded, Step.MoveCursor(p))
    ensures Do(recorded, Step.MoveCursor(p)).pcs == w.pcs
  {}

  /** So everything proved of crashing, interleaved intake holds of the collector's own loop. */
  lemma CollectIsARun(w: World, p: nat, addr: Address, available: set<Signature>, ids: seq<IntentId>, now: int)
    returns (steps: seq<Step>)
    requires w.unit > 0 && p < |w.pcs| && w.pcs[p].Idle? && addr in w.logs && Consistent(w.db)
    requires |Listed(w, addr)| <= |ids| && Undrawn(w.db, ids)
    ensures var listing := Reverse(Listed(w, addr)); var page := PageOf(Reverse(listing), available, w.unit);
            && |page.deposits| <= |ids|
            && Laws.Runs(w, steps)
            && Same(Laws.Exec(w, steps),
                    w.(db := RecordPage(w.db, RouteOf(w, addr), w.currency, page, ids, now).0,
                       cursors := if page.cursor.None? then w.cursors
                         else Advanced(w.cursors, addr, page.cursor.value)))
  {
    var page := PageOf(Listed(w, addr), available, w.unit);
    ReverseTwice(Listed(w, addr));
    PageIsPositive(Listed(w, addr), available, w.unit);
    var s := Step.Poll(p, addr, available);
    var polled := Do(w, s);
    var noting := NotingIsARun(polled, p);
    var noted := Laws.Exec(polled, noting);
    NoteAllKeeps(w.db, page.ignored);
    NoteAllTables(w.db, page.ignored);
    var recording := RecordingIsARun(noted, p, Report([], [], [], page.ignored), ids, now);
    var recorded := Laws.Exec(noted, recording);
    var move := Step.MoveCursor(p);
    Prepend(recorded, move, []);
    LastMove(w, recorded, p, page, addr);
    assert [move] + [] == [move];
    Join(noted, recording, [move]);
    Join(polled, noting, recording + [move]);
    Prepend(w, s, noting + (recording + [move]));
    steps := [s] + (noting + (recording + [move]));
  }
}
