/** What intake guarantees over whole runs: every creditable transfer the cursor has passed is
    on record exactly once, on its own address's terms — and what is lost when a poll's page
    or a transaction's signature cannot carry it. */
module IntakeLaws {
  import opened Basics
  import opened FundingStates
  import opened Ledger
  import opened Machine
  import opened Watcher
  import opened Intake

  ghost predicate Runs(w: World, steps: seq<Step>)
    decreases |steps|
  {
    steps == [] || (w.unit > 0 && Can(w, steps[0]) && Runs(Do(w, steps[0]), steps[1..]))
  }

  ghost function Exec(w: World, steps: seq<Step>): World
    requires Runs(w, steps)
    decreases |steps|
  {
    if steps == [] then w else Exec(Do(w, steps[0]), steps[1..])
  }

  function Start(unit: nat, limit: nat, currency: string, workers: nat): World {
    World(unit, limit, currency, map[], map[], map[], EMPTY, [], seq(workers, _ => Idle))
  }

  // ---------------------------------------------------- every step keeps Base

  /** A step that changes the tables, the page of one worker, or neither. */
  lemma TablesKeepBase(w: World, v: World, p: nat, pc: Pc)
    requires Base(w) && Later(w, v) && Sound(v.db) && KeysTell(v.db) && PcFrom(v, pc)
    requires v.logs == w.logs && v.routes == w.routes && v.cursors == w.cursors
    requires v.pcs == w.pcs || (p < |w.pcs| && v.pcs == w.pcs[p := pc])
    requires Provenance(v)
    ensures Base(v)
  {
    PcsStayFrom(w, v, p, pc);
    forall a | a in v.cursors ensures CursorOk(v, a) {
      assert CursorOk(w, a);
    }
  }

  lemma TablesKeepWhole(w: World, v: World, p: nat, pc: Pc)
    requires Base(w) && Base(v) && Later(w, v) && Whole(w) && PcFrom(v, pc) && PcCovers(v, pc)
    requires v.logs == w.logs && v.cursors == w.cursors
    requires v.pcs == w.pcs || (p < |w.pcs| && v.pcs == w.pcs[p := pc])
    ensures Whole(v)
  {
    PcsStillCover(w, v, p, pc);
    forall a, j | a in v.logs && 0 <= j < Behind(v, a) ensures Accounted(v, a, j) {
      assert Covered(w, a);
      AccountedStays(w, v, a, j);
    }
  }

  lemma LandKeepsLog(log: seq<Entry>, e: Entry)
    requires LogOk(log) && Fits(log, e)
    ensures LogOk(log + [e])
  {}

  lemma LandKeepsBehind(w: World, addr: Address, e: Entry, a: Address)
    requires w.unit > 0 && Can(w, Land(addr, e)) && LogOk(Do(w, Land(addr, e)).logs[addr])
    requires CursorOk(w, a) && if a in w.logs then LogOk(w.logs[a]) else a == addr
    ensures var v := Do(w, Land(addr, e));
            Behind(v, a) == (if a in w.logs then Behind(w, a) else 0) && CursorOk(v, a)
  {
    var v := Do(w, Land(addr, e));
    if a in w.cursors {
      CountGrows(w.logs[a], v.logs[a], w.cursors[a].sig);
    }
  }

  lemma LandIsLater(w: World, addr: Address, e: Entry)
    requires w.unit > 0 && Can(w, Land(addr, e))
    ensures Later(w, Do(w, Land(addr, e)))
  {}

  lemma LandKeepsChain(w: World, addr: Address, e: Entry)
    requires w.unit > 0 && ChainOk(w) && Can(w, Land(addr, e))
    ensures var v := Do(w, Land(addr, e));
            ChainOk(v) && forall a :: a in v.logs ==> Behind(v, a) == if a in w.logs then Behind(w, a) else 0
  {
    var v := Do(w, Land(addr, e));
    LandKeepsLog(if addr in w.logs then w.logs[addr] else [], e);
    forall a | a in v.logs ensures CursorOk(v, a) && Behind(v, a) == if a in w.logs then Behind(w, a) else 0 {
      assert a in w.cursors ==> CursorOk(w, a);
      LandKeepsBehind(w, addr, e, a);
    }
    forall a | a in v.cursors ensures CursorOk(v, a) {
      assert CursorOk(w, a);
    }
  }

  lemma LandKeeps(w: World, addr: Address, e: Entry)
    requires Base(w) && Can(w, Land(addr, e))
    ensures var v := Do(w, Land(addr, e)); Base(v) && Later(w, v) && (Whole(w) ==> Whole(v))
  {
    var v := Do(w, Land(addr, e));
    LandKeepsChain(w, addr, e);
    LandIsLater(w, addr, e);
    ProvenanceStays(w, v);
    PcsStayFrom(w, v, 0, Idle);
    if Whole(w) {
      PcsStillCover(w, v, 0, Idle);
      LandKeepsCovered(w, addr, e);
    }
  }

  lemma LandKeepsCoveredAt(w: World, addr: Address, e: Entry, a: Address)
    requires w.unit > 0 && Can(w, Land(addr, e)) && a in w.logs && Covered(w, a)
    requires Behind(Do(w, Land(addr, e)), a) == Behind(w, a)
    ensures Covered(Do(w, Land(addr, e)), a)
  {
    var v := Do(w, Land(addr, e));
    forall j | 0 <= j < Behind(v, a) ensures Accounted(v, a, j) {
      assert v.logs[a][j] == w.logs[a][j] && Accounted(w, a, j);
    }
  }

  lemma LandKeepsCovered(w: World, addr: Address, e: Entry)
    requires w.unit > 0 && ChainOk(w) && Can(w, Land(addr, e)) && forall a :: a in w.logs ==> Covered(w, a)
    ensures var v := Do(w, Land(addr, e)); forall a :: a in v.logs ==> Covered(v, a)
  {
    var v := Do(w, Land(addr, e));
    LandKeepsChain(w, addr, e);
    forall a | a in v.logs ensures Covered(v, a) {
      if a in w.logs {
        LandKeepsCoveredAt(w, addr, e, a);
      }
    }
  }

  lemma RegisterKeeps(w: World, addr: Address, card: Card)
    requires Base(w) && Can(w, Register(addr, card))
    ensures var v := Do(w, Register(addr, card)); Base(v) && Later(w, v) && (Whole(w) ==> Whole(v))
  {
    var v := Do(w, Register(addr, card));
    ProvenanceStays(w, v);
    PcsStayFrom(w, v, 0, Idle);
    forall a | a in v.cursors ensures CursorOk(v, a) {
      assert CursorOk(w, a);
    }
    if Whole(w) {
      TablesKeepWhole(w, v, 0, Idle);
    }
  }

  // -------------------------------------------------------------------- poll

  function Fresh(w: World, addr: Address, available: set<Signature>): seq<Entry>
    requires addr in w.logs
  {
    w.logs[addr][ListedFrom(w, addr)..PolledTo(w, addr, available)]
  }

  lemma SliceOfRest<T>(s: seq<T>, from: nat, n: nat)
    requires from + n <= |s|
    ensures s[from..][..n] == s[from..from + n]
  {}

  lemma PagePrefix(es: seq<Entry>, available: set<Signature>, unit: nat)
    requires unit > 0
    ensures var page, read := PageOf(es, available, unit), es[..ReadableUpTo(es, available)];
            page.deposits == Deposits(read, unit) && page.ignored == Ignoreds(read, unit)
              && page.cursor == PositionAfter(read)
  {}

  lemma PolledPage(w: World, addr: Address, available: set<Signature>)
    requires w.unit > 0 && addr in w.logs
    ensures var page, es := PageOf(Listed(w, addr), available, w.unit), Fresh(w, addr, available);
            page.deposits == Deposits(es, w.unit) && page.ignored == Ignoreds(es, w.unit)
              && page.cursor == PositionAfter(es)
  {
    PagePrefix(Listed(w, addr), available, w.unit);
    SliceOfRest(w.logs[addr], ListedFrom(w, addr), ReadableUpTo(Listed(w, addr), available));
  }

  /** Every deposit on the page is one the node listed ... */
  lemma PolledEntry(w: World, addr: Address, available: set<Signature>, d: Deposit) returns (j: nat)
    requires w.unit > 0 && addr in w.logs
    requires d in PageOf(Listed(w, addr), available, w.unit).deposits
    ensures ListedFrom(w, addr) <= j < PolledTo(w, addr, available) && FindingOf(w.logs[addr][j], w.unit) == Credit(d)
  {
    var es, from := Fresh(w, addr, available), ListedFrom(w, addr);
    PolledPage(w, addr, available);
    EveryEntryOnce(es, w.unit);
    var i :| 0 <= i < |es| && FindingOf(es[i], w.unit) == Credit(d);
    j := from + i;
    assert w.logs[addr][j] == es[i];
  }

  /** ... and every creditable entry it listed and went past is on the page. */
  lemma PolledDeposit(w: World, addr: Address, available: set<Signature>, j: nat)
    requires w.unit > 0 && addr in w.logs
    requires ListedFrom(w, addr) <= j < PolledTo(w, addr, available) && Creditable(w, w.logs[addr][j])
    ensures FindingOf(w.logs[addr][j], w.unit).deposit in PageOf(Listed(w, addr), available, w.unit).deposits
  {
    var es, from := Fresh(w, addr, available), ListedFrom(w, addr);
    PolledPage(w, addr, available);
    EveryEntryOnce(es, w.unit);
    assert es[j - from] == w.logs[addr][j];
  }

  lemma PolledPosition(w: World, addr: Address, available: set<Signature>)
    requires w.unit > 0 && addr in w.logs
    ensures var page, upto := PageOf(Listed(w, addr), available, w.unit), PolledTo(w, addr, available);
            page.cursor.Some? ==>
              upto > 0 && page.cursor.value == Position(w.logs[addr][upto - 1].sig, w.logs[addr][upto - 1].slot)
  {
    PolledPage(w, addr, available);
  }

  lemma PollPageFrom(w: World, addr: Address, available: set<Signature>)
    requires w.unit > 0 && addr in w.logs
    ensures PageFrom(w, addr, PolledTo(w, addr, available), PageOf(Listed(w, addr), available, w.unit))
  {
    var page := PageOf(Listed(w, addr), available, w.unit);
    PolledPosition(w, addr, available);
    forall d | d in page.deposits ensures CameFrom(d, w.logs[addr], PolledTo(w, addr, available), w.unit) {
      var j := PolledEntry(w, addr, available, d);
    }
  }

  lemma PollPageCovers(w: World, addr: Address, available: set<Signature>)
    requires w.unit > 0 && addr in w.logs && NothingSkipped(w, addr) && Covered(w, addr)
    ensures PageCovers(w, addr, PolledTo(w, addr, available), PageOf(Listed(w, addr), available, w.unit))
  {
    var page := PageOf(Listed(w, addr), available, w.unit);
    forall j | ListedFrom(w, addr) <= j < PolledTo(w, addr, available) && Creditable(w, w.logs[addr][j])
      ensures FindingOf(w.logs[addr][j], w.unit).deposit in page.deposits
    {
      PolledDeposit(w, addr, available, j);
    }
  }

  lemma PollKeeps(w: World, p: nat, addr: Address, available: set<Signature>)
    requires Base(w) && Can(w, Poll(p, addr, available))
    ensures var v := Do(w, Poll(p, addr, available));
            Base(v) && Later(w, v) && (Whole(w) && NothingSkipped(w, addr) ==> Whole(v))
  {
    var v := Do(w, Poll(p, addr, available));
    PollPageFrom(w, addr, available);
    PcStaysFrom(w, v, v.pcs[p]);
    ProvenanceStays(w, v);
    TablesKeepBase(w, v, p, v.pcs[p]);
    if Whole(w) && NothingSkipped(w, addr) {
      assert Covered(w, addr);
      PollPageCovers(w, addr, available);
      PageStillCovers(w, v, addr, v.pcs[p].upto, v.pcs[p].page);
      TablesKeepWhole(w, v, p, v.pcs[p]);
    }
  }

  // --------------------------------------------------------------- recording

  lemma NoteIgnoredKeeps(w: World, p: nat)
    requires Base(w) && Can(w, NoteIgnored(p))
    ensures var v := Do(w, NoteIgnored(p)); Base(v) && Later(w, v) && (Whole(w) ==> Whole(v))
  {
    var v := Do(w, NoteIgnored(p));
    var pc := w.pcs[p];
    assert PcFrom(w, pc);
    NoteKeepsTables(w.db, IgnoredKey(pc.page.ignored[0].sig));
    NoteTakesOnly(w.db, IgnoredKey(pc.page.ignored[0].sig));
    PageStaysFrom(w, v, pc.addr, pc.upto, pc.page);
    assert PcFrom(v, v.pcs[p]);
    ProvenanceStays(w, v);
    TablesKeepBase(w, v, p, v.pcs[p]);
    if Whole(w) {
      assert PcCovers(w, pc);
      PageStillCovers(w, v, pc.addr, pc.upto, pc.page);
      TablesKeepWhole(w, v, p, v.pcs[p]);
    }
  }

  /** The entry a page's deposit was read from. */
  lemma PageDeposit(w: World, addr: Address, upto: nat, page: Page, d: Deposit)
    requires w.unit > 0 && PageFrom(w, addr, upto, page) && d in page.deposits && LogOk(w.logs[addr])
    ensures var j := PositionOf(w, addr, d.sig);
            j < upto && w.logs[addr][j].sig == d.sig && FindingOf(w.logs[addr][j], w.unit) == Credit(d) && d.minor > 0
  {
    var j :| 0 <= j < upto && FindingOf(w.logs[addr][j], w.unit) == Credit(d);
    CreditSplitsExactly(w.logs[addr][j], w.unit);
    CountAt(w.logs[addr], j + 1);
  }

  /** A deposit dealt with may leave the page. */
  lemma RestFrom(v: World, addr: Address, upto: nat, page: Page)
    requires v.unit > 0 && PageFrom(v, addr, upto, page) && page.deposits != []
    ensures PageFrom(v, addr, upto, Rest(page))
  {}

  lemma RestCovers(v: World, addr: Address, upto: nat, page: Page)
    requires v.unit > 0 && PageFrom(v, addr, upto, page) && page.deposits != [] && LogOk(v.logs[addr])
    requires PageCovers(v, addr, upto, page)
    requires var j := PositionOf(v, addr, page.deposits[0].sig); j < |v.logs[addr]| ==> Accounted(v, addr, j)
    ensures PageCovers(v, addr, upto, Rest(page))
  {
    var d := page.deposits[0];
    forall j | 0 <= j < upto && Creditable(v, v.logs[addr][j])
      ensures Accounted(v, addr, j) || FindingOf(v.logs[addr][j], v.unit).deposit in Rest(page).deposits
    {
      if FindingOf(v.logs[addr][j], v.unit).deposit == d {
        CreditSplitsExactly(v.logs[addr][j], v.unit);
        CountAt(v.logs[addr], j + 1);
      }
    }
  }

  /** The deposit leaves the page for the ledger. */
  lemma RecordDepositFiles(w: World, p: nat, newId: IntentId, now: int)
    requires Base(w) && Can(w, RecordDeposit(p, newId, now)) && PcFrom(w, w.pcs[p])
    ensures var v, pc := Do(w, RecordDeposit(p, newId, now)), w.pcs[p];
            && Filed(w.db, v.db, RouteOf(w, pc.addr), w.currency, pc.page.deposits[0], newId)
            && PcFrom(v, v.pcs[p]) && !v.pcs[p].Idle? && Later(w, v)
            && v.pcs[p].addr == pc.addr && v.pcs[p].upto == pc.upto && v.pcs[p].page == Rest(pc.page)
  {
    var v, pc := Do(w, RecordDeposit(p, newId, now)), w.pcs[p];
    PageDeposit(w, pc.addr, pc.upto, pc.page, pc.page.deposits[0]);
    FileNeverRaises(w.db, RouteOf(w, pc.addr), w.currency, pc.page.deposits[0], newId, now);
    PageStaysFrom(w, v, pc.addr, pc.upto, pc.page);
    RestFrom(v, pc.addr, pc.upto, pc.page);
  }

  /** The filing that recording a deposit adds. */
  function NewBooking(w: World, addr: Address, d: Deposit, newId: IntentId): Booking {
    Booking(addr, PositionOf(w, addr, d.sig), d.sig,
            if addr !in w.routes then Unrouted(!Taken(w.db.ledger, UnroutableKey(d.sig)))
            else if DepositClaimed(w.db.intents, d.sig) then Repeat
            else WithIntent(newId))
  }

  lemma RecordDepositBooks(w: World, p: nat, newId: IntentId, now: int)
    requires Base(w) && Can(w, RecordDeposit(p, newId, now)) && PcFrom(w, w.pcs[p])
    ensures var v, pc := Do(w, RecordDeposit(p, newId, now)), w.pcs[p]; var d := pc.page.deposits[0];
            var b := NewBooking(w, pc.addr, d, newId);
            && v.booked == w.booked + [b]
            && (forall sig :: Taken(v.db.ledger, UnroutableKey(sig)) <==>
                  Taken(w.db.ledger, UnroutableKey(sig)) || (sig == d.sig && !b.Routed()))
            && (forall id :: id in v.db.intents && id !in w.db.intents ==> id == newId)
            && (newId in v.db.intents <==> b.For(newId))
            && (newId in v.db.intents ==>
               SameTerms(v.db.intents[newId], OpeningFor(w.routes[pc.addr], w.currency, d, newId)))
  {
    var pc := w.pcs[p];
    var d := pc.page.deposits[0];
    PageDeposit(w, pc.addr, pc.upto, pc.page, d);
    FileNeverRaises(w.db, RouteOf(w, pc.addr), w.currency, d, newId, now);
    FilingTells(w.db, RouteOf(w, pc.addr), w.currency, d, newId, now);
    FilingNotes(w.db, RouteOf(w, pc.addr), w.currency, d, newId, now);
  }

  lemma ClaimedMeansBooked(w: World, sig: Signature)
    requires w.unit > 0 && Provenance(w)
    ensures DepositClaimed(w.db.intents, sig) <==>
              exists k :: 0 <= k < |w.booked| && w.booked[k].sig == sig && w.booked[k].Routed()
  {
    if DepositClaimed(w.db.intents, sig) {
      var id :| id in w.db.intents && w.db.intents[id].depositRef == Some(sig);
      var b := WhatItWasOpenedFor(w, id);
      var k :| 0 <= k < |w.booked| && w.booked[k] == b;
      assert BookingOk(w, k);
    }
    if k :| 0 <= k < |w.booked| && w.booked[k].sig == sig && w.booked[k].Routed() {
      assert BookingOk(w, k);
    }
  }

  lemma NotedMeansBooked(w: World, sig: Signature)
    requires w.unit > 0 && Provenance(w)
    ensures Taken(w.db.ledger, UnroutableKey(sig)) <==> TurnedAway(w, sig)
  {
    if TurnedAway(w, sig) {
      var k :| 0 <= k < |w.booked| && w.booked[k].sig == sig && !w.booked[k].Routed();
      assert BookingOk(w, k);
    }
  }

  /** Whether the new filing is the first of its kind is what the tables told it. */
  lemma NewIsFirst(w: World, v: World, b: Booking)
    requires w.unit > 0 && Provenance(w) && v.booked == w.booked + [b]
    ensures FirstRouted(v, |w.booked|) <==> !DepositClaimed(w.db.intents, b.sig)
    ensures FirstUnrouted(v, |w.booked|) <==> !Taken(w.db.ledger, UnroutableKey(b.sig))
  {
    var n := |w.booked|;
    assert v.booked[n] == b && forall l :: 0 <= l < n ==> v.booked[l] == w.booked[l];
    ClaimedMeansBooked(w, b.sig);
    NotedMeansBooked(w, b.sig);
  }

  lemma NewBookingOk(w: World, v: World, p: nat, newId: IntentId, now: int)
    requires Base(w) && Can(w, RecordDeposit(p, newId, now)) && PcFrom(w, w.pcs[p])
    requires v == Do(w, RecordDeposit(p, newId, now)) && Later(w, v)
    requires w.pcs[p].addr in w.routes ==> DepositClaimed(v.db.intents, w.pcs[p].page.deposits[0].sig)
    ensures |v.booked| == |w.booked| + 1 && BookingOk(v, |w.booked|)
  {
    var pc := w.pcs[p];
    var d := pc.page.deposits[0];
    RecordDepositBooks(w, p, newId, now);
    PageDeposit(w, pc.addr, pc.upto, pc.page, d);
    NewIsFirst(w, v, NewBooking(w, pc.addr, d, newId));
    if pc.addr in w.routes && !DepositClaimed(w.db.intents, d.sig) {
      NewIsOpenedFor(w, v, pc.addr, d, newId);
    }
    assert EndingOk(v, |w.booked|);
  }

  lemma NewIsOpenedFor(w: World, v: World, addr: Address, d: Deposit, newId: IntentId)
    requires w.unit > 0 && Later(w, v) && addr in w.logs && addr in w.routes && newId in v.db.intents
    requires SameTerms(v.db.intents[newId], OpeningFor(w.routes[addr], w.currency, d, newId))
    requires var j := PositionOf(w, addr, d.sig);
             j < |w.logs[addr]| && w.logs[addr][j].sig == d.sig && FindingOf(w.logs[addr][j], w.unit) == Credit(d)
    ensures OpenedFor(v, v.db.intents[newId], addr, PositionOf(w, addr, d.sig))
  {
    CreditSplitsExactly(w.logs[addr][PositionOf(w, addr, d.sig)], w.unit);
  }

  lemma RecordDepositProvenance(w: World, p: nat, newId: IntentId, now: int)
    requires Base(w) && Can(w, RecordDeposit(p, newId, now)) && PcFrom(w, w.pcs[p])
    ensures Provenance(Do(w, RecordDeposit(p, newId, now)))
  {
    var v, pc := Do(w, RecordDeposit(p, newId, now)), w.pcs[p];
    RecordDepositFiles(w, p, newId, now);
    RecordDepositBooks(w, p, newId, now);
    forall k | 0 <= k < |v.booked| ensures BookingOk(v, k) {
      if k < |w.booked| {
        BookingStaysOk(w, v, k);
      } else {
        BookedIsClaimed(w, p, newId, now);
        NewBookingOk(w, v, p, newId, now);
      }
    }
    BookedStaysBooked(w, v, newId);
    forall sig | Taken(v.db.ledger, UnroutableKey(sig)) ensures TurnedAway(v, sig) {
      if Taken(w.db.ledger, UnroutableKey(sig)) {
        var k :| 0 <= k < |w.booked| && w.booked[k].sig == sig && !w.booked[k].Routed();
        assert v.booked[k] == w.booked[k];
      } else {
        assert v.booked[|w.booked|].sig == sig;
      }
    }
  }

  lemma BookedStaysBooked(w: World, v: World, newId: IntentId)
    requires w.unit > 0 && Provenance(w) && Extends(w.db, v.db) && |v.booked| == |w.booked| + 1 && w.booked <= v.booked
    requires forall id :: id in v.db.intents && id !in w.db.intents ==> id == newId && v.booked[|w.booked|].For(newId)
    ensures forall id :: id in v.db.intents && v.db.intents[id].depositRef.Some? ==> Booked(v, id)
  {
    forall id | id in v.db.intents && v.db.intents[id].depositRef.Some? ensures Booked(v, id) {
      if id in w.db.intents {
        assert Booked(w, id);
        var k :| 0 <= k < |w.booked| && w.booked[k].For(id);
        assert v.booked[k].For(id);
      } else {
        assert v.booked[|w.booked|].For(id);
      }
    }
  }

  lemma BookedIsClaimed(w: World, p: nat, newId: IntentId, now: int)
    requires Base(w) && Can(w, RecordDeposit(p, newId, now)) && PcFrom(w, w.pcs[p])
    ensures w.pcs[p].addr in w.routes ==>
              DepositClaimed(Do(w, RecordDeposit(p, newId, now)).db.intents, w.pcs[p].page.deposits[0].sig)
  {
    var v, d := Do(w, RecordDeposit(p, newId, now)), w.pcs[p].page.deposits[0];
    RecordDepositFiles(w, p, newId, now);
    RecordDepositBooks(w, p, newId, now);
    if DepositClaimed(w.db.intents, d.sig) {
      ClaimStays(w.db, v.db, d.sig);
    } else if w.pcs[p].addr in w.routes {
      assert v.db.intents[newId].depositRef == Some(d.sig);
    }
  }

  /** Afterwards the entry is accounted for. */
  lemma RecordDepositAccounts(w: World, p: nat, newId: IntentId, now: int)
    requires Base(w) && Can(w, RecordDeposit(p, newId, now)) && PcFrom(w, w.pcs[p])
    ensures var v, pc := Do(w, RecordDeposit(p, newId, now)), w.pcs[p];
            pc.addr in v.logs && var j := PositionOf(v, pc.addr, pc.page.deposits[0].sig);
            j < |v.logs[pc.addr]| && Accounted(v, pc.addr, j)
  {
    var v, pc := Do(w, RecordDeposit(p, newId, now)), w.pcs[p];
    PageDeposit(w, pc.addr, pc.upto, pc.page, pc.page.deposits[0]);
    RecordDepositBooks(w, p, newId, now);
    assert v.booked[|w.booked|].At(pc.addr, PositionOf(w, pc.addr, pc.page.deposits[0].sig));
  }

  lemma RecordDepositKeeps(w: World, p: nat, newId: IntentId, now: int)
    requires Base(w) && Can(w, RecordDeposit(p, newId, now))
    ensures var v := Do(w, RecordDeposit(p, newId, now)); Base(v) && Later(w, v) && (Whole(w) ==> Whole(v))
  {
    var v, pc := Do(w, RecordDeposit(p, newId, now)), w.pcs[p];
    assert PcFrom(w, pc);
    RecordDepositFiles(w, p, newId, now);
    RecordDepositProvenance(w, p, newId, now);
    TablesKeepBase(w, v, p, v.pcs[p]);
    if Whole(w) {
      assert PcCovers(w, pc);
      PageStillCovers(w, v, pc.addr, pc.upto, pc.page);
      PageStaysFrom(w, v, pc.addr, pc.upto, pc.page);
      RecordDepositAccounts(w, p, newId, now);
      RestCovers(v, pc.addr, pc.upto, pc.page);
      TablesKeepWhole(w, v, p, v.pcs[p]);
    }
  }

  // -------------------------------------------------------------------- hops

  lemma ConfirmKeeps(w: World, p: nat, now: int, hit: bool)
    requires Base(w) && Can(w, Confirm(p, now, hit))
    ensures var v := Do(w, Confirm(p, now, hit)); Base(v) && Later(w, v) && (Whole(w) ==> Whole(v))
  {
    var v := Do(w, Confirm(p, now, hit));
    var pc := w.pcs[p];
    assert PcFrom(w, pc);
    HopKeepsTables(w.db, ConfirmRequest(pc.id, pc.sig), now);
    PageStaysFrom(w, v, pc.addr, pc.upto, pc.page);
    assert PcFrom(v, v.pcs[p]);
    ProvenanceStays(w, v);
    TablesKeepBase(w, v, p, v.pcs[p]);
    if Whole(w) {
      assert PcCovers(w, pc);
      PageStillCovers(w, v, pc.addr, pc.upto, pc.page);
      TablesKeepWhole(w, v, p, v.pcs[p]);
    }
  }

  /** The rest of the pipeline works on the same tables: its hops, and the reconciler's, are those
      of `advance`, and a customer can open an intent before paying for it. */
  lemma OthersShareTheTables(w: World, req: Request, id: IntentId, o: Opening, now: int)
    ensures w.unit > 0 && BeyondIntake(w.db, req) ==>
              var s := Elsewhere(req, now, !Free(w.db.ledger, req.key));
              Can(w, s) && Do(w, s) == w.(db := Advance(w.db, req, now).0)
    ensures w.unit > 0 && id in w.db.intents && w.db.intents[id].depositRef.Some? ==>
              var confirm := ConfirmRequest(id, w.db.intents[id].depositRef.value);
              var s := Reconfirm(id, now, !Free(w.db.ledger, confirm.key));
              Can(w, s) && Do(w, s) == w.(db := Advance(w.db, confirm, now).0)
    ensures w.unit > 0 && Can(w, OpenUnpaid(o, now)) && o.amount.minor > 0 ==>
              var v := Do(w, OpenUnpaid(o, now)); o.id in v.db.intents && v.db.intents[o.id].state == Pending
  {}

  /** Steps outside the watchers touch the tables alone. */
  lemma OutsideKeeps(w: World, v: World)
    requires Base(w) && v == w.(db := v.db) && Sound(v.db) && KeysTell(v.db) && Extends(w.db, v.db)
    requires forall id :: id in v.db.intents && id !in w.db.intents ==> v.db.intents[id].depositRef.None?
    requires NoNewNotes(w.db, v.db)
    ensures Base(v) && Later(w, v) && (Whole(w) ==> Whole(v))
  {
    ProvenanceStays(w, v);
    TablesKeepBase(w, v, 0, Idle);
    if Whole(w) {
      TablesKeepWhole(w, v, 0, Idle);
    }
  }

  lemma HopKeeps(w: World, req: Request, now: int, hit: bool)
    requires Base(w) && IntakeRequest(w.db, req)
    ensures var v := w.(db := Hop(w.db, req, now, hit).0); Base(v) && Later(w, v) && (Whole(w) ==> Whole(v))
  {
    HopKeepsTables(w.db, req, now);
    OutsideKeeps(w, w.(db := Hop(w.db, req, now, hit).0));
  }

  lemma OpenUnpaidKeeps(w: World, o: Opening, now: int)
    requires Base(w) && Can(w, OpenUnpaid(o, now))
    ensures var v := Do(w, OpenUnpaid(o, now)); Base(v) && Later(w, v) && (Whole(w) ==> Whole(v))
  {
    CreateKeepsTables(w.db, o, now);
    OutsideKeeps(w, Do(w, OpenUnpaid(o, now)));
  }

  lemma CrashKeeps(w: World, p: nat)
    requires Base(w) && Can(w, Crash(p))
    ensures var v := Do(w, Crash(p)); Base(v) && Later(w, v) && (Whole(w) ==> Whole(v))
  {
    var v := Do(w, Crash(p));
    ProvenanceStays(w, v);
    TablesKeepBase(w, v, p, Idle);
    if Whole(w) {
      TablesKeepWhole(w, v, p, Idle);
    }
  }

  // ------------------------------------------------------------------ cursor

  lemma AdvancedCounts(w: World, v: World, a: Address, upto: nat, to: Position)
    requires v == w.(cursors := Advanced(w.cursors, a, to), pcs := v.pcs)
    requires a in w.logs && LogOk(w.logs[a]) && CursorOk(w, a) && 0 < upto <= |w.logs[a]|
    requires to == Position(w.logs[a][upto - 1].sig, w.logs[a][upto - 1].slot)
    ensures CursorOk(v, a) && (v.cursors == w.cursors || Behind(v, a) == upto)
  {
    CountAt(w.logs[a], upto);
  }

  lemma MoveCursorCounts(w: World, p: nat)
    requires Base(w) && Can(w, MoveCursor(p))
    ensures var v, a := Do(w, MoveCursor(p)), w.pcs[p].addr;
            && a in w.logs && CursorOk(v, a)
            && (v.cursors == w.cursors || Behind(v, a) == w.pcs[p].upto)
            && forall b :: b in w.logs && b != a ==> Behind(v, b) == Behind(w, b)
  {
    var v, pc := Do(w, MoveCursor(p)), w.pcs[p];
    assert PcFrom(w, pc);
    assert CursorOk(w, pc.addr) by {
      if pc.addr in w.cursors {
        assert CursorOk(w, pc.addr);
      }
    }
    if pc.page.cursor.Some? {
      AdvancedCounts(w, v, pc.addr, pc.upto, pc.page.cursor.value);
    }
  }

  lemma MoveCursorKeepsBase(w: World, p: nat)
    requires Base(w) && Can(w, MoveCursor(p))
    ensures var v := Do(w, MoveCursor(p)); Base(v) && Later(w, v)
  {
    var v := Do(w, MoveCursor(p));
    assert Later(w, v);
    PcsStayFrom(w, v, p, Idle);
    assert Provenance(v) by { ProvenanceStays(w, v); }
    assert ChainOk(v) by { MoveCursorKeepsChain(w, p); }
  }

  lemma OtherCursorStays(w: World, v: World, a: Address)
    requires ChainOk(w) && v == w.(cursors := v.cursors, pcs := v.pcs)
    requires a in v.cursors && a in w.cursors && v.cursors[a] == w.cursors[a]
    ensures CursorOk(v, a)
  {
    assert CursorOk(w, a);
  }

  lemma MoveCursorKeepsChain(w: World, p: nat)
    requires Base(w) && Can(w, MoveCursor(p))
    ensures ChainOk(Do(w, MoveCursor(p)))
  {
    var v := Do(w, MoveCursor(p));
    MoveCursorCounts(w, p);
    forall a | a in v.cursors ensures CursorOk(v, a) {
      if a != w.pcs[p].addr {
        OtherCursorStays(w, v, a);
      }
    }
  }

  lemma MoveCursorKeepsCovered(w: World, p: nat, a: Address)
    requires Base(w) && Can(w, MoveCursor(p)) && a in w.logs && Covered(w, a)
    requires PcFrom(w, w.pcs[p]) && PcCovers(w, w.pcs[p])
    ensures Covered(Do(w, MoveCursor(p)), a)
  {
    var v := Do(w, MoveCursor(p));
    MoveCursorCounts(w, p);
    forall j | 0 <= j < Behind(v, a) ensures Accounted(v, a, j) {
      assert Accounted(w, a, j);
    }
  }

  lemma MoveCursorKeeps(w: World, p: nat)
    requires Base(w) && Can(w, MoveCursor(p))
    ensures var v := Do(w, MoveCursor(p)); Base(v) && Later(w, v) && (Whole(w) ==> Whole(v))
  {
    var v := Do(w, MoveCursor(p));
    MoveCursorKeepsBase(w, p);
    if Whole(w) {
      assert PcFrom(w, w.pcs[p]) && PcCovers(w, w.pcs[p]);
      PcsStillCover(w, v, p, Idle);
      forall a | a in v.logs ensures Covered(v, a) {
        assert Covered(w, a);
        MoveCursorKeepsCovered(w, p, a);
      }
    }
  }

  // -------------------------------------------------------------------- runs

  lemma StepKeeps(w: World, s: Step)
    requires Base(w) && Can(w, s)
    ensures Base(Do(w, s)) && Later(w, Do(w, s))
    ensures Whole(w) && (s.Poll? ==> NothingSkipped(w, s.addr)) ==> Whole(Do(w, s))
  {
    match s
    case Land(addr, e) => LandKeeps(w, addr, e);
    case Register(addr, card) => RegisterKeeps(w, addr, card);
    case Poll(p, addr, available) => PollKeeps(w, p, addr, available);
    case NoteIgnored(p) => NoteIgnoredKeeps(w, p);
    case RecordDeposit(p, newId, now) => RecordDepositKeeps(w, p, newId, now);
    case Confirm(p, now, hit) => ConfirmKeeps(w, p, now, hit);
    case MoveCursor(p) => MoveCursorKeeps(w, p);
    case Crash(p) => CrashKeeps(w, p);
    case Reconfirm(id, now, hit) => HopKeeps(w, ConfirmRequest(id, w.db.intents[id].depositRef.value), now, hit);
    case Elsewhere(req, now, hit) => HopKeeps(w, req, now, hit);
    case OpenUnpaid(o, now) => OpenUnpaidKeeps(w, o, now);
  }

  lemma LaterIsTransitive(u: World, v: World, w: World)
    requires Later(u, v) && Later(v, w)
    ensures Later(u, w)
  {}

  lemma {:induction false} RunKeeps(w: World, steps: seq<Step>)
    requires Base(w) && Runs(w, steps)
    ensures Base(Exec(w, steps)) && Later(w, Exec(w, steps))
    decreases |steps|
  {
    if steps != [] {
      StepKeeps(w, steps[0]);
      RunKeeps(Do(w, steps[0]), steps[1..]);
      LaterIsTransitive(w, Do(w, steps[0]), Exec(w, steps));
    }
  }

  /** No poll ever found more than a page of new entries. */
  ghost predicate NeverOverflows(w: World, steps: seq<Step>)
    requires Runs(w, steps)
    decreases |steps|
  {
    steps == [] ||
    ((steps[0].Poll? ==> NothingSkipped(w, steps[0].addr)) && NeverOverflows(Do(w, steps[0]), steps[1..]))
  }

  lemma {:induction false} RunKeepsWhole(w: World, steps: seq<Step>)
    requires Base(w) && Whole(w) && Runs(w, steps) && NeverOverflows(w, steps)
    ensures Base(Exec(w, steps)) && Whole(Exec(w, steps))
    decreases |steps|
  {
    if steps != [] {
      StepKeeps(w, steps[0]);
      RunKeepsWhole(Do(w, steps[0]), steps[1..]);
    }
  }

  lemma StartIsWhole(unit: nat, limit: nat, currency: string, workers: nat)
    requires unit > 0
    ensures var w := Start(unit, limit, currency, workers); Base(w) && Whole(w)
  {}

  // ------------------------------------------------------ one confirmation

  /** In every run an intent's deposit is confirmed by one row exactly once it has left Pending. */
  lemma ConfirmedExactlyOnce(w: World, steps: seq<Step>, id: IntentId)
    requires Base(w) && Runs(w, steps)
    requires var v := Exec(w, steps); id in v.db.intents && v.db.intents[id].depositRef.Some?
    ensures var v := Exec(w, steps);
            CountKey(v.db.ledger, ConfirmKey(v.db.intents[id].depositRef.value))
            == if v.db.intents[id].state == Pending then 0 else 1
  {
    RunKeeps(w, steps);
    var v := Exec(w, steps);
    assert ConfirmTells(v.db, id);
    UniqueMeansAtMostOnce(v.db.ledger, ConfirmKey(v.db.intents[id].depositRef.value));
  }

  /** A deposit whose intake stalled is confirmed by the reconciler exactly when it is still
      Pending; late and repeated confirmations change no intent. */
  lemma StalledDepositConfirms(w: World, id: IntentId, now: int, hit: bool)
    requires Base(w) && Can(w, Reconfirm(id, now, hit))
    ensures var v := Do(w, Reconfirm(id, now, hit));
            && id in v.db.intents && v.db.intents[id].state != Pending
            && Taken(v.db.ledger, ConfirmKey(w.db.intents[id].depositRef.value))
            && (w.db.intents[id].state == Pending ==> v.db.intents[id].state == DepositConfirmed)
            && (v.db.intents != w.db.intents <==> w.db.intents[id].state == Pending)
  {
    var v := Do(w, Reconfirm(id, now, hit));
    StepKeeps(w, Reconfirm(id, now, hit));
    assert ConfirmTells(w.db, id) && ConfirmTells(v.db, id);
  }
}
