/** From chain to intents: watchers poll, record and move a cursor, any of them crashing
    between any two commits, while the reconciler and the rest of the pipeline go on. */
module Intake {
  import opened Basics
  import opened FundingStates
  import opened Ledger
  import opened Machine
  import opened Watcher

  type Address = string

  datatype Pc =
    | Idle
    | Recording(addr: Address, upto: nat, page: Page)                        // page still to record
    | Confirming(addr: Address, upto: nat, page: Page, id: IntentId, sig: Signature) // intent opened

  /** What filing a deposit came to: an intent opened for it, a repeat of a signature that had
      one, or a note that its address had no route, which is written once for each signature. */
  datatype Ending = WithIntent(id: IntentId) | Repeat | Unrouted(wrote: bool)

  /** A deposit filed: which entry of which log it was, and what came of it. */
  datatype Booking = Booking(addr: Address, j: nat, sig: Signature, ending: Ending) {
    predicate Routed() { !ending.Unrouted? }

    predicate For(id: IntentId) { ending == WithIntent(id) }

    predicate At(a: Address, i: nat) { addr == a && j == i }
  }

  /** `booked` is every filing in the order it was made; no step depends on it. */
  datatype World = World(
    unit: nat,
    limit: nat,
    currency: string,
    logs: map<Address, seq<Entry>>,
    routes: map<Address, Card>,
    cursors: map<Address, Position>,
    db: Db,
    booked: seq<Booking>,
    pcs: seq<Pc>)

  datatype Step =
    | Land(addr: Address, e: Entry)
    | Register(addr: Address, card: Card)
    | Poll(p: nat, addr: Address, available: set<Signature>)
    | NoteIgnored(p: nat)
    | RecordDeposit(p: nat, newId: IntentId, now: int)
    | Confirm(p: nat, now: int, hit: bool)
    | MoveCursor(p: nat)
    | Crash(p: nat)
    | Reconfirm(id: IntentId, now: int, hit: bool)
    | Elsewhere(req: Request, now: int, hit: bool)
    | OpenUnpaid(o: Opening, now: int)

  // ------------------------------------------------------------- the chain

  /** How many entries of `log` are at or behind signature `sig`. */
  function CountThrough(log: seq<Entry>, sig: Signature): (n: nat)
    ensures n <= |log|
    ensures n > 0 ==> log[n - 1].sig == sig
    ensures n == 0 ==> forall i :: 0 <= i < |log| ==> log[i].sig != sig
  {
    if log == [] then 0
    else if log[|log| - 1].sig == sig then |log|
    else CountThrough(log[..|log| - 1], sig)
  }

  function Behind(w: World, addr: Address): (n: nat)
    requires addr in w.logs
    ensures n <= |w.logs[addr]|
  {
    if addr !in w.cursors then 0 else CountThrough(w.logs[addr], w.cursors[addr].sig)
  }

  /** The first entry the node lists for a watcher: the page limit keeps the newest ones. */
  function ListedFrom(w: World, addr: Address): (n: nat)
    requires addr in w.logs
    ensures Behind(w, addr) <= n <= |w.logs[addr]|
  {
    var behind, len := Behind(w, addr), |w.logs[addr]|;
    if len - behind <= w.limit then behind else len - w.limit
  }

  /** What the node lists for a watcher, here oldest first. */
  function Listed(w: World, addr: Address): seq<Entry>
    requires addr in w.logs
  {
    w.logs[addr][ListedFrom(w, addr)..]
  }

  function PolledTo(w: World, addr: Address, available: set<Signature>): (n: nat)
    requires addr in w.logs
    ensures ListedFrom(w, addr) <= n <= |w.logs[addr]|
  {
    ListedFrom(w, addr) + ReadableUpTo(Listed(w, addr), available)
  }

  predicate NothingSkipped(w: World, addr: Address)
    requires addr in w.logs
  {
    |w.logs[addr]| - Behind(w, addr) <= w.limit
  }

  /** A cursor never moves to an earlier slot. */
  function Advanced(cursors: map<Address, Position>, addr: Address, to: Position): map<Address, Position> {
    if addr in cursors && to.slot < cursors[addr].slot then cursors else cursors[addr := to]
  }

  // ------------------------------------------------------------------ steps

  function ConfirmRequest(id: IntentId, sig: Signature): Request {
    Request(id, DepositConfirmed, Some("finalized"), NO_UPDATES, Some(ConfirmKey(sig)))
  }

  function OpeningFor(card: Card, currency: string, d: Deposit, newId: IntentId): Opening {
    Opening(newId, card, Money(d.minor, currency), Some(d.sig), Some(DepositKey(d.sig)))
  }

  datatype Filing = NewIntent | Duplicate | Unroutable | Raised

  /** Put one creditable deposit on record: open its intent, or note why there is none. */
  function File(db: Db, route: Option<Card>, currency: string, d: Deposit, newId: IntentId, now: int): (Db, Filing)
    requires newId !in db.intents
  {
    if route.None? then (Note(db, UnroutableKey(d.sig)), Unroutable)
    else
      var (after, outcome) := Create(db, OpeningFor(route.value, currency, d, newId), now);
      match outcome
      case Opened(_) => (after, NewIntent)
      case DepositTaken => (Note(after, DuplicateKey(d.sig)), Duplicate)
      case _ => (after, Raised)
  }

  function RouteOf(w: World, addr: Address): Option<Card> {
    if addr in w.routes then Some(w.routes[addr]) else None
  }

  /** Everything else that hops an intent: it never takes one out of Pending, and its keys
      are its own. */
  predicate BeyondIntake(db: Db, req: Request) {
    && KeepsDeposit(req)
    && (req.key.Some? ==> req.key.value.HopKey?)
    && (req.intent in db.intents && db.intents[req.intent].state == Pending && Legal(Pending, req.to) ==>
          req.to == Pending)
  }

  predicate Fits(log: seq<Entry>, e: Entry) {
    (forall i :: 0 <= i < |log| ==> log[i].sig != e.sig) && (log != [] ==> log[|log| - 1].slot <= e.slot)
  }

  predicate Can(w: World, s: Step) {
    match s
    case Land(addr, e) => addr in w.logs ==> Fits(w.logs[addr], e)
    case Register(addr, card) => addr in w.routes ==> w.routes[addr] == card
    case Poll(p, addr, _) => p < |w.pcs| && w.pcs[p].Idle? && addr in w.logs
    case NoteIgnored(p) => p < |w.pcs| && w.pcs[p].Recording? && w.pcs[p].page.ignored != []
    case RecordDeposit(p, newId, _) =>
      p < |w.pcs| && w.pcs[p].Recording? && w.pcs[p].page.ignored == [] && w.pcs[p].page.deposits != []
      && newId !in w.db.intents
    case Confirm(p, _, hit) =>
      p < |w.pcs| && w.pcs[p].Confirming? && MayHit(w.db, ConfirmRequest(w.pcs[p].id, w.pcs[p].sig), hit)
    case MoveCursor(p) =>
      p < |w.pcs| && w.pcs[p].Recording? && w.pcs[p].page.ignored == [] && w.pcs[p].page.deposits == []
    case Crash(p) => p < |w.pcs|
    case Reconfirm(id, _, hit) =>
      id in w.db.intents && w.db.intents[id].depositRef.Some?
      && MayHit(w.db, ConfirmRequest(id, w.db.intents[id].depositRef.value), hit)
    case Elsewhere(req, _, hit) => BeyondIntake(w.db, req) && MayHit(w.db, req, hit)
    case OpenUnpaid(o, _) => o.id !in w.db.intents && o.depositRef.None? && o.key.None?
  }

  function Rest(page: Page): Page
    requires page.deposits != []
  {
    page.(deposits := page.deposits[1..])
  }

  /** Where in the address's log the signature is. */
  function PositionOf(w: World, addr: Address, sig: Signature): nat {
    var n := if addr in w.logs then CountThrough(w.logs[addr], sig) else 0;
    if n > 0 then n - 1 else 0
  }

  function Bookings(w: World, addr: Address, d: Deposit, filing: Filing, newId: IntentId): seq<Booking> {
    var j := PositionOf(w, addr, d.sig);
    match filing
    case NewIntent => [Booking(addr, j, d.sig, WithIntent(newId))]
    case Duplicate => [Booking(addr, j, d.sig, Repeat)]
    case Unroutable => [Booking(addr, j, d.sig, Unrouted(!Taken(w.db.ledger, UnroutableKey(d.sig))))]
    case Raised => []
  }

  function DepositRecorded(w: World, p: nat, newId: IntentId, now: int): World
    requires Can(w, RecordDeposit(p, newId, now))
  {
    var pc := w.pcs[p];
    var d := pc.page.deposits[0];
    var (db, filing) := File(w.db, RouteOf(w, pc.addr), w.currency, d, newId, now);
    w.(db := db,
       booked := w.booked + Bookings(w, pc.addr, d, filing, newId),
       pcs := w.pcs[p :=
         match filing
         case NewIntent => Confirming(pc.addr, pc.upto, Rest(pc.page), newId, d.sig)
         case Raised => Idle
         case _ => Recording(pc.addr, pc.upto, Rest(pc.page))])
  }

  function Do(w: World, s: Step): World
    requires w.unit > 0 && Can(w, s)
  {
    match s
    case Land(addr, e) => w.(logs := w.logs[addr := (if addr in w.logs then w.logs[addr] else []) + [e]])
    case Register(addr, card) => w.(routes := w.routes[addr := card])
    case Poll(p, addr, available) =>
      var page := PageOf(Listed(w, addr), available, w.unit);
      w.(pcs := w.pcs[p := Recording(addr, PolledTo(w, addr, available), page)])
    case NoteIgnored(p) =>
      var pc := w.pcs[p];
      w.(db := Note(w.db, IgnoredKey(pc.page.ignored[0].sig)),
         pcs := w.pcs[p := Recording(pc.addr, pc.upto, pc.page.(ignored := pc.page.ignored[1..]))])
    case RecordDeposit(p, newId, now) => DepositRecorded(w, p, newId, now)
    case Confirm(p, now, hit) =>
      var pc := w.pcs[p];
      var (db, outcome) := Hop(w.db, ConfirmRequest(pc.id, pc.sig), now, hit);
      w.(db := db, pcs := w.pcs[p := if outcome.Returned() then Recording(pc.addr, pc.upto, pc.page) else Idle])
    case MoveCursor(p) =>
      var pc := w.pcs[p];
      w.(cursors := if pc.page.cursor.None? then w.cursors else Advanced(w.cursors, pc.addr, pc.page.cursor.value),
         pcs := w.pcs[p := Idle])
    case Crash(p) => w.(pcs := w.pcs[p := Idle])
    case Reconfirm(id, now, hit) =>
      w.(db := Hop(w.db, ConfirmRequest(id, w.db.intents[id].depositRef.value), now, hit).0)
    case Elsewhere(req, now, hit) => w.(db := Hop(w.db, req, now, hit).0)
    case OpenUnpaid(o, now) => w.(db := Create(w.db, o, now).0)
  }

  // -------------------------------------------------------------- invariant

  predicate Creditable(w: World, e: Entry)
    requires w.unit > 0
  {
    IsDeposit(e, w.unit)
  }

  /** The entry has been filed ... */
  predicate FiledAt(w: World, addr: Address, j: nat) {
    exists k :: 0 <= k < |w.booked| && w.booked[k].At(addr, j)
  }

  /** ... at least once when its address had a route. */
  predicate FiledAsRouted(w: World, addr: Address, j: nat) {
    exists k :: 0 <= k < |w.booked| && w.booked[k].At(addr, j) && w.booked[k].Routed()
  }

  /** If the entry is a deposit, that very entry has been filed. */
  predicate Accounted(w: World, addr: Address, j: nat)
    requires w.unit > 0 && addr in w.logs && j < |w.logs[addr]|
  {
    Creditable(w, w.logs[addr][j]) ==> FiledAt(w, addr, j)
  }

  /** The intent was opened for entry `j` of a routed address, on its terms. */
  predicate OpenedFor(w: World, i: Intent, addr: Address, j: nat)
    requires w.unit > 0
  {
    && addr in w.logs && addr in w.routes && j < |w.logs[addr]|
    && var e := w.logs[addr][j];
       && Creditable(w, e) && i.depositRef == Some(e.sig)
       && i.card == w.routes[addr]
       && i.amount == Money(NetIn(e) / w.unit, w.currency)
  }

  /** No routed entry of the signature was filed before the `k`th filing. */
  predicate FirstRouted(w: World, k: nat)
    requires k < |w.booked|
  {
    forall l :: 0 <= l < k && w.booked[l].Routed() ==> w.booked[l].sig != w.booked[k].sig
  }

  predicate FirstUnrouted(w: World, k: nat)
    requires k < |w.booked|
  {
    forall l :: 0 <= l < k && !w.booked[l].Routed() ==> w.booked[l].sig != w.booked[k].sig
  }

  /** What a filing came to is true of the tables: of the routed ones exactly the first of each
      signature opened an intent, and of the others exactly the first wrote the note. */
  predicate EndingOk(w: World, k: nat)
    requires w.unit > 0 && k < |w.booked|
  {
    var b := w.booked[k];
    match b.ending
    case WithIntent(id) =>
      && b.addr in w.routes && DepositClaimed(w.db.intents, b.sig) && FirstRouted(w, k)
      && id in w.db.intents && OpenedFor(w, w.db.intents[id], b.addr, b.j)
    case Repeat => b.addr in w.routes && DepositClaimed(w.db.intents, b.sig) && !FirstRouted(w, k)
    case Unrouted(wrote) => Taken(w.db.ledger, UnroutableKey(b.sig)) && (wrote <==> FirstUnrouted(w, k))
  }

  /** A filing is of a creditable entry of its address's log. */
  predicate BookingOk(w: World, k: nat)
    requires w.unit > 0 && k < |w.booked|
  {
    var b := w.booked[k];
    && b.addr in w.logs && b.j < |w.logs[b.addr]| && w.logs[b.addr][b.j].sig == b.sig
    && Creditable(w, w.logs[b.addr][b.j]) && EndingOk(w, k)
  }

  predicate Booked(w: World, id: IntentId) {
    exists k :: 0 <= k < |w.booked| && w.booked[k].For(id)
  }

  predicate TurnedAway(w: World, sig: Signature) {
    exists k :: 0 <= k < |w.booked| && w.booked[k].sig == sig && !w.booked[k].Routed()
  }

  /** Every intent with a deposit, and every note of a missing route, was made by a filing. */
  ghost predicate Provenance(w: World)
    requires w.unit > 0
  {
    && (forall k :: 0 <= k < |w.booked| ==> BookingOk(w, k))
    && (forall id :: id in w.db.intents && w.db.intents[id].depositRef.Some? ==> Booked(w, id))
    && forall sig :: Taken(w.db.ledger, UnroutableKey(sig)) ==> TurnedAway(w, sig)
  }

  ghost predicate KeysAreClaimed(db: Db) {
    forall sig :: Taken(db.ledger, DepositKey(sig)) || Taken(db.ledger, ConfirmKey(sig)) ==>
      DepositClaimed(db.intents, sig)
  }

  predicate ConfirmTells(db: Db, id: IntentId)
    requires id in db.intents
  {
    match db.intents[id].depositRef
    case None => db.intents[id].state == Pending
    case Some(sig) => Taken(db.ledger, ConfirmKey(sig)) <==> db.intents[id].state != Pending
  }

  /** The two intake keys say exactly what happened to the deposit they name, and an intent
      without a deposit stays Pending. */
  ghost predicate KeysTell(db: Db) {
    KeysAreClaimed(db) && forall id :: id in db.intents ==> ConfirmTells(db, id)
  }

  predicate LogOk(log: seq<Entry>) {
    forall i, j :: 0 <= i < j < |log| ==> log[i].sig != log[j].sig && log[i].slot <= log[j].slot
  }

  predicate CursorOk(w: World, a: Address) {
    a in w.cursors ==>
      a in w.logs && Behind(w, a) > 0 && w.logs[a][Behind(w, a) - 1].slot == w.cursors[a].slot
  }

  ghost predicate ChainOk(w: World) {
    (forall a :: a in w.logs ==> LogOk(w.logs[a])) && (forall a :: a in w.cursors ==> CursorOk(w, a))
  }

  predicate CameFrom(d: Deposit, log: seq<Entry>, upto: nat, unit: nat)
    requires unit > 0 && upto <= |log|
  {
    exists j :: 0 <= j < upto && FindingOf(log[j], unit) == Credit(d)
  }

  /** What is on a page came from the log, and its position is where the page ends. */
  ghost predicate PageFrom(w: World, addr: Address, upto: nat, page: Page)
    requires w.unit > 0
  {
    && addr in w.logs && upto <= |w.logs[addr]|
    && (forall d :: d in page.deposits ==> CameFrom(d, w.logs[addr], upto, w.unit))
    && (page.cursor.Some? ==>
          && upto > 0 && w.logs[addr][upto - 1].sig == page.cursor.value.sig
          && w.logs[addr][upto - 1].slot == page.cursor.value.slot)
  }

  ghost predicate PcFrom(w: World, pc: Pc)
    requires w.unit > 0
  {
    match pc
    case Idle => true
    case Recording(addr, upto, page) => PageFrom(w, addr, upto, page)
    case Confirming(addr, upto, page, id, sig) =>
      PageFrom(w, addr, upto, page) && id in w.db.intents && w.db.intents[id].depositRef == Some(sig)
  }

  /** What every run keeps, whatever the node leaves out. */
  ghost predicate Base(w: World) {
    && w.unit > 0
    && Sound(w.db)
    && ChainOk(w)
    && Provenance(w)
    && KeysTell(w.db)
    && forall p :: 0 <= p < |w.pcs| ==> PcFrom(w, w.pcs[p])
  }

  /** Everything at or behind the address's cursor is accounted for. */
  ghost predicate Covered(w: World, a: Address)
    requires w.unit > 0 && a in w.logs
  {
    forall j :: 0 <= j < Behind(w, a) ==> Accounted(w, a, j)
  }

  /** Everything up to the page's end is accounted for or still on the page. */
  ghost predicate PageCovers(w: World, addr: Address, upto: nat, page: Page)
    requires w.unit > 0 && addr in w.logs && upto <= |w.logs[addr]|
  {
    forall j :: 0 <= j < upto && Creditable(w, w.logs[addr][j]) ==>
      Accounted(w, addr, j) || FindingOf(w.logs[addr][j], w.unit).deposit in page.deposits
  }

  ghost predicate PcCovers(w: World, pc: Pc)
    requires w.unit > 0 && PcFrom(w, pc)
  {
    pc.Idle? || PageCovers(w, pc.addr, pc.upto, pc.page)
  }

  /** What is kept besides as long as no poll overflows its page. */
  ghost predicate Whole(w: World)
    requires Base(w)
  {
    && (forall a :: a in w.logs ==> Covered(w, a))
    && forall p :: 0 <= p < |w.pcs| ==> PcCovers(w, w.pcs[p])
  }

  // ------------------------------------------------------------ monotonicity

  /** Logs only grow, routes are written once, and intents keep what they were opened with. */
  ghost predicate Later(w: World, v: World) {
    && v.unit == w.unit && v.limit == w.limit && v.currency == w.currency
    && (forall a :: a in w.logs ==> a in v.logs && w.logs[a] <= v.logs[a])
    && (forall a :: a in w.routes ==> a in v.routes && v.routes[a] == w.routes[a])
    && Extends(w.db, v.db) && w.booked <= v.booked
  }

  lemma ClaimStays(a: Db, b: Db, sig: Signature)
    requires Extends(a, b) && DepositClaimed(a.intents, sig)
    ensures DepositClaimed(b.intents, sig)
  {
    var id :| id in a.intents && a.intents[id].depositRef == Some(sig);
    assert b.intents[id].depositRef == Some(sig);
  }

  lemma AccountedStays(w: World, v: World, addr: Address, j: nat)
    requires w.unit > 0 && Later(w, v) && addr in w.logs && j < |w.logs[addr]| && Accounted(w, addr, j)
    ensures Accounted(v, addr, j)
  {
    if FiledAt(w, addr, j) {
      var k :| 0 <= k < |w.booked| && w.booked[k].At(addr, j);
      assert v.booked[k] == w.booked[k];
    }
  }

  lemma PageStaysFrom(w: World, v: World, addr: Address, upto: nat, page: Page)
    requires w.unit > 0 && Later(w, v) && PageFrom(w, addr, upto, page)
    ensures PageFrom(v, addr, upto, page)
  {
    forall d | d in page.deposits ensures CameFrom(d, v.logs[addr], upto, v.unit) {
      var j :| 0 <= j < upto && FindingOf(w.logs[addr][j], w.unit) == Credit(d);
      assert v.logs[addr][j] == w.logs[addr][j];
    }
  }

  lemma PcStaysFrom(w: World, v: World, pc: Pc)
    requires w.unit > 0 && Later(w, v) && PcFrom(w, pc)
    ensures PcFrom(v, pc)
  {
    if !pc.Idle? {
      PageStaysFrom(w, v, pc.addr, pc.upto, pc.page);
    }
  }

  /** One worker moves; what the others hold stays true. */
  lemma PcsStayFrom(w: World, v: World, p: nat, pc: Pc)
    requires w.unit > 0 && Later(w, v) && PcFrom(v, pc)
    requires v.pcs == w.pcs || (p < |w.pcs| && v.pcs == w.pcs[p := pc])
    requires forall q :: 0 <= q < |w.pcs| ==> PcFrom(w, w.pcs[q])
    ensures forall q :: 0 <= q < |v.pcs| ==> PcFrom(v, v.pcs[q])
  {
    forall q | 0 <= q < |v.pcs| ensures PcFrom(v, v.pcs[q]) {
      if v.pcs[q] == w.pcs[q] {
        PcStaysFrom(w, v, w.pcs[q]);
      }
    }
  }

  lemma PageStillCovers(w: World, v: World, addr: Address, upto: nat, page: Page)
    requires w.unit > 0 && Later(w, v) && addr in w.logs && upto <= |w.logs[addr]| && PageCovers(w, addr, upto, page)
    ensures PageCovers(v, addr, upto, page)
  {
    forall j | 0 <= j < upto && Creditable(v, v.logs[addr][j])
      ensures Accounted(v, addr, j) || FindingOf(v.logs[addr][j], v.unit).deposit in page.deposits
    {
      if Accounted(w, addr, j) {
        AccountedStays(w, v, addr, j);
      }
    }
  }

  lemma PcsStillCover(w: World, v: World, p: nat, pc: Pc)
    requires Base(w) && Base(v) && Later(w, v) && Whole(w) && PcFrom(v, pc) && PcCovers(v, pc)
    requires v.pcs == w.pcs || (p < |w.pcs| && v.pcs == w.pcs[p := pc])
    ensures forall q :: 0 <= q < |v.pcs| ==> PcCovers(v, v.pcs[q])
  {
    forall q | 0 <= q < |v.pcs| ensures PcCovers(v, v.pcs[q]) {
      if v.pcs[q] == w.pcs[q] && !w.pcs[q].Idle? {
        PageStillCovers(w, v, w.pcs[q].addr, w.pcs[q].upto, w.pcs[q].page);
      }
    }
  }

  lemma BookingStaysOk(w: World, v: World, k: nat)
    requires w.unit > 0 && Later(w, v) && k < |w.booked| && BookingOk(w, k)
    ensures BookingOk(v, k)
  {
    var b := w.booked[k];
    assert v.booked[k] == b && forall l :: 0 <= l < k ==> v.booked[l] == w.booked[l];
    if b.Routed() {
      ClaimStays(w.db, v.db, b.sig);
    } else {
      TakenStays(w.db.ledger, v.db.ledger, UnroutableKey(b.sig));
    }
    if b.ending.WithIntent? {
      assert SameDeposit(w.db.intents[b.ending.id], v.db.intents[b.ending.id]);
    }
  }

  /** Nothing filed, no intent with a deposit opened and no route found missing. */
  lemma ProvenanceStays(w: World, v: World)
    requires w.unit > 0 && Later(w, v) && Provenance(w) && v.booked == w.booked
    requires forall id :: id in v.db.intents && id !in w.db.intents ==> v.db.intents[id].depositRef.None?
    requires NoNewNotes(w.db, v.db)
    ensures Provenance(v)
  {
    forall k | 0 <= k < |v.booked| ensures BookingOk(v, k) {
      BookingStaysOk(w, v, k);
    }
    forall id | id in v.db.intents && v.db.intents[id].depositRef.Some? ensures Booked(v, id) {
      assert Booked(w, id);
    }
  }

  /** No deposit is newly noted as having no route. */
  ghost predicate NoNewNotes(a: Db, b: Db) {
    forall sig :: Taken(b.ledger, UnroutableKey(sig)) ==> Taken(a.ledger, UnroutableKey(sig))
  }

  /** The entry an intent was opened for. */
  lemma WhatItWasOpenedFor(w: World, id: IntentId) returns (b: Booking)
    requires w.unit > 0 && Provenance(w) && id in w.db.intents && w.db.intents[id].depositRef.Some?
    ensures b in w.booked && b.For(id) && OpenedFor(w, w.db.intents[id], b.addr, b.j)
  {
    assert Booked(w, id);
    var k :| 0 <= k < |w.booked| && w.booked[k].For(id);
    assert BookingOk(w, k);
    b := w.booked[k];
  }

  lemma CountGrows(log: seq<Entry>, more: seq<Entry>, sig: Signature)
    requires log <= more && LogOk(more) && CountThrough(log, sig) > 0
    ensures CountThrough(more, sig) == CountThrough(log, sig)
  {
    CountAt(more, CountThrough(log, sig));
  }

  lemma {:induction false} CountAt(log: seq<Entry>, n: nat)
    requires LogOk(log) && 0 < n <= |log|
    ensures CountThrough(log, log[n - 1].sig) == n
  {
    if n < |log| {
      CountAt(log[..|log| - 1], n);
    }
  }

  // ---------------------------------------------------------- table changes

  predicate IntakeRequest(db: Db, req: Request) {
    || BeyondIntake(db, req)
    || (req.intent in db.intents && db.intents[req.intent].depositRef.Some?
        && req == ConfirmRequest(req.intent, db.intents[req.intent].depositRef.value))
  }

  lemma HopKeepsTables(db: Db, req: Request, now: int)
    requires Sound(db) && KeysTell(db) && IntakeRequest(db, req)
    ensures var after := Apply(db, req, now).0;
            && Sound(after) && Extends(db, after) && after.intents.Keys == db.intents.Keys && KeysTell(after)
            && NoNewNotes(db, after)
  {
    ApplyKeepsSound(db, req, now);
    ApplyExtends(db, req, now);
    if req.intent in db.intents {
      HopAppends(db, req, now);
      HopKeepsClaims(db, req, now);
      forall id | id in db.intents ensures ConfirmTells(Apply(db, req, now).0, id) {
        HopKeepsConfirm(db, req, now, id);
      }
    }
  }

  lemma HopAppends(db: Db, req: Request, now: int)
    requires req.intent in db.intents
    ensures var after := Apply(db, req, now).0;
            forall k :: Taken(after.ledger, k) <==>
              Taken(db.ledger, k) || (Apply(db, req, now).1.Applied? && req.key == Some(k))
  {
    AppendRow(db.ledger, IllegalEntry(db.intents[req.intent], req, now));
    AppendRow(db.ledger, HopEntry(db.intents[req.intent], req, now));
  }

  lemma HopKeepsClaims(db: Db, req: Request, now: int)
    requires KeysAreClaimed(db) && IntakeRequest(db, req) && req.intent in db.intents
    ensures KeysAreClaimed(Apply(db, req, now).0)
  {
    var after := Apply(db, req, now).0;
    ApplyExtends(db, req, now);
    HopAppends(db, req, now);
    forall sig | Taken(after.ledger, DepositKey(sig)) || Taken(after.ledger, ConfirmKey(sig))
      ensures DepositClaimed(after.intents, sig)
    {
      if Taken(db.ledger, DepositKey(sig)) || Taken(db.ledger, ConfirmKey(sig)) {
        ClaimStays(db, after, sig);
      } else {
        assert after.intents[req.intent].depositRef == Some(sig);
      }
    }
  }

  lemma HopKeepsConfirm(db: Db, req: Request, now: int, id: IntentId)
    requires OneIntentPerDeposit(db.intents) && IntakeRequest(db, req)
    requires req.intent in db.intents && ConfirmTells(db, req.intent) && id in db.intents && ConfirmTells(db, id)
    ensures ConfirmTells(Apply(db, req, now).0, id)
  {
    HopAppends(db, req, now);
    if id != req.intent && db.intents[id].depositRef.Some? {
      assert db.intents[id].depositRef != db.intents[req.intent].depositRef;
    }
  }

  predicate DepositOpening(db: Db, o: Opening) {
    && o.id !in db.intents
    && o.key == (if o.depositRef.Some? then Some(DepositKey(o.depositRef.value)) else None)
  }

  lemma CreateKeepsTables(db: Db, o: Opening, now: int)
    requires Sound(db) && KeysTell(db) && DepositOpening(db, o)
    ensures var (after, outcome) := Create(db, o, now);
            && Sound(after) && Extends(db, after) && KeysTell(after) && outcome != KeyTaken
            && (outcome.Opened? ==> outcome.id == o.id && o.id in after.intents && SameTerms(after.intents[o.id], o)
                                    && after.intents.Keys == db.intents.Keys + {o.id})
            && (!outcome.Opened? ==> after == db) && NoNewNotes(db, after)
  {
    CreateKeepsSound(db, o, now);
    KeyIsFree(db, o);
    if Create(db, o, now).1.Opened? {
      CreateExtends(db, o, now);
      CreateKeepsKeys(db, o, now);
    }
  }

  lemma KeyIsFree(db: Db, o: Opening)
    requires KeysAreClaimed(db) && DepositOpening(db, o)
    ensures Free(db.ledger, o.key) || DepositClaimed(db.intents, o.depositRef.value)
  {}

  lemma CreateExtends(db: Db, o: Opening, now: int)
    requires o.id !in db.intents && DepositOpening(db, o) && Create(db, o, now).1.Opened?
    ensures var after := Create(db, o, now).0; Extends(db, after) && NoNewNotes(db, after)
  {
    AppendRow(db.ledger, CreatedRow(o.id, o.card, o.amount, o.depositRef, now, o.key));
  }

  lemma CreateKeepsKeys(db: Db, o: Opening, now: int)
    requires KeysTell(db) && DepositOpening(db, o) && Create(db, o, now).1.Opened?
    ensures KeysTell(Create(db, o, now).0)
  {
    var after := Create(db, o, now).0;
    AppendRow(db.ledger, CreatedRow(o.id, o.card, o.amount, o.depositRef, now, o.key));
    forall sig | Taken(after.ledger, DepositKey(sig)) || Taken(after.ledger, ConfirmKey(sig))
      ensures DepositClaimed(after.intents, sig)
    {
      if Taken(db.ledger, DepositKey(sig)) || Taken(db.ledger, ConfirmKey(sig)) {
        ClaimStays(db, after, sig);
      } else {
        assert after.intents[o.id].depositRef == Some(sig);
      }
    }
    forall id | id in after.intents ensures ConfirmTells(after, id) {
      assert id != o.id ==> after.intents[id] == db.intents[id] && ConfirmTells(db, id);
    }
  }

  predicate SameTerms(i: Intent, o: Opening) {
    i.depositRef == o.depositRef && i.card == o.card && i.amount == o.amount
  }

  lemma NoteKeepsTables(db: Db, key: Key)
    requires Sound(db) && KeysTell(db) && !key.DepositKey? && !key.ConfirmKey?
    ensures var after := Note(db, key);
            && Sound(after) && Extends(db, after) && KeysTell(after) && after.intents == db.intents
            && Taken(after.ledger, key)
  {
    NoteKeepsSound(db, key);
    AppendRow(db.ledger, NoteRow(Some(key)));
  }

  lemma NoteTakesOnly(db: Db, key: Key)
    ensures forall k :: Taken(Note(db, key).ledger, k) <==> Taken(db.ledger, k) || k == key
  {
    AppendRow(db.ledger, NoteRow(Some(key)));
  }

  // ------------------------------------------------------------------ filing

  /** What filing one deposit does to the tables, whichever way it goes. */
  ghost predicate Filed(db: Db, after: Db, route: Option<Card>, currency: string, d: Deposit, newId: IntentId) {
    && Sound(after) && KeysTell(after) && Extends(db, after)
    && (DepositClaimed(after.intents, d.sig) || Taken(after.ledger, UnroutableKey(d.sig)))
    && (after.intents.Keys == db.intents.Keys
        || (&& after.intents.Keys == db.intents.Keys + {newId} && route.Some?
            && SameTerms(after.intents[newId], OpeningFor(route.value, currency, d, newId))))
  }

  lemma OpeningFiles(db: Db, card: Card, currency: string, d: Deposit, newId: IntentId, now: int)
    requires Sound(db) && KeysTell(db) && newId !in db.intents && d.minor > 0
    ensures var (after, outcome) := Create(db, OpeningFor(card, currency, d, newId), now);
            && (outcome.Opened? || outcome.DepositTaken?)
            && (outcome.Opened? ==> Filed(db, after, Some(card), currency, d, newId))
            && (outcome.DepositTaken? ==> Filed(db, Note(after, DuplicateKey(d.sig)), Some(card), currency, d, newId))
  {
    var (after, outcome) := Create(db, OpeningFor(card, currency, d, newId), now);
    CreateKeepsTables(db, OpeningFor(card, currency, d, newId), now);
    if outcome.Opened? {
      assert after.intents[newId].depositRef == Some(d.sig);
    } else {
      NoteKeepsTables(db, DuplicateKey(d.sig));
    }
  }

  lemma RoutedFiling(db: Db, card: Card, currency: string, d: Deposit, newId: IntentId, now: int)
    requires Sound(db) && KeysTell(db) && newId !in db.intents && d.minor > 0
    ensures var (after, filing) := File(db, Some(card), currency, d, newId, now);
            && Filed(db, after, Some(card), currency, d, newId) && !filing.Raised?
            && (filing.NewIntent? ==> newId in after.intents && after.intents[newId].depositRef == Some(d.sig))
            && (!filing.NewIntent? ==> after.intents == db.intents)
  {
    var (after, outcome) := Create(db, OpeningFor(card, currency, d, newId), now);
    OpeningFiles(db, card, currency, d, newId, now);
    if outcome.Opened? {
      assert File(db, Some(card), currency, d, newId, now) == (after, NewIntent);
    } else {
      assert after == db && File(db, Some(card), currency, d, newId, now) == (Note(db, DuplicateKey(d.sig)), Duplicate);
    }
  }

  /** Filing never raises: the deposit's own key cannot be taken while the deposit is not. */
  lemma FileNeverRaises(db: Db, route: Option<Card>, currency: string, d: Deposit, newId: IntentId, now: int)
    requires Sound(db) && KeysTell(db) && newId !in db.intents && d.minor > 0
    ensures var (after, filing) := File(db, route, currency, d, newId, now);
            && Filed(db, after, route, currency, d, newId) && !filing.Raised?
            && (filing.NewIntent? ==> newId in after.intents && after.intents[newId].depositRef == Some(d.sig))
            && (!filing.NewIntent? ==> after.intents == db.intents)
  {
    if route.Some? {
      RoutedFiling(db, route.value, currency, d, newId, now);
    } else {
      NotingFiles(db, currency, d, newId);
    }
  }

  lemma NotingFiles(db: Db, currency: string, d: Deposit, newId: IntentId)
    requires Sound(db) && KeysTell(db)
    ensures Filed(db, Note(db, UnroutableKey(d.sig)), None, currency, d, newId)
    ensures Note(db, UnroutableKey(d.sig)).intents == db.intents
  {
    NoteKeepsTables(db, UnroutableKey(d.sig));
  }

  /** Which of the three it is, is decided by the route and the signature alone. */
  lemma FilingTells(db: Db, route: Option<Card>, currency: string, d: Deposit, newId: IntentId, now: int)
    requires Sound(db) && KeysTell(db) && newId !in db.intents && d.minor > 0
    ensures File(db, route, currency, d, newId, now).1
            == if route.None? then Unroutable
               else if DepositClaimed(db.intents, d.sig) then Duplicate
               else NewIntent
  {
    FileNeverRaises(db, route, currency, d, newId, now);
  }

  /** A missing route is noted when there is none, and nothing else is said to lack one. */
  lemma FilingNotes(db: Db, route: Option<Card>, currency: string, d: Deposit, newId: IntentId, now: int)
    requires Sound(db) && KeysTell(db) && newId !in db.intents && d.minor > 0
    ensures forall sig :: Taken(File(db, route, currency, d, newId, now).0.ledger, UnroutableKey(sig)) <==>
              Taken(db.ledger, UnroutableKey(sig)) || (sig == d.sig && route.None?)
  {
    var after := File(db, route, currency, d, newId, now).0;
    FileNeverRaises(db, route, currency, d, newId, now);
    if route.None? {
      NoteTakesOnly(db, UnroutableKey(d.sig));
    } else {
      NoteTakesOnly(db, DuplicateKey(d.sig));
      CreateKeepsTables(db, OpeningFor(route.value, currency, d, newId), now);
      forall sig | Taken(db.ledger, UnroutableKey(sig)) ensures Taken(after.ledger, UnroutableKey(sig)) {
        TakenStays(db.ledger, after.ledger, UnroutableKey(sig));
      }
    }
  }
}
