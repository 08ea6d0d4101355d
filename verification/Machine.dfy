/** The funding machine: the only writer of intents. Every change of state is one
    ledger row, committed together with the change it describes. */
module Machine {
  import opened Basics
  import opened FundingStates
  import opened Ledger

  datatype Db = Db(intents: map<IntentId, Intent>, ledger: seq<Row>)

  const EMPTY := Db(map[], [])

  /** One call of `advance`. */
  datatype Request = Request(
    intent: IntentId, to: State, reason: Option<string>, updates: Updates, key: Option<Key>)

  datatype Outcome =
    | Applied(intent: Intent)
    | Replayed(intent: Intent)      // the key was already in the ledger
    | Collapsed(intent: Intent)     // the key was taken between look-up and commit
    | IllegalTransition(frm: State, to: State)
    | NotFound
    | Opened(id: IntentId)
    | NotPositive
    | DepositTaken                  // unique violation on the deposit reference
    | KeyTaken                      // unique violation on the ledger key
  {
    /** The call returned an intent to its caller rather than raising. */
    predicate Returned() { Applied? || Replayed? || Collapsed? }
  }

  predicate DepositClaimed(intents: map<IntentId, Intent>, sig: Signature) {
    exists id :: id in intents && intents[id].depositRef == Some(sig)
  }

  ghost predicate OneIntentPerDeposit(intents: map<IntentId, Intent>) {
    forall a, b :: a in intents && b in intents && a != b && intents[a].depositRef.Some? ==>
      intents[a].depositRef != intents[b].depositRef
  }

  /** The deposit reference is set when an intent is opened and by no hop after it. */
  predicate KeepsDeposit(req: Request) {
    req.updates.depositRef == None
  }

  /** The row an intent becomes when it makes one legal hop. */
  function Hopped(i: Intent, req: Request, now: int): Intent {
    var retry := req.to == i.state;
    i.(state := req.to,
       changedAt := now,
       retryCount := i.retryCount + if retry then 1 else 0,
       lastError := if req.reason.Some? && (retry || req.to.IsFailure()) then req.reason else i.lastError,
       depositRef := req.updates.depositRef.Or(i.depositRef),
       bridgeRef := req.updates.bridgeRef.Or(i.bridgeRef),
       issuerRef := req.updates.issuerRef.Or(i.issuerRef),
       bridged := req.updates.bridged.Or(i.bridged))
  }

  function HopEntry(i: Intent, req: Request, now: int): Row {
    HopRow(req.intent, i.state, req.to, req.to == i.state, i.amount, req.reason, req.updates,
           Hopped(i, req, now).retryCount, now, req.key)
  }

  function IllegalEntry(i: Intent, req: Request, now: int): Row {
    IllegalRow(req.intent, i.state, req.to, i.amount, req.reason, now, None)
  }

  /** `advance` from the row lock onwards: the key was not in the ledger when asked. */
  function Apply(db: Db, req: Request, now: int): (Db, Outcome) {
    if req.intent !in db.intents then (db, NotFound)
    else
      var i := db.intents[req.intent];
      if !Legal(i.state, req.to) then
        (db.(ledger := db.ledger + [IllegalEntry(i, req, now)]), IllegalTransition(i.state, req.to))
      else if !Free(db.ledger, req.key) then (db, Collapsed(i))
      else
        (Db(db.intents[req.intent := Hopped(i, req, now)], db.ledger + [HopEntry(i, req, now)]),
         Applied(Hopped(i, req, now)))
  }

  /** `advance` when the look-up finds the key. */
  function Replay(db: Db, req: Request): Outcome {
    if req.intent in db.intents then Replayed(db.intents[req.intent]) else NotFound
  }

  /** `advance` with nobody else in between. */
  function Advance(db: Db, req: Request, now: int): (Db, Outcome) {
    if !Free(db.ledger, req.key) then (db, Replay(db, req)) else Apply(db, req, now)
  }

  /** A look-up can only hit a key that is there. */
  predicate MayHit(db: Db, req: Request, hit: bool) {
    hit ==> req.key.Some? && Taken(db.ledger, req.key.value)
  }

  /** `advance` among others: a look-up that hits changes nothing, a miss goes on to the lock. */
  function Hop(db: Db, req: Request, now: int, hit: bool): (Db, Outcome) {
    if hit then (db, Replay(db, req)) else Apply(db, req, now)
  }

  datatype Opening = Opening(
    id: IntentId, card: Card, amount: Money, depositRef: Option<Signature>, key: Option<Key>)

  /** `create_intent`; `o.id` is the freshly drawn UUID. */
  function Create(db: Db, o: Opening, now: int): (Db, Outcome)
    requires o.id !in db.intents
  {
    if o.amount.minor <= 0 then (db, NotPositive)
    else if o.depositRef.Some? && DepositClaimed(db.intents, o.depositRef.value) then (db, DepositTaken)
    else if !Free(db.ledger, o.key) then (db, KeyTaken)
    else
      (Db(db.intents[o.id := Intent(Pending, o.card, o.amount, None, o.depositRef, None, None, 0, None, now)],
          db.ledger + [CreatedRow(o.id, o.card, o.amount, o.depositRef, now, o.key)]),
       Opened(o.id))
  }

  /** A keyed ledger entry that changes no intent, written at most once. */
  function Note(db: Db, key: Key): Db {
    if Taken(db.ledger, key) then db else db.(ledger := db.ledger + [NoteRow(Some(key))])
  }

  // --------------------------------------------------------------- invariant

  /** What every commit keeps: the intents table is exactly what the ledger rebuilds. */
  ghost predicate Sound(db: Db) {
    && UniqueKeys(db.ledger)
    && Lawful(db.ledger)
    && Rebuild(db.ledger) == db.intents
    && OneIntentPerDeposit(db.intents)
    && (forall id :: id in db.intents ==> db.intents[id].amount.minor > 0)
    && DepositsStand(db.ledger)
  }

  /** No hop on record names a deposit: the row that opened an intent says which it is for. */
  ghost predicate DepositsStand(rows: seq<Row>) {
    forall k :: 0 <= k < |rows| && rows[k].HopRow? ==> rows[k].updates.depositRef.None?
  }

  lemma EmptyIsSound()
    ensures Sound(EMPTY)
  {}

  lemma HopIsLawful(db: Db, req: Request, now: int)
    requires Rebuild(db.ledger) == db.intents && req.intent in db.intents
    ensures var i := db.intents[req.intent];
            if Legal(i.state, req.to) then
              && RowLawful(db.intents, HopEntry(i, req, now))
              && ReplayRow(db.intents, HopEntry(i, req, now)) == db.intents[req.intent := Hopped(i, req, now)]
            else
              && RowLawful(db.intents, IllegalEntry(i, req, now))
              && ReplayRow(db.intents, IllegalEntry(i, req, now)) == db.intents
  {}

  lemma ApplyKeepsSound(db: Db, req: Request, now: int)
    requires Sound(db) && KeepsDeposit(req)
    ensures Sound(Apply(db, req, now).0)
  {
    if req.intent in db.intents {
      var i := db.intents[req.intent];
      HopIsLawful(db, req, now);
      if !Legal(i.state, req.to) {
        AppendRow(db.ledger, IllegalEntry(i, req, now));
      } else {
        AppendRow(db.ledger, HopEntry(i, req, now));
      }
    }
  }

  lemma CreateKeepsSound(db: Db, o: Opening, now: int)
    requires Sound(db) && o.id !in db.intents
    ensures Sound(Create(db, o, now).0)
  {
    AppendRow(db.ledger, CreatedRow(o.id, o.card, o.amount, o.depositRef, now, o.key));
  }

  lemma NoteKeepsSound(db: Db, key: Key)
    requires Sound(db)
    ensures Sound(Note(db, key))
  {
    AppendRow(db.ledger, NoteRow(Some(key)));
  }

  /** The ledger tells an intent's whole story: one contiguous legal path from Pending to
      where it is, with as many retried rows as its retry count. */
  lemma HistoryEndsAtState(db: Db, id: IntentId)
    requires Sound(db)
    ensures LegalPath(Path(db.ledger, id))
    ensures id in db.intents <==> Path(db.ledger, id) != []
    ensures id in db.intents ==>
      var p := Path(db.ledger, id);
      p[|p| - 1] == db.intents[id].state && Retries(db.ledger, id) == db.intents[id].retryCount
  {
    LedgerTellsThePath(db.ledger, id);
  }

  /** Settled appears at most once in an intent's history, as its last state, right after Funded. */
  lemma SettledOnceAfterFunded(db: Db, id: IntentId, k: nat)
    requires Sound(db) && k < |Path(db.ledger, id)| && Path(db.ledger, id)[k] == Settled
    ensures k == |Path(db.ledger, id)| - 1 && k > 0 && Path(db.ledger, id)[k - 1] == Funded
    ensures forall j :: 0 <= j < k ==> Path(db.ledger, id)[j] != Settled
  {
    var p := Path(db.ledger, id);
    LedgerTellsThePath(db.ledger, id);
    assert k < |p| - 1 ==> Legal(p[k], p[k + 1]);
    assert k > 0 ==> Legal(p[k - 1], p[k]);
    forall j | 0 <= j < k ensures p[j] != Settled {
      assert Legal(p[j], p[j + 1]);
    }
  }

  // ------------------------------------------------------- racing duplicates

  /** Two callers with one key both find it missing. The second collapses to a no-op exactly
      when the state the first one entered may be retried; otherwise it is recorded and raised
      as an illegal hop. Either way the intent is untouched. */
  lemma RacedDuplicate(db: Db, req: Request, now: int, later: int)
    requires Sound(db) && req.key.Some? && Apply(db, req, now).1.Applied?
    ensures
      var won := Apply(db, req, now).0;
      var (after, outcome) := Apply(won, req, later);
      && after.intents == won.intents
      && (outcome.Collapsed? <==> Retryable(req.to))
      && (outcome.IllegalTransition? <==> !Retryable(req.to))
      && (outcome.Collapsed? ==> after == won)
      && (outcome.IllegalTransition? ==> |after.ledger| == |won.ledger| + 1)
    ensures Advance(Apply(db, req, now).0, req, later).0 == Apply(db, req, now).0
    ensures Advance(Apply(db, req, now).0, req, later).1.Replayed?
  {
    AppendRow(db.ledger, HopEntry(db.intents[req.intent], req, now));
  }

  // ------------------------------------------------------------------ frames

  /** What no call of `advance` can touch, and what none can undo. */
  ghost predicate Extends(before: Db, after: Db) {
    && before.intents.Keys <= after.intents.Keys
    && (forall id :: id in before.intents ==> SameDeposit(before.intents[id], after.intents[id]))
    && before.ledger <= after.ledger
  }

  predicate SameDeposit(a: Intent, b: Intent) {
    && a.card == b.card && a.amount == b.amount && a.depositRef == b.depositRef
    && a.retryCount <= b.retryCount
    && NoEarlier(b.state, a.state)
  }

  lemma TakenStays(before: seq<Row>, after: seq<Row>, key: Key)
    requires before <= after && Taken(before, key)
    ensures Taken(after, key)
  {
    var r :| r in before && r.key == Some(key);
    assert r in after;
  }

  lemma ApplyExtends(db: Db, req: Request, now: int)
    requires KeepsDeposit(req)
    ensures Extends(db, Apply(db, req, now).0)
  {
    if req.intent in db.intents && Legal(db.intents[req.intent].state, req.to) {
      HopDescends(db.intents[req.intent].state, req.to);
    }
  }
}
