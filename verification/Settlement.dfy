/** Settling a funded intent from a provider's event, however often the event arrives. */
module Settlement {
  import opened Basics
  import opened FundingStates
  import opened Ledger
  import opened Machine
  import opened Engine
  import FundingStore

  /** What a settlement event says of whose money it was. */
  datatype FundingRef = NoRef | Malformed | Names(id: IntentId)

  datatype Handled = Unattributed | SettledBy(id: IntentId) | Raises

  function SettleRequest(id: IntentId): Request {
    Request(id, Settled, None, NO_UPDATES, Some(HopKey(id, Settled)))
  }

  function Settle(db: Db, ref: FundingRef, now: int): (Db, Handled) {
    if !ref.Names? || ref.id !in db.intents then (db, Unattributed)
    else if db.intents[ref.id].state == Settled then (db, SettledBy(ref.id))
    else
      var (after, outcome) := Advance(db, SettleRequest(ref.id), now);
      (after, if outcome.Returned() then SettledBy(ref.id) else Raises)
  }

  method SettleFromEvent(store: FundingStore.Store, ref: FundingRef, now: int) returns (r: Handled)
    modifies store
    ensures (store.State(), r) == Settle(old(store.State()), ref, now)
    ensures old(Sound(store.State())) ==> Sound(store.State())
  {
    if ref.NoRef? {
      return Unattributed;
    }
    if ref.Malformed? {
      return Unattributed;
    }
    if ref.id !in store.intents {
      return Unattributed;
    }
    if store.intents[ref.id].state == Settled {
      return SettledBy(ref.id);
    }
    var outcome := store.AdvanceIntent(SettleRequest(ref.id), now);
    r := if outcome.Returned() then SettledBy(ref.id) else Raises;
  }

  /** An event settles its intent exactly when the intent is funded; for one already settled it
      changes nothing, and anywhere else it is refused, on record, without moving the intent. */
  lemma SettlesExactlyTheFunded(db: Db, id: IntentId, now: int)
    requires KeysPast(db) && id in db.intents
    ensures var (after, r) := Settle(db, Names(id), now); var frm, to := db.intents[id].state, after.intents[id].state;
            && (to != frm <==> frm == Funded) && (frm == Funded ==> to == Settled)
            && (r.Raises? <==> frm != Funded && frm != Settled)
            && (frm == Settled ==> after == db)
            && (r.Raises? ==> after.intents == db.intents && |after.ledger| == |db.ledger| + 1)
  {
    if db.intents[id].state != Settled && Taken(db.ledger, HopKey(id, Settled)) {
      assert false;
    }
  }

  /** Two deliveries that both saw the intent funded: the second finds the first's key and changes
      nothing, where without it it would be an illegal hop out of a settled intent. */
  lemma RacingEventsSettleOnce(db: Db, id: IntentId, now: int, later: int)
    requires KeysPast(db) && id in db.intents && db.intents[id].state == Funded
    ensures var (first, one) := Settle(db, Names(id), now);
            var (second, two) := Advance(first, SettleRequest(id), later);
            && one == SettledBy(id) && second == first && two.Returned() && two.intent == first.intents[id]
            && Taken(first.ledger, HopKey(id, Settled))
            && Advance(first, SettleRequest(id).(key := None), later).1 == IllegalTransition(Settled, Settled)
  {
    AppendRow(db.ledger, HopEntry(db.intents[id], SettleRequest(id), now));
    assert !Taken(db.ledger, HopKey(id, Settled));
  }

  lemma SettleKeeps(db: Db, ref: FundingRef, now: int)
    requires Sound(db) && KeysPast(db)
    ensures var after := Settle(db, ref, now).0; Sound(after) && KeysPast(after) && Extends(db, after)
  {
    if ref.Names? && ref.id in db.intents && db.intents[ref.id].state != Settled {
      ApplyKeepsSound(db, SettleRequest(ref.id), now);
      HopKeepsKeysPast(db, SettleRequest(ref.id), now);
      ApplyExtends(db, SettleRequest(ref.id), now);
    }
  }

  /** One thing that happens to the tables: a settlement event, or any other hop. */
  datatype Happening = Event(ref: FundingRef, now: int) | Hop(req: Request, now: int)

  predicate Allowed(h: Happening) {
    h.Hop? ==> KeepsDeposit(h.req) && (h.req.key.Some? && h.req.key.value.HopKey? ==>
                 h.req.key == Some(HopKey(h.req.intent, h.req.to)))
  }

  function Happens(db: Db, h: Happening): Db {
    match h
    case Event(ref, now) => Settle(db, ref, now).0
    case Hop(req, now) => Apply(db, req, now).0
  }

  function AllHappen(db: Db, hs: seq<Happening>): Db
    decreases |hs|
  {
    if hs == [] then db else AllHappen(Happens(db, hs[0]), hs[1..])
  }

  lemma {:induction false} StreamKeeps(db: Db, hs: seq<Happening>)
    requires Sound(db) && KeysPast(db) && forall h :: h in hs ==> Allowed(h)
    ensures Sound(AllHappen(db, hs)) && KeysPast(AllHappen(db, hs))
    decreases |hs|
  {
    if hs != [] {
      var h := hs[0];
      assert h in hs && forall g :: g in hs[1..] ==> g in hs;
      match h {
        case Event(ref, now) => SettleKeeps(db, ref, now);
        case Hop(req, now) =>
          ApplyKeepsSound(db, req, now);
          HopKeepsKeysPast(db, req, now);
      }
      StreamKeeps(Happens(db, h), hs[1..]);
    }
  }

  function SettledRows(rows: seq<Row>, id: IntentId): nat {
    if rows == [] then 0
    else
      var last := rows[|rows| - 1];
      SettledRows(rows[..|rows| - 1], id) + if last.HopRow? && last.intent == id && last.after == Settled then 1 else 0
  }

  lemma {:induction false} SettledRowsOnPath(rows: seq<Row>, id: IntentId)
    requires Lawful(rows)
    ensures SettledRows(rows, id)
            == (if id in Rebuild(rows) && Rebuild(rows)[id].state == Settled then 1 else 0)
    ensures SettledRows(rows, id) == 1 ==>
              var p := Path(rows, id); |p| > 1 && p[|p| - 1] == Settled && p[|p| - 2] == Funded
  {
    if rows != [] {
      var front, last := rows[..|rows| - 1], rows[|rows| - 1];
      SettledRowsOnPath(front, id);
      LedgerTellsThePath(front, id);
    }
  }

  /** Whatever duplicated, early and retried settlements arrive among whatever else happens, an
      intent has at most one settled row, has it exactly when it is settled, and was funded
      just before. */
  lemma SettledAtMostOnce(db: Db, hs: seq<Happening>, id: IntentId)
    requires Sound(db) && KeysPast(db) && forall h :: h in hs ==> Allowed(h)
    ensures var after := AllHappen(db, hs);
            && SettledRows(after.ledger, id) <= 1
            && (SettledRows(after.ledger, id) == 1 <==> id in after.intents && after.intents[id].state == Settled)
            && (SettledRows(after.ledger, id) == 1 ==>
                  var p := Path(after.ledger, id); |p| > 1 && p[|p| - 1] == Settled && p[|p| - 2] == Funded)
  {
    StreamKeeps(db, hs);
    SettledRowsOnPath(AllHappen(db, hs).ledger, id);
  }
}
