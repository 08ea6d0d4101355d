/** The session-level form of the funding machine: rows are changed in place, then
    committed with their ledger entry or rolled back. */
module FundingStore {
  import opened Basics
  import opened FundingStates
  import opened Ledger
  import opened Machine

  class Store {
    var intents: map<IntentId, Intent>
    var ledger: seq<Row>

    function State(): (db: Db)
      reads this
    {
      Db(intents, ledger)
    }

    constructor ()
      ensures State() == EMPTY
    {
      intents, ledger := map[], [];
    }

    /** Append one entry unless its key violates the unique index. */
    method Record(row: Row) returns (ok: bool)
      modifies this`ledger
      ensures ok == Free(old(ledger), row.key)
      ensures ledger == if ok then old(ledger) + [row] else old(ledger)
    {
      ok := Free(ledger, row.key);
      if ok {
        ledger := ledger + [row];
      }
    }

    method CreateIntent(o: Opening, now: int) returns (outcome: Outcome)
      requires o.id !in intents
      modifies this
      ensures (State(), outcome) == Create(old(State()), o, now)
      ensures old(Sound(State())) ==> Sound(State())
    {
      ghost var start := State();
      if o.amount.minor <= 0 {
        return NotPositive;
      }
      if o.depositRef.Some? && DepositClaimed(intents, o.depositRef.value) {
        return DepositTaken;
      }
      var saved := intents;
      intents := intents[o.id := Intent(Pending, o.card, o.amount, None, o.depositRef, None, None, 0, None, now)];
      var recorded := Record(CreatedRow(o.id, o.card, o.amount, o.depositRef, now, o.key));
      if !recorded {
        intents := saved;
        return KeyTaken;
      }
      if Sound(start) {
        CreateKeepsSound(start, o, now);
      }
      outcome := Opened(o.id);
    }

    /** `advance` as one caller sees it when nobody comes between look-up and lock. */
    method AdvanceIntent(req: Request, now: int) returns (outcome: Outcome)
      modifies this
      ensures (State(), outcome) == Advance(old(State()), req, now)
      ensures old(Sound(State())) && KeepsDeposit(req) ==> Sound(State())
    {
      if req.key.Some? && Taken(ledger, req.key.value) {
        return Replay(State(), req);
      }
      outcome := AdvanceLocked(req, now);
    }

    /** `advance` from the row lock onwards; the key may have been taken since it was looked up. */
    method AdvanceLocked(req: Request, now: int) returns (outcome: Outcome)
      modifies this
      ensures (State(), outcome) == Apply(old(State()), req, now)
      ensures old(Sound(State())) && KeepsDeposit(req) ==> Sound(State())
    {
      ghost var start := State();
      if Sound(start) && KeepsDeposit(req) {
        ApplyKeepsSound(start, req, now);
      }
      if req.intent !in intents {
        return NotFound;
      }
      var frm := intents[req.intent].state;
      if req.to !in Targets(frm) {
        var _ := Record(IllegalEntry(intents[req.intent], req, now));
        return IllegalTransition(frm, req.to);
      }
      var saved := intents;
      SetRow(req.intent, intents[req.intent].(state := req.to, changedAt := now));
      if req.to == frm {
        SetRow(req.intent, intents[req.intent].(retryCount := intents[req.intent].retryCount + 1));
      }
      if req.reason.Some? && (req.to == frm || req.to.IsFailure()) {
        SetRow(req.intent, intents[req.intent].(lastError := req.reason));
      }
      ApplyUpdates(req.intent, req.updates);
      assert intents == saved[req.intent := Hopped(saved[req.intent], req, now)];
      var recorded := Record(HopEntry(saved[req.intent], req, now));
      if !recorded {
        intents := saved;
        return Collapsed(intents[req.intent]);
      }
      outcome := Applied(intents[req.intent]);
    }

    method SetRow(id: IntentId, changed: Intent)
      modifies this`intents
      ensures intents == old(intents)[id := changed]
    {
      intents := intents[id := changed];
    }

    method ApplyUpdates(id: IntentId, u: Updates)
      requires id in intents
      modifies this`intents
      ensures
        var i := old(intents)[id];
        intents == old(intents)[id := i.(
          depositRef := u.depositRef.Or(i.depositRef), bridgeRef := u.bridgeRef.Or(i.bridgeRef),
          issuerRef := u.issuerRef.Or(i.issuerRef), bridged := u.bridged.Or(i.bridged))]
    {
      var i := intents[id];
      if u.depositRef.Some? { i := i.(depositRef := u.depositRef); }
      if u.bridgeRef.Some? { i := i.(bridgeRef := u.bridgeRef); }
      if u.issuerRef.Some? { i := i.(issuerRef := u.issuerRef); }
      if u.bridged.Some? { i := i.(bridged := u.bridged); }
      intents := intents[id := i];
    }
  }
}
