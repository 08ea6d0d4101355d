/** Many callers inside `advance` at once: key look-up, row lock, commit or rollback, and a
    crash at any point. Every run is a run of whole, indivisible hops. */
module Interleaving {
  import opened Basics
  import opened FundingStates
  import opened Ledger
  import opened Machine

  type Pid = nat

  /** `row` is the caller's own uncommitted copy of the intent, changed field by field. */
  datatype Call =
    | Began(req: Request)                                              // about to look the key up
    | Missed(req: Request)                                             // no such key, then
    | Holding(req: Request, seen: Intent)                              // row locked and read
    | Working(req: Request, seen: Intent, row: Intent, at: int)        // row changed, nothing inserted
    | Inserted(req: Request, seen: Intent, row: Intent, at: int)       // ledger row in, not committed
  {
    predicate Locked() { Holding? || Working? || Inserted? }
  }

  /** `locks` says who holds which intent's row lock. */
  datatype World = World(db: Db, calls: map<Pid, Call>, locks: map<IntentId, Pid>)

  datatype Step =
    | Begin(p: Pid, req: Request)
    | LookUp(p: Pid)
    | Lock(p: Pid)
    | Refuse(p: Pid, now: int)
    | Change(p: Pid, now: int)
    | Insert(p: Pid)
    | Commit(p: Pid)
    | Crash(p: Pid)
    | OpenIntent(o: Opening, at: int)
    | Annotate(key: Key)

  /** An uncommitted row already holds the key: whoever inserts it next waits. */
  predicate Reserved(calls: map<Pid, Call>, key: Option<Key>) {
    key.Some? && exists p :: p in calls && calls[p].Inserted? && calls[p].req.key == key
  }

  predicate Can(w: World, s: Step) {
    match s
    case Begin(p, req) => p !in w.calls && KeepsDeposit(req)
    case LookUp(p) => p in w.calls && w.calls[p].Began?
    case Lock(p) => p in w.calls && w.calls[p].Missed? && w.calls[p].req.intent !in w.locks
    case Refuse(p, _) => p in w.calls && w.calls[p].Holding? && !Legal(w.calls[p].seen.state, w.calls[p].req.to)
    case Change(p, _) => p in w.calls && w.calls[p].Holding? && Legal(w.calls[p].seen.state, w.calls[p].req.to)
    case Insert(p) => p in w.calls && w.calls[p].Working? && !Reserved(w.calls, w.calls[p].req.key)
    case Commit(p) => p in w.calls && w.calls[p].Inserted?
    case Crash(p) => p in w.calls
    case OpenIntent(o, _) => o.id !in w.db.intents && !Reserved(w.calls, o.key)
    case Annotate(key) => !Reserved(w.calls, Some(key))
  }

  function Unlock(locks: map<IntentId, Pid>, p: Pid): map<IntentId, Pid> {
    map id | id in locks && locks[id] != p :: locks[id]
  }

  /** The call is over; whatever it had not committed is gone. */
  function Leave(w: World, p: Pid): World {
    w.(calls := w.calls - {p}, locks := Unlock(w.locks, p))
  }

  function Do(w: World, s: Step): World
    requires Can(w, s)
  {
    match s
    case Begin(p, req) => w.(calls := w.calls[p := Began(req)])
    case LookUp(p) =>
      var req := w.calls[p].req;
      if Free(w.db.ledger, req.key) then w.(calls := w.calls[p := Missed(req)]) else Leave(w, p)
    case Lock(p) =>
      var req := w.calls[p].req;
      if req.intent !in w.db.intents then Leave(w, p)
      else w.(calls := w.calls[p := Holding(req, w.db.intents[req.intent])], locks := w.locks[req.intent := p])
    case Refuse(p, now) =>
      var c := w.calls[p];
      Leave(w.(db := w.db.(ledger := w.db.ledger + [IllegalEntry(c.seen, c.req, now)])), p)
    case Change(p, now) =>
      var c := w.calls[p];
      w.(calls := w.calls[p := Working(c.req, c.seen, Hopped(c.seen, c.req, now), now)])
    case Insert(p) =>
      var c := w.calls[p];
      if Free(w.db.ledger, c.req.key) then w.(calls := w.calls[p := Inserted(c.req, c.seen, c.row, c.at)])
      else Leave(w, p)
    case Commit(p) =>
      var c := w.calls[p];
      Leave(w.(db := Db(w.db.intents[c.req.intent := c.row], w.db.ledger + [HopEntry(c.seen, c.req, c.at)])), p)
    case Crash(p) => Leave(w, p)
    case OpenIntent(o, at) => w.(db := Create(w.db, o, at).0)
    case Annotate(key) => w.(db := Note(w.db, key))
  }

  /** The key an uncommitted row holds. */
  function KeyIn(c: Call): Option<Key> {
    if c.Inserted? then c.req.key else None
  }

  predicate CallOk(w: World, p: Pid)
    requires p in w.calls
  {
    var c := w.calls[p];
    && KeepsDeposit(c.req)
    && (c.Locked() ==>
          && c.req.intent in w.locks && w.locks[c.req.intent] == p
          && c.req.intent in w.db.intents && w.db.intents[c.req.intent] == c.seen)
    && (c.Working? || c.Inserted? ==> Legal(c.seen.state, c.req.to) && c.row == Hopped(c.seen, c.req, c.at))
    && (c.Inserted? ==> Free(w.db.ledger, c.req.key))
  }

  /** A held row is locked by its holder and has not changed since it was read; a key that is
      in but uncommitted is in once. */
  ghost predicate CallsOk(w: World) {
    && (forall p :: p in w.calls ==> CallOk(w, p))
    && forall p, q :: p in w.calls && q in w.calls && p != q && KeyIn(w.calls[p]).Some? ==>
         KeyIn(w.calls[p]) != KeyIn(w.calls[q])
  }

  ghost predicate Inv(w: World) {
    Sound(w.db) && CallsOk(w)
  }

  // -------------------------------------------------------------- refinement

  datatype Whole =
    | Nothing
    | Hop(req: Request, now: int)
    | Open(o: Opening, now: int)
    | Mark(key: Key)

  /** The one indivisible operation a step performs on the tables. */
  function Meaning(w: World, s: Step): Whole
    requires Can(w, s)
  {
    match s
    case Refuse(p, now) => Hop(w.calls[p].req, now)
    case Insert(p) => if Free(w.db.ledger, w.calls[p].req.key) then Nothing else Hop(w.calls[p].req, w.calls[p].at)
    case Commit(p) => Hop(w.calls[p].req, w.calls[p].at)
    case OpenIntent(o, at) => Open(o, at)
    case Annotate(key) => Mark(key)
    case _ => Nothing
  }

  predicate Possible(db: Db, op: Whole) {
    op.Open? ==> op.o.id !in db.intents
  }

  function Perform(db: Db, op: Whole): Db
    requires Possible(db, op)
  {
    match op
    case Nothing => db
    case Hop(req, now) => Apply(db, req, now).0
    case Open(o, now) => Create(db, o, now).0
    case Mark(key) => Note(db, key)
  }

  /** Committing what was read, changed and inserted under the lock is one indivisible hop. */
  lemma StepRefines(w: World, s: Step)
    requires CallsOk(w) && Can(w, s)
    ensures Possible(w.db, Meaning(w, s))
    ensures Do(w, s).db == Perform(w.db, Meaning(w, s))
  {
    if s.Refuse? || s.Insert? || s.Commit? {
      assert CallOk(w, s.p);
    }
  }

  /** The retry of a caller that lost the race on its key: its own copy of the row already
      counted one more, and none of it remains. */
  lemma BumpIsRolledBack(w: World, p: Pid)
    requires Inv(w) && Can(w, Insert(p)) && !Free(w.db.ledger, w.calls[p].req.key)
    requires w.calls[p].req.to == w.calls[p].seen.state
    ensures var id, v := w.calls[p].req.intent, Do(w, Insert(p));
            && id in w.db.intents && w.calls[p].row.retryCount == w.db.intents[id].retryCount + 1
            && v.db == w.db && p !in v.calls && (id in v.locks ==> v.locks[id] != p)
  {
    assert CallOk(w, p);
  }

  lemma StepKeepsSound(w: World, s: Step)
    requires Inv(w) && Can(w, s)
    ensures Sound(Do(w, s).db)
  {
    StepRefines(w, s);
    match Meaning(w, s)
    case Hop(req, now) =>
      assert CallOk(w, s.p);
      ApplyKeepsSound(w.db, req, now);
    case Open(o, now) => CreateKeepsSound(w.db, o, now);
    case Mark(key) => NoteKeepsSound(w.db, key);
    case Nothing =>
  }

  /** What a step puts in the ledger: nothing, or one row under a key nobody else has in. */
  lemma StepAppends(w: World, s: Step, q: Pid)
    requires Inv(w) && Can(w, s) && q in w.calls && w.calls[q].Inserted? && (s.Commit? ==> s.p != q)
    ensures Free(Do(w, s).db.ledger, w.calls[q].req.key)
  {
    assert CallOk(w, q);
    if s.Refuse? {
      AppendRow(w.db.ledger, IllegalEntry(w.calls[s.p].seen, w.calls[s.p].req, s.now));
    } else if s.Commit? {
      assert KeyIn(w.calls[q]).Some? ==> KeyIn(w.calls[q]) != KeyIn(w.calls[s.p]);
      AppendRow(w.db.ledger, HopEntry(w.calls[s.p].seen, w.calls[s.p].req, w.calls[s.p].at));
    } else if s.OpenIntent? {
      AppendRow(w.db.ledger, CreatedRow(s.o.id, s.o.card, s.o.amount, s.o.depositRef, s.at, s.o.key));
    } else if s.Annotate? {
      AppendRow(w.db.ledger, NoteRow(Some(s.key)));
    }
  }

  lemma OthersStayOk(w: World, s: Step, q: Pid)
    requires Inv(w) && Can(w, s) && q in w.calls && q in Do(w, s).calls && Do(w, s).calls[q] == w.calls[q]
    ensures CallOk(Do(w, s), q)
  {
    assert CallOk(w, q);
    if w.calls[q].Inserted? {
      StepAppends(w, s, q);
    }
    if s.Commit? || s.Refuse? {
      assert CallOk(w, s.p);
    }
  }

  lemma MoverStaysOk(w: World, s: Step)
    requires Inv(w) && Can(w, s) && (s.Begin? || s.LookUp? || s.Lock? || s.Change? || s.Insert?)
    ensures s.p in Do(w, s).calls ==> CallOk(Do(w, s), s.p)
  {
    if !s.Begin? {
      assert CallOk(w, s.p);
    }
  }

  lemma StepKeepsInv(w: World, s: Step)
    requires Inv(w) && Can(w, s)
    ensures Inv(Do(w, s))
  {
    var v := Do(w, s);
    StepKeepsSound(w, s);
    forall q | q in v.calls ensures CallOk(v, q) {
      if q in w.calls && v.calls[q] == w.calls[q] {
        OthersStayOk(w, s, q);
      } else {
        MoverStaysOk(w, s);
      }
    }
  }

  // -------------------------------------------------------------------- runs

  predicate Runs(w: World, steps: seq<Step>)
    decreases |steps|
  {
    steps == [] || (Can(w, steps[0]) && Runs(Do(w, steps[0]), steps[1..]))
  }

  function Exec(w: World, steps: seq<Step>): World
    requires Runs(w, steps)
    decreases |steps|
  {
    if steps == [] then w else Exec(Do(w, steps[0]), steps[1..])
  }

  const START := World(EMPTY, map[], map[])

  lemma {:induction false} RunKeepsInv(w: World, steps: seq<Step>)
    requires Inv(w) && Runs(w, steps)
    ensures Inv(Exec(w, steps))
    decreases |steps|
  {
    if steps != [] {
      StepKeepsInv(w, steps[0]);
      RunKeepsInv(Do(w, steps[0]), steps[1..]);
    }
  }

  /** In every reachable state, whatever the interleaving and wherever callers died, the
      intents table is what the ledger rebuilds, and each intent's rows are one legal path. */
  lemma EveryRunReplays(steps: seq<Step>, id: IntentId)
    requires Runs(START, steps)
    ensures
      var db := Exec(START, steps).db;
      && Rebuild(db.ledger) == db.intents
      && LegalPath(Path(db.ledger, id))
      && (id in db.intents ==>
            var p := Path(db.ledger, id);
            p != [] && p[|p| - 1] == db.intents[id].state
            && Retries(db.ledger, id) == db.intents[id].retryCount)
  {
    RunKeepsInv(START, steps);
    HistoryEndsAtState(Exec(START, steps).db, id);
  }

  function Performs(db: Db, ops: seq<Whole>): Option<Db>
    decreases |ops|
  {
    if ops == [] then Some(db)
    else if Possible(db, ops[0]) then Performs(Perform(db, ops[0]), ops[1..])
    else None
  }

  function Meanings(w: World, steps: seq<Step>): seq<Whole>
    requires Runs(w, steps)
    decreases |steps|
  {
    if steps == [] then [] else [Meaning(w, steps[0])] + Meanings(Do(w, steps[0]), steps[1..])
  }

  /** Serializability: the tables after any interleaved run are the tables after its
      committed hops performed one whole hop at a time. */
  lemma {:induction false} EveryRunIsSerial(w: World, steps: seq<Step>)
    requires Inv(w) && Runs(w, steps)
    ensures Performs(w.db, Meanings(w, steps)) == Some(Exec(w, steps).db)
    decreases |steps|
  {
    if steps != [] {
      StepRefines(w, steps[0]);
      StepKeepsInv(w, steps[0]);
      EveryRunIsSerial(Do(w, steps[0]), steps[1..]);
      assert Meanings(w, steps)[1..] == Meanings(Do(w, steps[0]), steps[1..]);
    }
  }

  // ------------------------------------------------------------- effect once

  /** The step changes some intent on behalf of a caller using `key`. */
  predicate ChangesUnder(w: World, s: Step, key: Key)
    requires Can(w, s)
  {
    && Do(w, s).db.intents != w.db.intents
    && (s.Refuse? || s.Commit? ==> w.calls[s.p].req.key == Some(key))
    && (s.OpenIntent? ==> s.o.key == Some(key))
  }

  function Effects(w: World, steps: seq<Step>, key: Key): nat
    requires Runs(w, steps)
    decreases |steps|
  {
    if steps == [] then 0
    else (if ChangesUnder(w, steps[0], key) then 1 else 0) + Effects(Do(w, steps[0]), steps[1..], key)
  }

  /** What one whole operation leaves in the ledger under `key`. */
  lemma WholeSpendsKey(db: Db, op: Whole, key: Key)
    requires Possible(db, op)
    ensures Taken(db.ledger, key) ==> Taken(Perform(db, op).ledger, key)
  {
    match op
    case Hop(req, now) =>
      if req.intent in db.intents {
        var i := db.intents[req.intent];
        AppendRow(db.ledger, HopEntry(i, req, now));
        AppendRow(db.ledger, IllegalEntry(i, req, now));
      }
    case Open(o, now) => AppendRow(db.ledger, CreatedRow(o.id, o.card, o.amount, o.depositRef, now, o.key));
    case Mark(k) => AppendRow(db.ledger, NoteRow(Some(k)));
    case Nothing =>
  }

  /** A whole operation that changes an intent had its key free, and has taken it. */
  lemma ChangeSpendsKey(db: Db, op: Whole, key: Key)
    requires Possible(db, op) && Perform(db, op).intents != db.intents
    requires (op.Hop? ==> op.req.key == Some(key)) && (op.Open? ==> op.o.key == Some(key))
    ensures !Taken(db.ledger, key) && Taken(Perform(db, op).ledger, key)
  {
    match op
    case Hop(req, now) =>
      var i := db.intents[req.intent];
      AppendRow(db.ledger, HopEntry(i, req, now));
      AppendRow(db.ledger, IllegalEntry(i, req, now));
    case Open(o, now) => AppendRow(db.ledger, CreatedRow(o.id, o.card, o.amount, o.depositRef, now, o.key));
    case _ =>
  }

  lemma StepSpendsKey(w: World, s: Step, key: Key)
    requires Inv(w) && Can(w, s)
    ensures Taken(w.db.ledger, key) ==> Taken(Do(w, s).db.ledger, key)
    ensures ChangesUnder(w, s, key) ==> !Taken(w.db.ledger, key) && Taken(Do(w, s).db.ledger, key)
  {
    StepRefines(w, s);
    WholeSpendsKey(w.db, Meaning(w, s), key);
    if ChangesUnder(w, s, key) {
      ChangeSpendsKey(w.db, Meaning(w, s), key);
    }
  }

  /** However many callers race with one key, at most one of them changes anything. */
  lemma {:induction false} KeyTakesEffectOnce(w: World, steps: seq<Step>, key: Key)
    requires Inv(w) && Runs(w, steps)
    ensures Effects(w, steps, key) + (if Taken(w.db.ledger, key) then 1 else 0) <= 1
    ensures CountKey(Exec(w, steps).db.ledger, key) <= 1
    decreases |steps|
  {
    if steps != [] {
      StepSpendsKey(w, steps[0], key);
      StepKeepsInv(w, steps[0]);
      KeyTakesEffectOnce(Do(w, steps[0]), steps[1..], key);
    }
    RunKeepsInv(w, steps);
    UniqueMeansAtMostOnce(Exec(w, steps).db.ledger, key);
  }

  // ------------------------------------------------------------ one call alone

  lemma Prepend(w: World, s: Step, rest: seq<Step>)
    requires Can(w, s) && Runs(Do(w, s), rest)
    ensures Runs(w, [s] + rest) && Exec(w, [s] + rest) == Exec(Do(w, s), rest)
  {
    assert ([s] + rest)[1..] == rest;
  }

  /** What one undisturbed call of `advance` does, step by step. */
  function Script(db: Db, p: Pid, req: Request, now: int): seq<Step> {
    [Begin(p, req)] + ([LookUp(p)] + if Free(db.ledger, req.key) then [Lock(p)] + UnderLock(db, p, req, now) else [])
  }

  function UnderLock(db: Db, p: Pid, req: Request, now: int): seq<Step> {
    if req.intent !in db.intents then []
    else if !Legal(db.intents[req.intent].state, req.to) then [Refuse(p, now)] + []
    else [Change(p, now)] + ([Insert(p)] + ([Commit(p)] + []))
  }

  /** Nobody holds what the call needs. */
  predicate Unhindered(w: World, p: Pid, req: Request) {
    && p !in w.calls && req.intent !in w.locks && !Reserved(w.calls, req.key)
    && forall id :: id in w.locks ==> w.locks[id] != p
  }

  lemma LeavesNoTrace(w: World, p: Pid, c: Call, id: IntentId, db: Db)
    requires p !in w.calls && id !in w.locks && forall i :: i in w.locks ==> w.locks[i] != p
    ensures Leave(World(db, w.calls[p := c], w.locks), p) == w.(db := db)
    ensures Leave(World(db, w.calls[p := c], w.locks[id := p]), p) == w.(db := db)
  {
    assert w.calls[p := c] - {p} == w.calls;
    assert Unlock(w.locks, p) == w.locks && Unlock(w.locks[id := p], p) == w.locks;
  }

  /** A call nobody hinders goes through these steps to what `advance` means, and leaves no lock
      behind: the split loses nothing. */
  lemma AdvanceIsARun(w: World, p: Pid, req: Request, now: int)
    requires KeepsDeposit(req) && Unhindered(w, p, req)
    ensures var script := Script(w.db, p, req, now);
            Runs(w, script) && Exec(w, script) == w.(db := Advance(w.db, req, now).0)
  {
    var begin, look := Begin(p, req), LookUp(p);
    var w1 := w.(calls := w.calls[p := Began(req)]);
    LeavesNoTrace(w, p, Began(req), req.intent, w.db);
    if Free(w.db.ledger, req.key) {
      var w2 := w.(calls := w.calls[p := Missed(req)]);
      assert Do(w1, look) == w2;
      LocksRun(w, p, req, now);
      var rest := [Lock(p)] + UnderLock(w.db, p, req, now);
      Prepend(w1, look, rest);
      Prepend(w, begin, [look] + rest);
    } else {
      Prepend(w1, look, []);
      Prepend(w, begin, [look] + []);
    }
  }

  lemma LocksRun(w: World, p: Pid, req: Request, now: int)
    requires Unhindered(w, p, req) && Free(w.db.ledger, req.key)
    ensures var w2, rest := w.(calls := w.calls[p := Missed(req)]), [Lock(p)] + UnderLock(w.db, p, req, now);
            Runs(w2, rest) && Exec(w2, rest) == w.(db := Apply(w.db, req, now).0)
  {
    var w2 := w.(calls := w.calls[p := Missed(req)]);
    if req.intent !in w.db.intents {
      LeavesNoTrace(w, p, Missed(req), req.intent, w.db);
      Prepend(w2, Lock(p), []);
    } else {
      var i := w.db.intents[req.intent];
      var w3 := World(w.db, w.calls[p := Holding(req, i)], w.locks[req.intent := p]);
      assert Do(w2, Lock(p)) == w3;
      HeldRuns(w, p, req, now);
      Prepend(w2, Lock(p), UnderLock(w.db, p, req, now));
    }
  }

  lemma HeldRuns(w: World, p: Pid, req: Request, now: int)
    requires Unhindered(w, p, req) && Free(w.db.ledger, req.key) && req.intent in w.db.intents
    ensures var i := w.db.intents[req.intent];
            var w3 := World(w.db, w.calls[p := Holding(req, i)], w.locks[req.intent := p]);
            var rest := UnderLock(w.db, p, req, now);
            Runs(w3, rest) && Exec(w3, rest) == w.(db := Apply(w.db, req, now).0)
  {
    var i, locks := w.db.intents[req.intent], w.locks[req.intent := p];
    var w3 := World(w.db, w.calls[p := Holding(req, i)], locks);
    var after := Apply(w.db, req, now).0;
    if !Legal(i.state, req.to) {
      LeavesNoTrace(w, p, Holding(req, i), req.intent, after);
      Prepend(w3, Refuse(p, now), []);
    } else {
      var w4 := World(w.db, w.calls[p := Working(req, i, Hopped(i, req, now), now)], locks);
      var w5 := World(w.db, w.calls[p := Inserted(req, i, Hopped(i, req, now), now)], locks);
      assert Do(w3, Change(p, now)) == w4;
      assert !Reserved(w4.calls, req.key);
      assert Do(w4, Insert(p)) == w5;
      LeavesNoTrace(w, p, w5.calls[p], req.intent, after);
      assert Do(w5, Commit(p)) == w.(db := after);
      Prepend(w5, Commit(p), []);
      Prepend(w4, Insert(p), [Commit(p)] + []);
      Prepend(w3, Change(p, now), [Insert(p)] + ([Commit(p)] + []));
    }
  }
}
