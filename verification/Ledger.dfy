/** The two tables the funding machine owns: intents, and the append-only ledger. */
module Ledger {
  import opened Basics
  import opened FundingStates

  type IntentId = string
  type Signature = string

  datatype Money = Money(minor: int, currency: string)

  datatype Card = Card(providerId: string, cardId: string)

  /** The idempotency keys the pipeline writes, one constructor per key format. */
  datatype Key =
    | DepositKey(sig: Signature)
    | ConfirmKey(sig: Signature)
    | DuplicateKey(sig: Signature)
    | UnroutableKey(sig: Signature)
    | IgnoredKey(sig: Signature)
    | HopKey(intent: IntentId, to: State)
    | OtherKey(name: string)

  datatype Intent = Intent(
    state: State,
    card: Card,
    amount: Money,
    bridged: Option<int>,
    depositRef: Option<Signature>,
    bridgeRef: Option<string>,
    issuerRef: Option<string>,
    retryCount: nat,
    lastError: Option<string>,
    changedAt: int)
  {
    /** What the card may be funded with: what the bridge delivered, once it has. */
    function FundableMoney(): Money {
      if bridged.None? then amount else Money(bridged.value, amount.currency)
    }
  }

  /** The external references one hop may set; `None` leaves the column alone. */
  datatype Updates = Updates(
    depositRef: Option<Signature>,
    bridgeRef: Option<string>,
    issuerRef: Option<string>,
    bridged: Option<int>)

  const NO_UPDATES := Updates(None, None, None, None)

  datatype Row =
    | CreatedRow(intent: IntentId, card: Card, amount: Money, depositRef: Option<Signature>,
                 at: int, key: Option<Key>)
    | HopRow(intent: IntentId, before: State, after: State, retried: bool, amount: Money,
             reason: Option<string>, updates: Updates, retryCount: nat, at: int, key: Option<Key>)
    | IllegalRow(intent: IntentId, before: State, after: State, amount: Money,
                 reason: Option<string>, at: int, key: Option<Key>)
    | NoteRow(key: Option<Key>)

  predicate Taken(rows: seq<Row>, key: Key) {
    exists r :: r in rows && r.key == Some(key)
  }

  predicate Free(rows: seq<Row>, key: Option<Key>) {
    key.Some? ==> !Taken(rows, key.value)
  }

  ghost predicate UniqueKeys(rows: seq<Row>) {
    forall i, j :: 0 <= i < j < |rows| && rows[i].key.Some? ==> rows[i].key != rows[j].key
  }

  function CountKey(rows: seq<Row>, key: Key): nat {
    if rows == [] then 0
    else CountKey(rows[..|rows| - 1], key) + if rows[|rows| - 1].key == Some(key) then 1 else 0
  }

  lemma {:induction false} UniqueMeansAtMostOnce(rows: seq<Row>, key: Key)
    requires UniqueKeys(rows)
    ensures CountKey(rows, key) == if Taken(rows, key) then 1 else 0
  {
    if rows != [] {
      var front, last := rows[..|rows| - 1], rows[|rows| - 1];
      UniqueMeansAtMostOnce(front, key);
      assert rows == front + [last];
      assert Taken(rows, key) <==> Taken(front, key) || last.key == Some(key);
      assert !(Taken(front, key) && last.key == Some(key));
    }
  }

  // ------------------------------------------------------------------ replay

  /** What one ledger row says happened to the intents table. */
  function ReplayRow(table: map<IntentId, Intent>, row: Row): map<IntentId, Intent> {
    match row
    case CreatedRow(id, card, amount, depositRef, at, _) =>
      table[id := Intent(Pending, card, amount, None, depositRef, None, None, 0, None, at)]
    case HopRow(id, _, after, retried, _, reason, u, retryCount, at, _) =>
      if id !in table then table
      else
        var i := table[id];
        table[id := i.(
          state := after,
          retryCount := retryCount,
          changedAt := at,
          lastError := if retried || after.IsFailure() then reason.Or(i.lastError) else i.lastError,
          depositRef := u.depositRef.Or(i.depositRef),
          bridgeRef := u.bridgeRef.Or(i.bridgeRef),
          issuerRef := u.issuerRef.Or(i.issuerRef),
          bridged := u.bridged.Or(i.bridged))]
    case IllegalRow(_, _, _, _, _, _, _) => table
    case NoteRow(_) => table
  }

  /** The intents table as the ledger alone tells it. */
  function Rebuild(rows: seq<Row>): map<IntentId, Intent> {
    if rows == [] then map[]
    else ReplayRow(Rebuild(rows[..|rows| - 1]), rows[|rows| - 1])
  }

  /** One row is true of the table the rows before it rebuild. */
  predicate RowLawful(table: map<IntentId, Intent>, row: Row) {
    match row
    case CreatedRow(id, _, amount, _, _, _) => id !in table && amount.minor > 0
    case HopRow(id, before, after, retried, amount, _, _, retryCount, _, _) =>
      && id in table
      && before == table[id].state
      && Legal(before, after)
      && retried == (before == after)
      && amount == table[id].amount
      && retryCount == table[id].retryCount + if retried then 1 else 0
    case IllegalRow(id, before, after, amount, _, _, key) =>
      id in table && before == table[id].state && amount == table[id].amount && !Legal(before, after) && key == None
    case NoteRow(_) => true
  }

  predicate Lawful(rows: seq<Row>) {
    rows == [] ||
    (Lawful(rows[..|rows| - 1]) && RowLawful(Rebuild(rows[..|rows| - 1]), rows[|rows| - 1]))
  }

  lemma AppendRow(rows: seq<Row>, row: Row)
    ensures Rebuild(rows + [row]) == ReplayRow(Rebuild(rows), row)
    ensures Lawful(rows + [row]) <==> Lawful(rows) && RowLawful(Rebuild(rows), row)
    ensures UniqueKeys(rows) && Free(rows, row.key) ==> UniqueKeys(rows + [row])
    ensures forall k :: Taken(rows + [row], k) <==> Taken(rows, k) || row.key == Some(k)
  {
    assert (rows + [row])[..|rows|] == rows;
    forall k ensures Taken(rows + [row], k) <==> Taken(rows, k) || row.key == Some(k) {
      if Taken(rows, k) {
        var r :| r in rows && r.key == Some(k);
        assert r in rows + [row];
      }
      if row.key == Some(k) {
        assert row in rows + [row];
      }
    }
    if UniqueKeys(rows) && Free(rows, row.key) {
      var all := rows + [row];
      forall i, j | 0 <= i < j < |all| && all[i].key.Some? ensures all[i].key != all[j].key {
        assert all[i] == rows[i] && rows[i] in rows;
      }
    }
  }

  // -------------------------------------------------- one intent's history

  /** The states the ledger says intent `id` has been in, in order. */
  function Path(rows: seq<Row>, id: IntentId): seq<State> {
    if rows == [] then []
    else
      var front, last := Path(rows[..|rows| - 1], id), rows[|rows| - 1];
      if last.CreatedRow? && last.intent == id then front + [Pending]
      else if last.HopRow? && last.intent == id then front + [last.after]
      else front
  }

  function Retries(rows: seq<Row>, id: IntentId): nat {
    if rows == [] then 0
    else
      var last := rows[|rows| - 1];
      Retries(rows[..|rows| - 1], id) + if last.HopRow? && last.intent == id && last.retried then 1 else 0
  }

  ghost predicate LegalPath(p: seq<State>) {
    && (p != [] ==> p[0] == Pending)
    && forall i :: 0 <= i < |p| - 1 ==> Legal(p[i], p[i + 1])
  }

  lemma {:induction false} LedgerTellsThePath(rows: seq<Row>, id: IntentId)
    requires Lawful(rows)
    ensures LegalPath(Path(rows, id))
    ensures id in Rebuild(rows) <==> Path(rows, id) != []
    ensures id in Rebuild(rows) ==>
      var p := Path(rows, id);
      p[|p| - 1] == Rebuild(rows)[id].state && Retries(rows, id) == Rebuild(rows)[id].retryCount
    ensures id !in Rebuild(rows) ==> Retries(rows, id) == 0
  {
    if rows != [] {
      LedgerTellsThePath(rows[..|rows| - 1], id);
    }
  }

  /** A state once left is never entered again. */
  lemma {:induction false} NeverReentered(p: seq<State>, i: nat, j: nat)
    requires LegalPath(p) && i < j < |p|
    ensures NoEarlier(p[j], p[i])
    ensures p[i] == p[j] ==> forall k :: i <= k <= j ==> p[k] == p[i]
    decreases j
  {
    HopDescends(p[j - 1], p[j]);
    if i < j - 1 {
      NeverReentered(p, i, j - 1);
    }
  }
}
