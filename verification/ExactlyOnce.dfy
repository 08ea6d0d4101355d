/** Which deposits get an intent of their own, in every run whose polls fit their pages. */
module ExactlyOnce {
  import opened Basics
  import opened FundingStates
  import opened Ledger
  import opened Machine
  import opened Watcher
  import opened Intake
  import opened IntakeLaws

  predicate Holds(w: World, id: IntentId, sig: Signature) {
    id in w.db.intents && w.db.intents[id].depositRef == Some(sig)
  }

  /** The intent was opened when this very entry was filed. */
  predicate OpenedAt(w: World, id: IntentId, addr: Address, j: nat) {
    exists k :: 0 <= k < |w.booked| && w.booked[k].At(addr, j) && w.booked[k].For(id)
  }

  /** The entry has an intent opened for it and nothing else, on its address's terms, and no
      other intent holds its signature. */
  ghost predicate CreditedOnce(w: World, addr: Address, j: nat)
    requires w.unit > 0
  {
    exists id :: OpenedAt(w, id, addr, j) && id in w.db.intents && OpenedFor(w, w.db.intents[id], addr, j)
      && forall other :: Holds(w, other, w.logs[addr][j].sig) ==> other == id
  }

  /** The entry was filed, with a route, before any other routed one with its signature. */
  predicate FiledFirst(w: World, addr: Address, j: nat) {
    exists k :: 0 <= k < |w.booked| && w.booked[k].At(addr, j) && w.booked[k].Routed() && FirstRouted(w, k)
  }

  ghost predicate OnlyHolder(w: World, id: IntentId, sig: Signature) {
    Holds(w, id, sig) && forall other :: Holds(w, other, sig) ==> other == id
  }

  /** A reachable world: some run from nothing, none of whose polls overflowed, leads to it. */
  ghost predicate Reached(v: World) {
    exists unit: nat, limit, currency, workers, steps :: ReachedBy(v, unit, limit, currency, workers, steps)
  }

  ghost predicate ReachedBy(v: World, unit: nat, limit: nat, currency: string, workers: nat, steps: seq<Step>) {
    && unit > 0 && Runs(Start(unit, limit, currency, workers), steps)
    && NeverOverflows(Start(unit, limit, currency, workers), steps)
    && v == Exec(Start(unit, limit, currency, workers), steps)
  }

  lemma ReachedIsWhole(v: World)
    requires Reached(v)
    ensures Base(v) && Whole(v)
  {
    var unit: nat, limit, currency, workers, steps :| ReachedBy(v, unit, limit, currency, workers, steps);
    StartIsWhole(unit, limit, currency, workers);
    RunKeepsWhole(Start(unit, limit, currency, workers), steps);
  }

  lemma RoutedFiling(w: World, addr: Address, j: nat) returns (k: nat)
    requires Base(w) && FiledAsRouted(w, addr, j)
    ensures k < |w.booked| && w.booked[k].At(addr, j) && w.booked[k].Routed() && BookingOk(w, k)
    ensures addr in w.logs && j < |w.logs[addr]| && w.booked[k].sig == w.logs[addr][j].sig
  {
    k :| 0 <= k < |w.booked| && w.booked[k].At(addr, j) && w.booked[k].Routed();
    assert BookingOk(w, k);
  }

  /** The first of the routed filings of a signature. */
  lemma FirstFiling(w: World, k: nat) returns (f: nat)
    requires k < |w.booked| && w.booked[k].Routed()
    ensures f <= k && w.booked[f].sig == w.booked[k].sig && w.booked[f].Routed() && FirstRouted(w, f)
  {
    f := 0;
    while !w.booked[f].Routed() || w.booked[f].sig != w.booked[k].sig
      invariant f <= k && forall l :: 0 <= l < f && w.booked[l].Routed() ==> w.booked[l].sig != w.booked[k].sig
      decreases k - f
    {
      f := f + 1;
    }
  }

  lemma HolderIsTheOnly(w: World, id: IntentId, sig: Signature)
    requires OneIntentPerDeposit(w.db.intents) && Holds(w, id, sig)
    ensures OnlyHolder(w, id, sig)
  {}

  /** The intent the first routed filing opened is the only one to hold the signature. */
  lemma FirstOpensTheOnly(w: World, f: nat) returns (id: IntentId)
    requires Base(w) && f < |w.booked| && w.booked[f].Routed() && FirstRouted(w, f)
    ensures var b := w.booked[f];
            b.For(id) && OnlyHolder(w, id, b.sig) && OpenedAt(w, id, b.addr, b.j)
            && OpenedFor(w, w.db.intents[id], b.addr, b.j)
  {
    assert BookingOk(w, f);
    id := w.booked[f].ending.id;
    HolderIsTheOnly(w, id, w.booked[f].sig);
    assert w.booked[f].At(w.booked[f].addr, w.booked[f].j);
  }

  /** Of all entries that were filed with a route, exactly the first of each signature has an
      intent of its own; one that never was has none. */
  lemma CreditedExactlyWhenFirst(w: World, addr: Address, j: nat)
    requires Base(w)
    ensures CreditedOnce(w, addr, j) <==> FiledFirst(w, addr, j)
    ensures FiledFirst(w, addr, j) ==> FiledAsRouted(w, addr, j)
  {
    if CreditedOnce(w, addr, j) {
      var id :| OpenedAt(w, id, addr, j);
      var m :| 0 <= m < |w.booked| && w.booked[m].At(addr, j) && w.booked[m].For(id);
      assert BookingOk(w, m);
    }
    if FiledFirst(w, addr, j) {
      var f :| 0 <= f < |w.booked| && w.booked[f].At(addr, j) && w.booked[f].Routed() && FirstRouted(w, f);
      assert BookingOk(w, f);
      var id := FirstOpensTheOnly(w, f);
    }
  }

  /** One intent holds the signature of a routed filing: the one its first filing opened. */
  ghost predicate HeldByTheFirst(w: World, sig: Signature) {
    exists id, a, i :: OnlyHolder(w, id, sig) && OpenedAt(w, id, a, i) && FiledFirst(w, a, i)
  }

  lemma RoutedIsHeld(w: World, addr: Address, j: nat)
    requires Base(w) && FiledAsRouted(w, addr, j)
    ensures addr in w.logs && j < |w.logs[addr]| && HeldByTheFirst(w, w.logs[addr][j].sig)
  {
    var k := RoutedFiling(w, addr, j);
    var f := FirstFiling(w, k);
    var b := w.booked[f];
    var id := FirstOpensTheOnly(w, f);
    assert b.At(b.addr, b.j) && FiledFirst(w, b.addr, b.j);
  }

  // ------------------------------------------------------- notes without a route

  predicate Wrote(w: World, k: nat) {
    k < |w.booked| && w.booked[k].ending == Unrouted(true)
  }

  lemma SomeoneWrote(w: World, sig: Signature) returns (f: nat)
    requires Base(w) && TurnedAway(w, sig)
    ensures Wrote(w, f) && w.booked[f].sig == sig
  {
    var k :| 0 <= k < |w.booked| && w.booked[k].sig == sig && !w.booked[k].Routed();
    f := 0;
    while w.booked[f].Routed() || w.booked[f].sig != sig
      invariant f <= k && forall l :: 0 <= l < f && !w.booked[l].Routed() ==> w.booked[l].sig != sig
      decreases k - f
    {
      f := f + 1;
    }
    assert BookingOk(w, f);
  }

  lemma WriterIsFirst(w: World, k: nat)
    requires Base(w) && Wrote(w, k)
    ensures FirstUnrouted(w, k)
  {
    assert BookingOk(w, k);
  }

  /** A signature found without a route, at however many addresses and however often, has one
      note in the ledger, and the first of those filings wrote it. */
  lemma FirstUnroutedOwnsTheNote(w: World, sig: Signature)
    requires Base(w)
    ensures CountKey(w.db.ledger, UnroutableKey(sig)) == if TurnedAway(w, sig) then 1 else 0
    ensures TurnedAway(w, sig) ==> exists k: nat :: Wrote(w, k) && w.booked[k].sig == sig
    ensures forall k: nat :: Wrote(w, k) && w.booked[k].sig == sig ==> FirstUnrouted(w, k)
    ensures forall k: nat, l: nat :: Wrote(w, k) && Wrote(w, l) && w.booked[k].sig == sig == w.booked[l].sig ==> k == l
  {
    NotedMeansBooked(w, sig);
    UniqueMeansAtMostOnce(w.db.ledger, UnroutableKey(sig));
    forall k: nat | Wrote(w, k) ensures FirstUnrouted(w, k) {
      WriterIsFirst(w, k);
    }
    if TurnedAway(w, sig) {
      var f := SomeoneWrote(w, sig);
    }
  }

  // ----------------------------------------------------------- every entry passed

  /** Whatever crashes and interleaves, as long as no poll overflows: every deposit at or behind
      its cursor was filed. If it ever was with a route, one intent holds its signature, opened
      for the entry that was first, and it has an intent of its own exactly when that was it;
      if it never was, it has none, and its signature has one note. */
  lemma ExactlyOnceIntake(v: World, addr: Address, j: nat)
    requires Reached(v) && v.unit > 0 && addr in v.logs && j < Behind(v, addr) && Creditable(v, v.logs[addr][j])
    ensures FiledAt(v, addr, j)
    ensures CreditedOnce(v, addr, j) <==> FiledFirst(v, addr, j)
    ensures if FiledAsRouted(v, addr, j) then HeldByTheFirst(v, v.logs[addr][j].sig)
            else !CreditedOnce(v, addr, j) && CountKey(v.db.ledger, UnroutableKey(v.logs[addr][j].sig)) == 1
  {
    ReachedIsWhole(v);
    assert Covered(v, addr) && Accounted(v, addr, j);
    CreditedExactlyWhenFirst(v, addr, j);
    if FiledAsRouted(v, addr, j) {
      RoutedIsHeld(v, addr, j);
    } else {
      var k :| 0 <= k < |v.booked| && v.booked[k].At(addr, j);
      assert BookingOk(v, k);
      FirstUnroutedOwnsTheNote(v, v.logs[addr][j].sig);
    }
  }

  // ------------------------------------------- one transaction, two addresses

  lemma OneIsFirst(w: World, a: Address, i: nat, b: Address, j: nat)
    requires Base(w) && FiledFirst(w, a, i) && FiledFirst(w, b, j)
    requires a in w.logs && i < |w.logs[a]| && b in w.logs && j < |w.logs[b]| && w.logs[a][i].sig == w.logs[b][j].sig
    ensures (a, i) == (b, j)
  {
    var k :| 0 <= k < |w.booked| && w.booked[k].At(a, i) && w.booked[k].Routed() && FirstRouted(w, k);
    var m :| 0 <= m < |w.booked| && w.booked[m].At(b, j) && w.booked[m].Routed() && FirstRouted(w, m);
    assert BookingOk(w, k) && BookingOk(w, m);
    assert k == m;
  }

  /** Two entries of one signature, both filed with a route: one intent between them, and it is
      not for both. */
  lemma SharedSignatureCreditsOne(v: World, a: Address, i: nat, b: Address, j: nat)
    requires Base(v) && FiledAsRouted(v, a, i) && FiledAsRouted(v, b, j) && (a, i) != (b, j)
    requires a in v.logs && i < |v.logs[a]| && b in v.logs && j < |v.logs[b]| && v.logs[a][i].sig == v.logs[b][j].sig
    ensures !(CreditedOnce(v, a, i) && CreditedOnce(v, b, j))
    ensures HeldByTheFirst(v, v.logs[a][i].sig)
  {
    RoutedIsHeld(v, a, i);
    CreditedExactlyWhenFirst(v, a, i);
    CreditedExactlyWhenFirst(v, b, j);
    if FiledFirst(v, a, i) && FiledFirst(v, b, j) {
      OneIsFirst(v, a, i, b, j);
    }
  }

  ghost predicate EveryRoutedEntryCredited(w: World)
    requires w.unit > 0
  {
    forall a, i: nat :: FiledAsRouted(w, a, i) ==> CreditedOnce(w, a, i)
  }

  /** No transaction credits two entries that were filed with a route. */
  ghost predicate NoSharedSignatures(w: World)
    requires Base(w)
  {
    forall a, i: nat, b, j: nat :: FiledAsRouted(w, a, i) && FiledAsRouted(w, b, j) && SameSignature(w, a, i, b, j) ==>
      a == b && i == j
  }

  predicate SameSignature(w: World, a: Address, i: nat, b: Address, j: nat) {
    && a in w.logs && i < |w.logs[a]| && b in w.logs && j < |w.logs[b]|
    && w.logs[a][i].sig == w.logs[b][j].sig
  }

  /** At every moment of every run: each deposit that was filed with a route has an intent of its
      own exactly when no transaction made two of them. */
  lemma OwnIntentsExactly(v: World)
    requires Base(v)
    ensures EveryRoutedEntryCredited(v) <==> NoSharedSignatures(v)
  {
    if EveryRoutedEntryCredited(v) {
      forall a, i: nat, b, j: nat | FiledAsRouted(v, a, i) && FiledAsRouted(v, b, j) && SameSignature(v, a, i, b, j)
        ensures a == b && i == j
      {
        if (a, i) != (b, j) {
          SharedSignatureCreditsOne(v, a, i, b, j);
        }
      }
    }
    if NoSharedSignatures(v) {
      forall a, i: nat | FiledAsRouted(v, a, i) ensures CreditedOnce(v, a, i) {
        NotSharedIsCredited(v, a, i);
      }
    }
  }

  lemma NotSharedIsCredited(v: World, a: Address, i: nat)
    requires Base(v) && NoSharedSignatures(v) && FiledAsRouted(v, a, i)
    ensures CreditedOnce(v, a, i)
  {
    var k := RoutedFiling(v, a, i);
    var f := FirstFiling(v, k);
    var b := v.booked[f];
    assert BookingOk(v, f) && b.At(b.addr, b.j);
    assert FiledAsRouted(v, b.addr, b.j) && SameSignature(v, a, i, b.addr, b.j);
    assert b.At(a, i);
    CreditedExactlyWhenFirst(v, a, i);
  }

  // --------------------------------------------------- the same, of the chain

  /** A deposit on the chain, whether or not anybody has seen it. */
  predicate Transfer(w: World, addr: Address, j: nat)
    requires w.unit > 0
  {
    addr in w.logs && j < |w.logs[addr]| && Creditable(w, w.logs[addr][j])
  }

  /** The transaction credits no other entry of any address. */
  ghost predicate CreditsOnlyHere(w: World, addr: Address, j: nat)
    requires w.unit > 0
  {
    forall b, k: nat :: Transfer(w, b, k) && SameSignature(w, addr, j, b, k) ==> b == addr && k == j
  }

  lemma AloneIsFirst(w: World, addr: Address, j: nat)
    requires Base(w) && FiledAsRouted(w, addr, j) && CreditsOnlyHere(w, addr, j)
    ensures FiledFirst(w, addr, j)
  {
    var k := RoutedFiling(w, addr, j);
    var f := FirstFiling(w, k);
    assert BookingOk(w, f);
    var b := w.booked[f];
    assert Transfer(w, b.addr, b.j) && SameSignature(w, addr, j, b.addr, b.j);
    assert b.At(addr, j);
  }

  /** Everything on the chain has been polled and recorded. */
  ghost predicate CaughtUp(w: World) {
    forall a :: a in w.logs ==> Behind(w, a) == |w.logs[a]|
  }

  ghost predicate EveryTransferCredited(w: World)
    requires w.unit > 0
  {
    forall a, i: nat :: Transfer(w, a, i) ==> CreditedOnce(w, a, i)
  }

  ghost predicate EveryTransferFiledAsRouted(w: World)
    requires w.unit > 0
  {
    forall a, i: nat :: Transfer(w, a, i) ==> FiledAsRouted(w, a, i)
  }

  ghost predicate NoTransactionCreditsTwo(w: World)
    requires w.unit > 0
  {
    forall a, i: nat :: Transfer(w, a, i) ==> CreditsOnlyHere(w, a, i)
  }

  /** Every deposit on the chain has an intent of its own exactly when each was filed with a route
      and no transaction makes two of them. */
  lemma TransfersCreditedExactly(v: World)
    requires Base(v)
    ensures EveryTransferCredited(v) <==> EveryTransferFiledAsRouted(v) && NoTransactionCreditsTwo(v)
  {
    if EveryTransferCredited(v) {
      forall a, i: nat | Transfer(v, a, i) ensures FiledAsRouted(v, a, i) {
        CreditedExactlyWhenFirst(v, a, i);
      }
      forall a, i: nat, b, j: nat | Transfer(v, a, i) && Transfer(v, b, j) && SameSignature(v, a, i, b, j)
        ensures b == a && j == i
      {
        if (a, i) != (b, j) {
          SharedSignatureCreditsOne(v, a, i, b, j);
        }
      }
    }
    if EveryTransferFiledAsRouted(v) && NoTransactionCreditsTwo(v) {
      forall a, i: nat | Transfer(v, a, i) ensures CreditedOnce(v, a, i) {
        AloneIsFirst(v, a, i);
        CreditedExactlyWhenFirst(v, a, i);
      }
    }
  }

  // ------------------------------------------ when only routed addresses are polled

  /** The addresses to watch are read from the routes. */
  ghost predicate PollsRoutes(w: World, steps: seq<Step>)
    requires Runs(w, steps)
    decreases |steps|
  {
    steps == [] || ((steps[0].Poll? ==> steps[0].addr in w.routes) && PollsRoutes(Do(w, steps[0]), steps[1..]))
  }

  /** Nothing was or will be filed without a route. */
  predicate AllRouted(w: World) {
    && (forall k :: 0 <= k < |w.booked| ==> w.booked[k].Routed())
    && forall p :: 0 <= p < |w.pcs| ==> w.pcs[p].Idle? || w.pcs[p].addr in w.routes
  }

  lemma RecordStaysRouted(w: World, s: Step)
    requires Base(w) && s.RecordDeposit? && Can(w, s) && AllRouted(w)
    ensures AllRouted(Do(w, s))
  {
    assert PcFrom(w, w.pcs[s.p]) && w.pcs[s.p].addr in w.routes;
    RecordDepositBooks(w, s.p, s.newId, s.now);
  }

  lemma StepStaysRouted(w: World, s: Step)
    requires Base(w) && Can(w, s) && AllRouted(w) && (s.Poll? ==> s.addr in w.routes)
    ensures AllRouted(Do(w, s))
  {
    if s.RecordDeposit? {
      RecordStaysRouted(w, s);
    }
  }

  lemma {:induction false} RunStaysRouted(w: World, steps: seq<Step>)
    requires Base(w) && AllRouted(w) && Runs(w, steps) && PollsRoutes(w, steps)
    ensures AllRouted(Exec(w, steps))
    decreases |steps|
  {
    if steps != [] {
      StepKeeps(w, steps[0]);
      StepStaysRouted(w, steps[0]);
      RunStaysRouted(Do(w, steps[0]), steps[1..]);
    }
  }

  /** When only routed addresses are polled and intake has caught up, every deposit on the chain
      has an intent of its own exactly when no transaction makes two of them. */
  lemma RoutedPollsCreditExactly(unit: nat, limit: nat, currency: string, workers: nat, steps: seq<Step>)
    requires var w := Start(unit, limit, currency, workers);
             unit > 0 && Runs(w, steps) && NeverOverflows(w, steps) && PollsRoutes(w, steps) && CaughtUp(Exec(w, steps))
    ensures var v := Exec(Start(unit, limit, currency, workers), steps);
            v.unit > 0 && (EveryTransferCredited(v) <==> NoTransactionCreditsTwo(v))
  {
    var w := Start(unit, limit, currency, workers);
    var v := Exec(w, steps);
    StartIsWhole(unit, limit, currency, workers);
    RunKeepsWhole(w, steps);
    RunStaysRouted(w, steps);
    forall a, i: nat | Transfer(v, a, i) ensures FiledAsRouted(v, a, i) {
      assert Covered(v, a) && Accounted(v, a, i);
      var k :| 0 <= k < |v.booked| && v.booked[k].At(a, i);
      assert v.booked[k].Routed();
    }
    TransfersCreditedExactly(v);
  }

  // ------------------------------------------------------------ and for good

  lemma FirstWasFirst(w: World, v: World, addr: Address, j: nat)
    requires Base(w) && Base(v) && Later(w, v) && FiledAsRouted(w, addr, j) && FiledFirst(v, addr, j)
    ensures FiledFirst(w, addr, j)
  {
    var k := RoutedFiling(w, addr, j);
    var m :| 0 <= m < |v.booked| && v.booked[m].At(addr, j) && v.booked[m].Routed() && FirstRouted(v, m);
    assert v.booked[k] == w.booked[k] && BookingOk(v, k) && BookingOk(v, m);
    assert m <= k && forall l :: 0 <= l <= m ==> w.booked[l] == v.booked[l];
  }

  /** An entry that came second stays without an intent in every run that follows. */
  lemma SecondIsNeverCredited(w: World, steps: seq<Step>, addr: Address, j: nat)
    requires Base(w) && Runs(w, steps) && FiledAsRouted(w, addr, j) && !FiledFirst(w, addr, j)
    ensures var v := Exec(w, steps); v.unit > 0 && FiledAsRouted(v, addr, j) && !CreditedOnce(v, addr, j)
  {
    RunKeeps(w, steps);
    var v := Exec(w, steps);
    var k := RoutedFiling(w, addr, j);
    assert v.booked[k] == w.booked[k];
    CreditedExactlyWhenFirst(v, addr, j);
    if FiledFirst(v, addr, j) {
      FirstWasFirst(w, v, addr, j);
    }
  }
}
