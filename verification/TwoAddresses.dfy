/** A run in which one transaction credits two watched addresses: both are polled, recorded and
    passed, and one of them has no intent of its own. */
module TwoAddresses {
  import opened Basics
  import opened FundingStates
  import opened Ledger
  import opened Machine
  import opened Watcher
  import opened Intake
  import opened IntakeLaws
  import opened ExactlyOnce

  const BOTH := Entry("tx", 7, false, Transaction(false, true, Some(0), Some(1)))
  const SEEN := Page([Deposit("tx", 7, 1, 1, 0)], [], Some(Position("tx", 7)), false)
  const DONE := Page([], [], Some(Position("tx", 7)), false)
  const MINE := Card("p", "mine")
  const YOURS := Card("p", "yours")

  function Script(): seq<Step> {
    [Land("A", BOTH), Land("B", BOTH), Register("A", MINE), Register("B", YOURS),
     Poll(0, "A", {"tx"}), RecordDeposit(0, "i", 0), Confirm(0, 0, false), MoveCursor(0),
     Poll(0, "B", {"tx"}), RecordDeposit(0, "k", 0), MoveCursor(0)]
  }

  const LOGS: map<Address, seq<Entry>> := map["A" := [BOTH], "B" := [BOTH]]
  const ROUTES: map<Address, Card> := map["A" := MINE, "B" := YOURS]
  const AT_END := Position("tx", 7)

  function Opened(): Db { Create(EMPTY, OpeningFor(MINE, "USD", SEEN.deposits[0], "i"), 0).0 }
  function Confirmed(): Db { Apply(Opened(), ConfirmRequest("i", "tx"), 0).0 }
  function Noted(): Db { Note(Confirmed(), DuplicateKey("tx")) }

  const FIRST := [Booking("A", 0, "tx", WithIntent("i"))]
  const SECOND := FIRST + [Booking("B", 0, "tx", Repeat)]

  function At(cursors: map<Address, Position>, db: Db, booked: seq<Booking>, pc: Pc): World {
    World(1, 2, "USD", LOGS, ROUTES, cursors, db, booked, [pc])
  }

  function Stage(k: nat): World {
    match k
    case 0 => Start(1, 2, "USD", 1)
    case 1 => World(1, 2, "USD", map["A" := [BOTH]], map[], map[], EMPTY, [], [Idle])
    case 2 => World(1, 2, "USD", LOGS, map[], map[], EMPTY, [], [Idle])
    case 3 => World(1, 2, "USD", LOGS, map["A" := MINE], map[], EMPTY, [], [Idle])
    case 4 => At(map[], EMPTY, [], Idle)
    case 5 => At(map[], EMPTY, [], Recording("A", 1, SEEN))
    case 6 => At(map[], Opened(), FIRST, Confirming("A", 1, DONE, "i", "tx"))
    case 7 => At(map[], Confirmed(), FIRST, Recording("A", 1, DONE))
    case 8 => At(map["A" := AT_END], Confirmed(), FIRST, Idle)
    case 9 => At(map["A" := AT_END], Confirmed(), FIRST, Recording("B", 1, SEEN))
    case 10 => At(map["A" := AT_END], Noted(), SECOND, Recording("B", 1, DONE))
    case _ => At(map["A" := AT_END, "B" := AT_END], Noted(), SECOND, Idle)
  }

  predicate Follows(k: nat) {
    && k < 11 && Can(Stage(k), Script()[k]) && Do(Stage(k), Script()[k]) == Stage(k + 1)
    && (Script()[k].Poll? ==> NothingSkipped(Stage(k), Script()[k].addr))
  }

  lemma BothLand()
    ensures Follows(0) && Follows(1)
  {
    var none: seq<Entry> := [];
    assert none + [BOTH] == [BOTH];
    assert Stage(0).pcs == [Idle];
    assert Do(Stage(0), Script()[0]).logs == map["A" := [BOTH]];
    assert Do(Stage(1), Script()[1]).logs == LOGS;
  }

  lemma BothRegister()
    ensures Follows(2) && Follows(3)
  {
    assert Do(Stage(2), Script()[2]).routes == map["A" := MINE];
    assert Do(Stage(3), Script()[3]).routes == ROUTES;
  }

  lemma OneEntryPage(w: World, addr: Address)
    requires w.unit == 1 && w.limit == 2 && addr in w.logs && w.logs[addr] == [BOTH] && addr !in w.cursors
    ensures NothingSkipped(w, addr) && PolledTo(w, addr, {"tx"}) == 1 && Listed(w, addr) == [BOTH]
  {}

  lemma PageOfOne()
    ensures PageOf([BOTH], {"tx"}, 1) == SEEN
  {
    assert FindingOf(BOTH, 1) == Credit(SEEN.deposits[0]);
    assert [BOTH][..1] == [BOTH] && [BOTH][..0] == [];
    assert Deposits([BOTH], 1) == [] + SEEN.deposits;
    assert Ignoreds([BOTH], 1) == [] + [];
  }

  lemma PollsOne(w: World, addr: Address)
    requires w.unit == 1 && w.limit == 2 && addr in w.logs && w.logs[addr] == [BOTH] && addr !in w.cursors
             && w.pcs == [Idle]
    ensures var s := Poll(0, addr, {"tx"});
            Can(w, s) && Do(w, s) == w.(pcs := [Recording(addr, 1, SEEN)]) && NothingSkipped(w, addr)
  {
    OneEntryPage(w, addr);
    PageOfOne();
  }

  lemma PollsAt(cursors: map<Address, Position>, db: Db, booked: seq<Booking>, addr: Address)
    requires addr in LOGS && addr !in cursors
    ensures var w, s := At(cursors, db, booked, Idle), Poll(0, addr, {"tx"});
            Can(w, s) && Do(w, s) == At(cursors, db, booked, Recording(addr, 1, SEEN)) && NothingSkipped(w, addr)
  {
    PollsOne(At(cursors, db, booked, Idle), addr);
  }

  lemma FirstPoll()
    ensures Follows(4)
  {
    PollsAt(map[], EMPTY, [], "A");
  }

  lemma SecondPoll()
    ensures Follows(8)
  {
    PollsAt(map["A" := AT_END], Confirmed(), FIRST, "B");
  }

  lemma OneIsFiled()
    ensures File(EMPTY, Some(MINE), "USD", SEEN.deposits[0], "i", 0) == (Opened(), Filing.NewIntent)
  {
    assert Create(EMPTY, OpeningFor(MINE, "USD", SEEN.deposits[0], "i"), 0).1 == Outcome.Opened("i");
  }

  lemma OpensOne(w: World)
    requires w.unit > 0 && w.pcs == [Recording("A", 1, SEEN)] && w.db == EMPTY && w.booked == [] && w.currency == "USD"
    requires w.logs == LOGS && w.routes == ROUTES
    ensures var s := RecordDeposit(0, "i", 0);
            Can(w, s) && Do(w, s) == w.(db := Opened(), booked := FIRST, pcs := [Confirming("A", 1, DONE, "i", "tx")])
  {
    OneIsFiled();
    assert Rest(SEEN) == DONE && RouteOf(w, "A") == Some(MINE);
    assert PositionOf(w, "A", "tx") == 0 by { assert CountThrough([BOTH], "tx") == 1; }
  }

  lemma OneOpens()
    ensures Follows(5)
  {
    OpensOne(Stage(5));
  }

  lemma OneIsConfirmed()
    ensures Apply(Opened(), ConfirmRequest("i", "tx"), 0).1.Applied?
    ensures "i" in Confirmed().intents && Confirmed().intents["i"].depositRef == Some("tx")
            && Confirmed().intents["i"].card == MINE
  {
    AppendRow([], CreatedRow("i", MINE, Money(1, "USD"), Some("tx"), 0, Some(DepositKey("tx"))));
    assert !Taken(Opened().ledger, ConfirmKey("tx"));
    AppendRow(Opened().ledger, HopEntry(Opened().intents["i"], ConfirmRequest("i", "tx"), 0));
  }

  lemma ConfirmsOne(w: World)
    requires w.unit > 0 && w.pcs == [Confirming("A", 1, DONE, "i", "tx")] && w.db == Opened()
    ensures var s := Confirm(0, 0, false);
            Can(w, s) && Do(w, s) == w.(db := Confirmed(), pcs := [Recording("A", 1, DONE)])
  {
    OneIsConfirmed();
  }

  lemma OneConfirms()
    ensures Follows(6)
  {
    ConfirmsOne(Stage(6));
  }

  lemma SecondIsFiledAsADuplicate()
    ensures "k" !in Confirmed().intents
    ensures File(Confirmed(), Some(YOURS), "USD", SEEN.deposits[0], "k", 0) == (Noted(), Filing.Duplicate)
  {
    OneIsConfirmed();
    assert DepositClaimed(Confirmed().intents, "tx");
  }

  lemma OneIsADuplicate()
    ensures Follows(9)
  {
    SecondIsFiledAsADuplicate();
    var w := Stage(9);
    assert Rest(SEEN) == DONE && RouteOf(w, "B") == Some(YOURS);
    assert PositionOf(w, "B", "tx") == 0 by { assert CountThrough([BOTH], "tx") == 1; }
  }

  lemma CursorsMove()
    ensures Follows(7) && Follows(10)
  {
    assert Do(Stage(7), Script()[7]).cursors == map["A" := AT_END];
    assert Do(Stage(10), Script()[10]).cursors == map["A" := AT_END, "B" := AT_END];
  }

  lemma {:induction false} StagesFollow(k: nat)
    requires k <= 11 && forall j :: k <= j < 11 ==> Follows(j)
    ensures Runs(Stage(k), Script()[k..]) && NeverOverflows(Stage(k), Script()[k..])
    ensures Exec(Stage(k), Script()[k..]) == Stage(11)
    decreases 11 - k
  {
    if k < 11 {
      assert Follows(k);
      StagesFollow(k + 1);
      assert Script()[k..][0] == Script()[k] && Script()[k..][1..] == Script()[k + 1..];
    }
  }

  lemma EveryStageFollows(k: nat)
    requires k < 11
    ensures Follows(k)
  {
    if k < 2 {
      BothLand();
    } else if k < 4 {
      BothRegister();
    } else if k == 4 {
      FirstPoll();
    } else if k == 5 {
      OneOpens();
    } else if k == 6 {
      OneConfirms();
    } else if k == 8 {
      SecondPoll();
    } else if k == 9 {
      OneIsADuplicate();
    } else {
      CursorsMove();
    }
  }

  lemma EndIsReached()
    ensures Reached(Stage(11))
  {
    forall k | 0 <= k < 11 ensures Follows(k) {
      EveryStageFollows(k);
    }
    StagesFollow(0);
    assert Script()[0..] == Script();
    assert ReachedBy(Stage(11), 1, 2, "USD", 1, Script());
  }

  lemma EverythingIsPassed()
    ensures CaughtUp(Stage(11))
  {
    assert CountThrough([BOTH], "tx") == 1;
  }

  lemma FilingsAre(v: World)
    requires v.booked == SECOND
    ensures FiledAsRouted(v, "A", 0) && FiledAsRouted(v, "B", 0) && FiledFirst(v, "A", 0)
  {
    assert v.booked[0] == FIRST[0] && v.booked[0].At("A", 0) && FirstRouted(v, 0);
    assert v.booked[1] == SECOND[1] && v.booked[1].At("B", 0);
  }

  lemma SecondIsUncredited(v: World)
    requires Base(v) && SameSignature(v, "A", 0, "B", 0)
    requires FiledAsRouted(v, "A", 0) && FiledAsRouted(v, "B", 0) && FiledFirst(v, "A", 0)
    ensures CreditedOnce(v, "A", 0) && !CreditedOnce(v, "B", 0)
  {
    CreditedExactlyWhenFirst(v, "A", 0);
    SharedSignatureCreditsOne(v, "A", 0, "B", 0);
  }

  lemma TheEnd()
    ensures var v := Stage(11);
            && v.unit == 1 && v.booked == SECOND && v.routes == ROUTES && v.logs == LOGS
            && v.routes["A"] != v.routes["B"] && v.logs["A"] == [BOTH] && v.logs["B"] == [BOTH]
  {}

  /** Reached, caught up, both transfers filed with routes of their own, the second uncredited. */
  lemma OneTransferGoesUncredited()
    ensures var v := Stage(11);
            && Reached(v) && v.unit > 0 && CaughtUp(v) && FiledAsRouted(v, "A", 0) && FiledAsRouted(v, "B", 0)
            && v.routes["A"] != v.routes["B"] && SameSignature(v, "A", 0, "B", 0)
            && CreditedOnce(v, "A", 0) && !CreditedOnce(v, "B", 0)
  {
    EndIsReached();
    EverythingIsPassed();
    TheEnd();
    var v := Stage(11);
    FilingsAre(v);
    ReachedIsWhole(v);
    SecondIsUncredited(v);
  }
}
