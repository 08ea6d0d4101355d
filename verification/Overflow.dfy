/** What happens to deposits when more of them arrive between two polls than one page holds. */
module Overflow {
  import opened Basics
  import opened FundingStates
  import opened Ledger
  import opened Machine
  import opened Watcher
  import opened Intake
  import opened IntakeLaws

  /** Of the creditable entries a poll goes past, the page holds exactly those the node listed:
      all of them just when the backlog fits the page limit. */
  lemma PageMissesExactly(w: World, addr: Address, available: set<Signature>, j: nat)
    requires w.unit > 0 && addr in w.logs && LogOk(w.logs[addr])
    requires Behind(w, addr) <= j < PolledTo(w, addr, available) && Creditable(w, w.logs[addr][j])
    ensures FindingOf(w.logs[addr][j], w.unit).deposit in PageOf(Listed(w, addr), available, w.unit).deposits
            <==> ListedFrom(w, addr) <= j
    ensures NothingSkipped(w, addr) <==> ListedFrom(w, addr) == Behind(w, addr)
  {
    if ListedFrom(w, addr) <= j {
      PolledDeposit(w, addr, available, j);
    } else if FindingOf(w.logs[addr][j], w.unit).deposit in PageOf(Listed(w, addr), available, w.unit).deposits {
      var i := PolledEntry(w, addr, available, FindingOf(w.logs[addr][j], w.unit).deposit);
    }
  }

  predicate Unclaimed(db: Db, sig: Signature) {
    !DepositClaimed(db.intents, sig) && !Taken(db.ledger, UnroutableKey(sig))
  }

  predicate LetsGo(pc: Pc, addr: Address, j: nat, sig: Signature) {
    pc.Idle? || ((forall d :: d in pc.page.deposits ==> d.sig != sig) && (pc.addr == addr ==> j < pc.upto))
  }

  ghost predicate OnlyAt(w: World, addr: Address, sig: Signature) {
    forall b, k :: b in w.logs && 0 <= k < |w.logs[b]| && w.logs[b][k].sig == sig ==> b == addr
  }

  /** The node will not list the entry, and nobody has claimed it or holds it. */
  ghost predicate Missed(w: World, addr: Address, j: nat, sig: Signature) {
    && addr in w.logs && j < ListedFrom(w, addr) && w.logs[addr][j].sig == sig && OnlyAt(w, addr, sig)
    && Unclaimed(w.db, sig)
    && forall p :: 0 <= p < |w.pcs| ==> LetsGo(w.pcs[p], addr, j, sig)
  }

  lemma HopLeavesUnclaimed(db: Db, req: Request, now: int, sig: Signature)
    requires IntakeRequest(db, req) && Unclaimed(db, sig)
    ensures Unclaimed(Apply(db, req, now).0, sig)
  {
    if req.intent in db.intents {
      HopAppends(db, req, now);
      ApplyExtends(db, req, now);
    }
  }

  lemma CreateLeavesUnclaimed(db: Db, o: Opening, now: int, sig: Signature)
    requires DepositOpening(db, o) && o.depositRef != Some(sig) && Unclaimed(db, sig)
    ensures Unclaimed(Create(db, o, now).0, sig)
  {
    AppendRow(db.ledger, CreatedRow(o.id, o.card, o.amount, o.depositRef, now, o.key));
  }

  lemma NoteLeavesUnclaimed(db: Db, key: Key, sig: Signature)
    requires Unclaimed(db, sig) && key != UnroutableKey(sig)
    ensures Unclaimed(Note(db, key), sig)
  {
    AppendRow(db.ledger, NoteRow(Some(key)));
  }

  lemma PollLetsGo(w: World, p: nat, a: Address, available: set<Signature>, addr: Address, j: nat, sig: Signature)
    requires w.unit > 0 && Can(w, Poll(p, a, available)) && LogOk(w.logs[a])
    requires addr in w.logs && j < ListedFrom(w, addr) && w.logs[addr][j].sig == sig && OnlyAt(w, addr, sig)
    ensures LetsGo(Do(w, Poll(p, a, available)).pcs[p], addr, j, sig)
  {
    var page := PageOf(Listed(w, a), available, w.unit);
    forall d | d in page.deposits ensures d.sig != sig {
      var i := PolledEntry(w, a, available, d);
    }
  }

  lemma RecordLeavesUnclaimed(w: World, p: nat, newId: IntentId, now: int, sig: Signature)
    requires w.unit > 0 && Can(w, RecordDeposit(p, newId, now)) && Unclaimed(w.db, sig)
    requires w.pcs[p].page.deposits[0].sig != sig
    ensures Unclaimed(Do(w, RecordDeposit(p, newId, now)).db, sig)
  {
    var pc := w.pcs[p];
    var d := pc.page.deposits[0];
    NoteLeavesUnclaimed(w.db, UnroutableKey(d.sig), sig);
    NoteLeavesUnclaimed(w.db, DuplicateKey(d.sig), sig);
    if pc.addr in w.routes {
      CreateLeavesUnclaimed(w.db, OpeningFor(w.routes[pc.addr], w.currency, d, newId), now, sig);
    }
  }

  lemma StepLeavesUnclaimed(w: World, s: Step, addr: Address, j: nat, sig: Signature)
    requires Base(w) && Can(w, s) && Missed(w, addr, j, sig)
    ensures Unclaimed(Do(w, s).db, sig)
  {
    match s
    case NoteIgnored(p) => NoteLeavesUnclaimed(w.db, IgnoredKey(w.pcs[p].page.ignored[0].sig), sig);
    case RecordDeposit(p, newId, now) =>
      assert LetsGo(w.pcs[p], addr, j, sig);
      RecordLeavesUnclaimed(w, p, newId, now, sig);
    case Confirm(p, now, hit) =>
      assert PcFrom(w, w.pcs[p]);
      HopLeavesUnclaimed(w.db, ConfirmRequest(w.pcs[p].id, w.pcs[p].sig), now, sig);
    case Reconfirm(id, now, hit) =>
      HopLeavesUnclaimed(w.db, ConfirmRequest(id, w.db.intents[id].depositRef.value), now, sig);
    case Elsewhere(req, now, _) => HopLeavesUnclaimed(w.db, req, now, sig);
    case OpenUnpaid(o, now) => CreateLeavesUnclaimed(w.db, o, now, sig);
    case _ =>
  }

  lemma StepLetsGo(w: World, s: Step, p: nat, addr: Address, j: nat, sig: Signature)
    requires w.unit > 0 && Can(w, s) && !s.Poll? && p < |w.pcs| && LetsGo(w.pcs[p], addr, j, sig)
    ensures p < |Do(w, s).pcs| && LetsGo(Do(w, s).pcs[p], addr, j, sig)
  {}

  lemma AllLetGo(w: World, s: Step, addr: Address, j: nat, sig: Signature)
    requires Base(w) && Can(w, s) && Missed(w, addr, j, sig)
    ensures forall p :: 0 <= p < |Do(w, s).pcs| ==> LetsGo(Do(w, s).pcs[p], addr, j, sig)
  {
    if s.Poll? {
      PollLetsGo(w, s.p, s.addr, s.available, addr, j, sig);
      assert forall p :: 0 <= p < |w.pcs| && p != s.p ==> Do(w, s).pcs[p] == w.pcs[p];
    } else {
      forall p | 0 <= p < |Do(w, s).pcs| ensures LetsGo(Do(w, s).pcs[p], addr, j, sig) {
        SameWorkers(w, s);
        StepLetsGo(w, s, p, addr, j, sig);
      }
    }
  }

  lemma SameWorkers(w: World, s: Step)
    requires w.unit > 0 && Can(w, s)
    ensures |Do(w, s).pcs| == |w.pcs|
  {}

  lemma StepKeepsUnlisted(w: World, s: Step, addr: Address, j: nat, sig: Signature)
    requires Base(w) && Can(w, s) && addr in w.logs && j < ListedFrom(w, addr)
    requires forall p :: 0 <= p < |w.pcs| ==> LetsGo(w.pcs[p], addr, j, sig)
    ensures addr in Do(w, s).logs && j < ListedFrom(Do(w, s), addr)
  {
    if s.Land? {
      LandKeepsChain(w, s.addr, s.e);
    } else if s.MoveCursor? {
      assert LetsGo(w.pcs[s.p], addr, j, sig);
      MoveCursorCounts(w, s.p);
    } else {
      SamePositions(w, s);
    }
  }

  lemma SamePositions(w: World, s: Step)
    requires w.unit > 0 && Can(w, s) && !s.Land? && !s.MoveCursor?
    ensures Do(w, s).cursors == w.cursors && Do(w, s).logs == w.logs
  {}

  lemma StillOnlyThere(w: World, s: Step, addr: Address, j: nat, sig: Signature)
    requires w.unit > 0 && Can(w, s) && LandsNot(s, sig)
    requires addr in w.logs && j < |w.logs[addr]| && w.logs[addr][j].sig == sig && OnlyAt(w, addr, sig)
    ensures var v := Do(w, s);
            addr in v.logs && j < |v.logs[addr]| && v.logs[addr][j].sig == sig && OnlyAt(v, addr, sig)
  {
    if !s.Land? && !s.MoveCursor? {
      SamePositions(w, s);
    }
  }

  predicate LandsNot(s: Step, sig: Signature) {
    s.Land? ==> s.e.sig != sig
  }

  lemma StepKeepsMissed(w: World, s: Step, addr: Address, j: nat, sig: Signature)
    requires Base(w) && Can(w, s) && Missed(w, addr, j, sig) && LandsNot(s, sig)
    ensures Missed(Do(w, s), addr, j, sig)
  {
    StepLeavesUnclaimed(w, s, addr, j, sig);
    AllLetGo(w, s, addr, j, sig);
    StepKeepsUnlisted(w, s, addr, j, sig);
    StillOnlyThere(w, s, addr, j, sig);
  }

  /** What the node leaves out is lost for good: no run brings it back, not even one that
      re-polls everything, unless its transaction turns up at another address. */
  lemma {:induction false} MissedIsLost(w: World, steps: seq<Step>, addr: Address, j: nat, sig: Signature)
    requires Base(w) && Runs(w, steps) && Missed(w, addr, j, sig)
    requires forall i :: 0 <= i < |steps| ==> LandsNot(steps[i], sig)
    ensures Missed(Exec(w, steps), addr, j, sig)
    decreases |steps|
  {
    if steps != [] {
      StepKeeps(w, steps[0]);
      assert LandsNot(steps[0], sig);
      StepKeepsMissed(w, steps[0], addr, j, sig);
      MissedIsLost(Do(w, steps[0]), steps[1..], addr, j, sig);
    }
  }

  /** A cursor moved by a page of the address is past the entry. */
  lemma CursorPassesIt(w: World, p: nat, addr: Address, j: nat, sig: Signature)
    requires Base(w) && Missed(w, addr, j, sig) && Can(w, MoveCursor(p))
    requires w.pcs[p].addr == addr && w.pcs[p].page.cursor.Some?
    ensures var v := Do(w, MoveCursor(p)); Missed(v, addr, j, sig) && j < Behind(v, addr)
  {
    StepKeepsMissed(w, MoveCursor(p), addr, j, sig);
    assert LetsGo(w.pcs[p], addr, j, sig) && PcFrom(w, w.pcs[p]);
    PageEndIsPassed(w, p);
  }

  lemma PageEndIsPassed(w: World, p: nat)
    requires w.unit > 0 && ChainOk(w) && Can(w, MoveCursor(p)) && PcFrom(w, w.pcs[p]) && w.pcs[p].page.cursor.Some?
    ensures Behind(Do(w, MoveCursor(p)), w.pcs[p].addr) >= w.pcs[p].upto
  {
    var v, pc := Do(w, MoveCursor(p)), w.pcs[p];
    if v.cursors[pc.addr] == pc.page.cursor.value {
      CountAt(w.logs[pc.addr], pc.upto);
    } else {
      LaterSlotIsFurther(w, pc.addr, pc.upto, pc.page.cursor.value.slot);
    }
  }

  /** A cursor that refuses to go back to a slot is past everything up to it. */
  lemma LaterSlotIsFurther(w: World, addr: Address, upto: nat, slot: int)
    requires ChainOk(w) && addr in w.logs && addr in w.cursors && 0 < upto <= |w.logs[addr]|
    requires w.logs[addr][upto - 1].slot == slot && slot < w.cursors[addr].slot
    ensures upto < Behind(w, addr)
  {
    assert CursorOk(w, addr) && LogOk(w.logs[addr]);
  }

  /** Any poll that finds more than a page, followed in whatever company by its own cursor move,
      passes over every entry the node left out, unless somebody claimed or held it before; and
      what it passes over is lost. */
  lemma OverflowingPollLoses(w: World, p: nat, addr: Address, available: set<Signature>, steps: seq<Step>, j: nat)
    requires Base(w) && Can(w, Poll(p, addr, available)) && Behind(w, addr) <= j < ListedFrom(w, addr)
    requires var sig := w.logs[addr][j].sig;
             && Unclaimed(w.db, sig) && OnlyAt(w, addr, sig)
             && (forall q :: 0 <= q < |w.pcs| ==> LetsGo(w.pcs[q], addr, j, sig))
             && forall i :: 0 <= i < |steps| ==> LandsNot(steps[i], sig)
    requires var v := Do(w, Poll(p, addr, available));
             Runs(v, steps) && var u := Exec(v, steps);
             u.unit > 0 && Can(u, MoveCursor(p)) && u.pcs[p].addr == addr && u.pcs[p].page.cursor.Some?
    ensures !NothingSkipped(w, addr)
    ensures var x := Do(Exec(Do(w, Poll(p, addr, available)), steps), MoveCursor(p));
            Missed(x, addr, j, w.logs[addr][j].sig) && j < Behind(x, addr)
  {
    var sig, poll := w.logs[addr][j].sig, Poll(p, addr, available);
    StepKeeps(w, poll);
    StepKeepsMissed(w, poll, addr, j, sig);
    MissedIsLost(Do(w, poll), steps, addr, j, sig);
    RunKeeps(Do(w, poll), steps);
    CursorPassesIt(Exec(Do(w, poll), steps), p, addr, j, sig);
  }

  // Such an entry is within reach: two transfers land between polls of a one-entry page.

  function Transfer(sig: Signature): Entry {
    Entry(sig, 7, false, Transaction(false, true, Some(0), Some(1)))
  }

  const ARRIVED := [Transfer("first")] + [Transfer("second")]
  const NEWEST := Page([Deposit("second", 7, 1, 1, 0)], [], Some(Position("second", 7)), false)

  function Overflowing(): seq<Step> {
    [Land("A", Transfer("first")), Land("A", Transfer("second")), Poll(0, "A", {"first", "second"}),
     RecordDeposit(0, "id", 0), MoveCursor(0)]
  }

  const NOTED := [NoteRow(Some(UnroutableKey("second")))]
  const BOOKED := [Booking("A", 1, "second", Unrouted(true))]

  function At(log: seq<Entry>, rows: seq<Row>, booked: seq<Booking>, cursors: map<Address, Position>, pc: Pc): World {
    World(1, 1, "USD", map["A" := log], map[], cursors, Db(map[], rows), booked, [pc])
  }

  function Stage(k: nat): World {
    match k
    case 0 => Start(1, 1, "USD", 1)
    case 1 => At([Transfer("first")], [], [], map[], Idle)
    case 2 => At(ARRIVED, [], [], map[], Idle)
    case 3 => At(ARRIVED, [], [], map[], Recording("A", 2, NEWEST))
    case 4 => At(ARRIVED, NOTED, BOOKED, map[], Recording("A", 2, Rest(NEWEST)))
    case _ => At(ARRIVED, NOTED, BOOKED, map["A" := Position("second", 7)], Idle)
  }

  predicate Follows(k: nat) {
    k < 5 && Can(Stage(k), Overflowing()[k]) && Do(Stage(k), Overflowing()[k]) == Stage(k + 1)
  }

  lemma BothLand()
    ensures Follows(0) && Follows(1)
  {
    assert Stage(0).pcs == [Idle];
    var none: seq<Entry> := [];
    assert none + [Transfer("first")] == [Transfer("first")];
    assert Do(Stage(0), Overflowing()[0]).logs == map["A" := [Transfer("first")]];
    assert map["A" := [Transfer("first")]]["A" := ARRIVED] == map["A" := ARRIVED];
  }

  lemma OneIsListed()
    ensures Follows(2)
  {
    var w := Stage(2);
    assert ARRIVED[1..] == [Transfer("second")];
    assert Listed(w, "A") == [Transfer("second")];
    var page := PageOf(Listed(w, "A"), {"first", "second"}, 1);
    assert [Transfer("second")][..1] == [Transfer("second")];
    assert page == NEWEST;
  }

  lemma OneIsRecorded()
    ensures Follows(3) && Follows(4)
  {
    assert PositionOf(Stage(3), "A", "second") == 1 by {
      assert CountThrough(ARRIVED, "second") == 2;
    }
  }

  lemma {:induction false} StagesFollow(k: nat)
    requires k <= 5 && forall j :: k <= j < 5 ==> Follows(j)
    ensures Runs(Stage(k), Overflowing()[k..]) && Exec(Stage(k), Overflowing()[k..]) == Stage(5)
    decreases 5 - k
  {
    if k < 5 {
      assert Follows(k);
      StagesFollow(k + 1);
      assert Overflowing()[k..][1..] == Overflowing()[k + 1..];
    }
  }

  lemma FirstIsMissed()
    ensures var v := Stage(5);
            v.unit == 1 && Missed(v, "A", 0, "first") && 0 < Behind(v, "A") && Creditable(v, v.logs["A"][0])
  {
    assert ARRIVED[1].sig == "second" && ARRIVED[0].sig == "first";
    assert Behind(Stage(5), "A") == 2;
  }

  /** The cursor ends up past the first transfer, which nothing has on record. */
  lemma OverflowPassesOver()
    ensures Runs(Start(1, 1, "USD", 1), Overflowing())
    ensures var v := Exec(Start(1, 1, "USD", 1), Overflowing());
            v.unit == 1 && Missed(v, "A", 0, "first") && 0 < Behind(v, "A") && Creditable(v, v.logs["A"][0])
  {
    BothLand();
    OneIsListed();
    OneIsRecorded();
    StagesFollow(0);
    FirstIsMissed();
    assert Overflowing()[0..] == Overflowing();
  }
}
