/** Receiving webhooks: a volatile claim in front of a durable unique key, under concurrent
    deliveries, crashes and forgetting. */
module Webhooks {

  import opened Basics
  import opened Keys

  datatype Delivery = Delivery(provider: string, event: string)

  /** A committed ledger row; `unmapped` when the body could not be read. */
  datatype Entry = Entry(key: string, unmapped: bool)

  /** What parsing the body did: worked, found it unreadable, or failed in a way it never says. */
  datatype Reading = Parsed | Unreadable | Blows

  /** How a commit ends: well, badly, or well with its caller told otherwise. */
  datatype Commit = Lands | Fails | LandsUnheard

  datatype Pc =
    | Idle
    | Arrived(d: Delivery)
    | Claimed(d: Delivery)
    | Normalized(d: Delivery, unmapped: bool)
    | Releasing(d: Delivery)
    | Recorded(d: Delivery, row: nat)
    | Seen(d: Delivery)

  datatype Answer =
    | Rejected(d: Delivery)
    | Accepted(d: Delivery, row: nat)
    | Duplicate(d: Delivery, original: Option<nat>)

  datatype Dispatched = Dispatched(d: Delivery, row: nat)

  datatype World = World(
    claims: set<string>, rows: seq<Entry>, sent: seq<Dispatched>, answers: seq<Answer>, pcs: seq<Pc>)

  datatype Step =
    | Deliver(p: nat, d: Delivery, authentic: bool)
    | Claim(p: nat)
    | Normalize(p: nat, reading: Reading)
    | Record(p: nat, commit: Commit)
    | Release(p: nat)
    | Dispatch(p: nat)
    | AnswerDuplicate(p: nat, reading: Reading)
    | Crash(p: nat)
    | Forget(claim: string)

  // -------------------------------------------------------------------- keys

  function DedupKey(d: Delivery): string {
    "webhook:dedup:" + Join(d.provider, d.event)
  }

  function LedgerKey(d: Delivery): string {
    "webhook:" + Join(d.provider, d.event)
  }

  /** Provider ids without a colon keep the keys of distinct deliveries apart. */
  lemma KeysAreInjective(a: Delivery, b: Delivery)
    requires ColonFree(a.provider) && ColonFree(b.provider)
    ensures LedgerKey(a) == LedgerKey(b) <==> a == b
    ensures DedupKey(a) == DedupKey(b) <==> a == b
  {
    JoinInjective("webhook:", a.provider, a.event, b.provider, b.event);
    JoinInjective("webhook:dedup:", a.provider, a.event, b.provider, b.event);
  }

  /** A provider id with a colon can share both keys with another provider's delivery. */
  lemma ColonProvidersCollide(p: string, q: string, e: string)
    ensures var a, b := Delivery(Join(p, q), e), Delivery(p, Join(q, e));
            a != b && LedgerKey(a) == LedgerKey(b) && DedupKey(a) == DedupKey(b)
  {
    ColonsCollide(p, q, e);
    assert |Join(p, q)| > |p|;
  }

  // ------------------------------------------------------------------- steps

  predicate Stored(rows: seq<Entry>, key: string) {
    exists r :: 0 <= r < |rows| && rows[r].key == key
  }

  function Find(rows: seq<Entry>, key: string): (r: Option<nat>)
    ensures r.Some? ==> r.value < |rows| && rows[r.value].key == key
    ensures r.None? <==> !Stored(rows, key)
  {
    if rows == [] then None
    else if rows[|rows| - 1].key == key then Some(|rows| - 1)
    else
      var r := Find(rows[..|rows| - 1], key);
      assert Stored(rows, key) ==> Stored(rows[..|rows| - 1], key) by {
        if Stored(rows, key) {
          var k :| 0 <= k < |rows| && rows[k].key == key;
          assert rows[..|rows| - 1][k] == rows[k];
        }
      }
      r
  }

  predicate Can(w: World, s: Step) {
    match s
    case Deliver(p, _, _) => p < |w.pcs| && w.pcs[p].Idle?
    case Claim(p) => p < |w.pcs| && w.pcs[p].Arrived?
    case Normalize(p, _) => p < |w.pcs| && w.pcs[p].Claimed?
    case Record(p, _) => p < |w.pcs| && w.pcs[p].Normalized?
    case Release(p) => p < |w.pcs| && w.pcs[p].Releasing?
    case Dispatch(p) => p < |w.pcs| && w.pcs[p].Recorded?
    case AnswerDuplicate(p, _) => p < |w.pcs| && w.pcs[p].Seen?
    case Crash(p) => p < |w.pcs|
    case Forget(_) => true
  }

  function At(w: World, p: nat, pc: Pc): World
    requires p < |w.pcs|
  {
    w.(pcs := w.pcs[p := pc])
  }

  function Do(w: World, s: Step): World
    requires Can(w, s)
  {
    match s
    case Deliver(p, d, authentic) =>
      if authentic then At(w, p, Arrived(d)) else w.(answers := w.answers + [Rejected(d)])
    case Claim(p) =>
      var d := w.pcs[p].d;
      if DedupKey(d) in w.claims then At(w, p, Seen(d))
      else At(w, p, Claimed(d)).(claims := w.claims + {DedupKey(d)})
    case Normalize(p, reading) =>
      // The claim is held, and nothing here gives it back.
      At(w, p, if reading.Blows? then Idle else Normalized(w.pcs[p].d, reading.Unreadable?))
    case Record(p, commit) =>
      var d := w.pcs[p].d;
      if commit.Fails? then At(w, p, Releasing(d))
      else if Stored(w.rows, LedgerKey(d)) then At(w, p, Seen(d))
      else
        At(w, p, if commit.Lands? then Recorded(d, |w.rows|) else Releasing(d))
        .(rows := w.rows + [Entry(LedgerKey(d), w.pcs[p].unmapped)])
    case Release(p) => At(w, p, Idle).(claims := w.claims - {DedupKey(w.pcs[p].d)})
    case Dispatch(p) =>
      var pc := w.pcs[p];
      At(w, p, Idle).(sent := w.sent + [Dispatched(pc.d, pc.row)], answers := w.answers + [Accepted(pc.d, pc.row)])
    case AnswerDuplicate(p, reading) =>
      var d := w.pcs[p].d;
      if reading.Blows? then At(w, p, Idle)
      else At(w, p, Idle).(answers := w.answers + [Duplicate(d, Find(w.rows, LedgerKey(d)))])
    case Crash(p) => At(w, p, Idle)
    case Forget(claim) => w.(claims := w.claims - {claim})
  }

  ghost predicate Runs(w: World, steps: seq<Step>)
    decreases |steps|
  {
    steps == [] || (Can(w, steps[0]) && Runs(Do(w, steps[0]), steps[1..]))
  }

  ghost function Exec(w: World, steps: seq<Step>): World
    requires Runs(w, steps)
    decreases |steps|
  {
    if steps == [] then w else Exec(Do(w, steps[0]), steps[1..])
  }

  function Start(workers: nat): World {
    World({}, [], [], [], seq(workers, _ => Idle))
  }

  // -------------------------------------------------------------- invariant

  predicate RowIs(rows: seq<Entry>, row: nat, d: Delivery) {
    row < |rows| && rows[row].key == LedgerKey(d)
  }

  ghost predicate UniqueRows(rows: seq<Entry>) {
    forall i, j :: 0 <= i < j < |rows| ==> rows[i].key != rows[j].key
  }

  /** Each committed row has at most one holder: the worker about to dispatch it, or the one
      dispatch it got. */
  ghost predicate Inv(w: World) {
    && UniqueRows(w.rows)
    && (forall p :: 0 <= p < |w.pcs| && w.pcs[p].Recorded? ==> RowIs(w.rows, w.pcs[p].row, w.pcs[p].d))
    && (forall p, q :: 0 <= p < q < |w.pcs| && w.pcs[p].Recorded? && w.pcs[q].Recorded? ==>
       w.pcs[p].row != w.pcs[q].row)
    && (forall k :: 0 <= k < |w.sent| ==> RowIs(w.rows, w.sent[k].row, w.sent[k].d))
    && (forall k, l :: 0 <= k < l < |w.sent| ==> w.sent[k].row != w.sent[l].row)
    && (forall p, k :: 0 <= p < |w.pcs| && w.pcs[p].Recorded? && 0 <= k < |w.sent| ==> w.pcs[p].row != w.sent[k].row)
  }

  predicate AnswerIsTrue(rows: seq<Entry>, a: Answer) {
    match a
    case Rejected(_) => true
    case Accepted(d, row) => RowIs(rows, row, d)
    case Duplicate(d, original) => original.Some? ==> RowIs(rows, original.value, d)
  }

  ghost predicate AnswersTrue(w: World) {
    forall k :: 0 <= k < |w.answers| ==> AnswerIsTrue(w.rows, w.answers[k])
  }

  lemma RecordKeepsInv(w: World, p: nat, commit: Commit)
    requires Inv(w) && Can(w, Record(p, commit))
    ensures Inv(Do(w, Record(p, commit))) && w.rows <= Do(w, Record(p, commit)).rows
  {
    var v, key := Do(w, Record(p, commit)), LedgerKey(w.pcs[p].d);
    assert forall q :: 0 <= q < |v.pcs| && q != p ==> v.pcs[q] == w.pcs[q];
    if !commit.Fails? && !Stored(w.rows, key) {
      assert forall r :: 0 <= r < |w.rows| ==> w.rows[r].key != key;
    }
  }

  lemma DispatchKeepsInv(w: World, p: nat)
    requires Inv(w) && Can(w, Dispatch(p))
    ensures Inv(Do(w, Dispatch(p))) && w.rows <= Do(w, Dispatch(p)).rows
  {
    var v := Do(w, Dispatch(p));
    assert forall q :: 0 <= q < |v.pcs| && q != p ==> v.pcs[q] == w.pcs[q];
  }

  lemma QuietKeepsInv(w: World, v: World)
    requires Inv(w) && v.rows == w.rows && v.sent == w.sent && |v.pcs| == |w.pcs|
    requires forall p :: 0 <= p < |w.pcs| && v.pcs[p].Recorded? ==> v.pcs[p] == w.pcs[p]
    ensures Inv(v)
  {}

  lemma StepKeepsInv(w: World, s: Step)
    requires Inv(w) && Can(w, s)
    ensures Inv(Do(w, s)) && w.rows <= Do(w, s).rows
  {
    match s
    case Record(p, commit) => RecordKeepsInv(w, p, commit);
    case Dispatch(p) => DispatchKeepsInv(w, p);
    case _ => QuietKeepsInv(w, Do(w, s));
  }

  lemma StepKeepsAnswers(w: World, s: Step)
    requires Inv(w) && AnswersTrue(w) && Can(w, s)
    ensures AnswersTrue(Do(w, s))
  {
    StepKeepsInv(w, s);
  }

  lemma {:induction false} RunKeepsInv(w: World, steps: seq<Step>)
    requires Inv(w) && AnswersTrue(w) && Runs(w, steps)
    ensures Inv(Exec(w, steps)) && AnswersTrue(Exec(w, steps)) && w.rows <= Exec(w, steps).rows
    decreases |steps|
  {
    if steps != [] {
      StepKeepsInv(w, steps[0]);
      StepKeepsAnswers(w, steps[0]);
      RunKeepsInv(Do(w, steps[0]), steps[1..]);
    }
  }

  // ------------------------------------------------------------ at most once

  /** Whatever is delivered again, forgotten or crashes: an event has at most one ledger row and
      at most one dispatch, a dispatch has its row, and an answer that says it was recorded is
      right. */
  lemma AtMostOnce(workers: nat, steps: seq<Step>, a: Delivery, b: Delivery)
    requires Runs(Start(workers), steps) && ColonFree(a.provider) && ColonFree(b.provider)
    ensures var v := Exec(Start(workers), steps);
            && AnswersTrue(v)
            && (forall i, j :: RowIs(v.rows, i, a) && RowIs(v.rows, j, b) ==> (i == j <==> a == b))
            && (forall k :: 0 <= k < |v.sent| ==> RowIs(v.rows, v.sent[k].row, v.sent[k].d))
            && (forall k, l :: 0 <= k < |v.sent| && 0 <= l < |v.sent| && v.sent[k].d == a && v.sent[l].d == b ==>
                  (k == l <==> a == b))
  {
    RunKeepsInv(Start(workers), steps);
    KeysAreInjective(a, b);
    var v := Exec(Start(workers), steps);
    forall k, l | 0 <= k < |v.sent| && 0 <= l < |v.sent| && v.sent[k].d == a && v.sent[l].d == b
      ensures k == l <==> a == b
    {
      assert RowIs(v.rows, v.sent[k].row, a) && RowIs(v.rows, v.sent[l].row, b);
    }
  }

  // -------------------------------------------------------- dispatched, or not

  predicate Sent(w: World, row: nat) {
    exists k :: 0 <= k < |w.sent| && w.sent[k].row == row
  }

  predicate HeldFor(w: World, p: nat, row: nat) {
    p < |w.pcs| && w.pcs[p].Recorded? && w.pcs[p].row == row
  }

  predicate InHand(w: World, row: nat) {
    exists p: nat :: p < |w.pcs| && HeldFor(w, p, row)
  }

  /** A row on record that was not dispatched and that nobody is about to dispatch. */
  predicate Abandoned(w: World, row: nat) {
    row < |w.rows| && !Sent(w, row) && !InHand(w, row)
  }

  /** The two ways there: dying between commit and dispatch, or a commit that landed and was
      reported as failed, whose claim is then given back. */
  predicate Abandons(w: World, s: Step, row: nat)
    requires Can(w, s)
  {
    || (s.Crash? && HeldFor(w, s.p, row))
    || (s.Record? && s.commit.LandsUnheard? && !Stored(w.rows, LedgerKey(w.pcs[s.p].d)) && row == |w.rows|)
  }

  lemma HandStays(w: World, s: Step, p: nat, row: nat)
    requires Can(w, s) && HeldFor(w, p, row) && !Abandons(w, s, row)
    ensures Sent(Do(w, s), row) || InHand(Do(w, s), row)
  {
    var v := Do(w, s);
    if s.Dispatch? && s.p == p {
      assert v.sent[|w.sent|].row == row;
    } else {
      assert HeldFor(v, p, row);
    }
  }

  lemma SentStays(w: World, s: Step, row: nat)
    requires Can(w, s) && Sent(w, row)
    ensures Sent(Do(w, s), row)
  {
    var k :| 0 <= k < |w.sent| && w.sent[k].row == row;
    assert Do(w, s).sent[k] == w.sent[k];
  }

  lemma NewRowIsHeld(w: World, s: Step, row: nat)
    requires Can(w, s) && row >= |w.rows| && row < |Do(w, s).rows| && !Abandons(w, s, row)
    ensures InHand(Do(w, s), row)
  {
    assert HeldFor(Do(w, s), s.p, row);
  }

  lemma AbandonedStays(w: World, s: Step, row: nat)
    requires Can(w, s) && Abandoned(w, row)
    ensures Abandoned(Do(w, s), row)
  {
    var v := Do(w, s);
    forall p: nat ensures !HeldFor(v, p, row) {
      assert !HeldFor(w, p, row);
    }
    assert s.Dispatch? ==> !HeldFor(w, s.p, row);
  }

  lemma CrashAbandons(w: World, p: nat, row: nat)
    requires Inv(w) && HeldFor(w, p, row)
    ensures Abandoned(Do(w, Crash(p)), row)
  {
    var v := Do(w, Crash(p));
    forall q | 0 <= q < |v.pcs| ensures !HeldFor(v, q, row) {
      assert q != p ==> v.pcs[q] == w.pcs[q];
    }
  }

  lemma UnheardAbandons(w: World, s: Step)
    requires Inv(w) && Can(w, s) && s.Record? && Abandons(w, s, |w.rows|)
    ensures Abandoned(Do(w, s), |w.rows|)
  {
    var v := Do(w, s);
    forall k | 0 <= k < |v.sent| ensures v.sent[k].row != |w.rows| {
      assert RowIs(w.rows, w.sent[k].row, w.sent[k].d);
    }
  }

  /** A row is abandoned by exactly those two steps, and once it is, for good. */
  lemma StepAbandonsExactly(w: World, s: Step, row: nat)
    requires Inv(w) && Can(w, s)
    ensures Abandoned(Do(w, s), row) <==> Abandoned(w, row) || Abandons(w, s, row)
  {
    if Abandoned(w, row) {
      AbandonedStays(w, s, row);
    } else if Abandons(w, s, row) {
      if s.Crash? {
        CrashAbandons(w, s.p, row);
      } else {
        UnheardAbandons(w, s);
      }
    } else if Abandoned(Do(w, s), row) {
      if row >= |w.rows| {
        NewRowIsHeld(w, s, row);
      } else if Sent(w, row) {
        SentStays(w, s, row);
      } else {
        var p: nat :| HeldFor(w, p, row);
        HandStays(w, s, p, row);
      }
    }
  }

  ghost predicate AbandonedOnTheWay(w: World, steps: seq<Step>, row: nat)
    requires Runs(w, steps)
    decreases |steps|
  {
    steps != [] && (Abandons(w, steps[0], row) || AbandonedOnTheWay(Do(w, steps[0]), steps[1..], row))
  }

  lemma {:induction false} RunAbandonsExactly(w: World, steps: seq<Step>, row: nat)
    requires Inv(w) && Runs(w, steps)
    ensures Abandoned(Exec(w, steps), row) <==> Abandoned(w, row) || AbandonedOnTheWay(w, steps, row)
    decreases |steps|
  {
    if steps != [] {
      StepKeepsInv(w, steps[0]);
      StepAbandonsExactly(w, steps[0], row);
      RunAbandonsExactly(Do(w, steps[0]), steps[1..], row);
    }
  }

  /** In every run a row on record has been dispatched, or its worker is about to, exactly when
      no step abandoned it. */
  lemma DispatchedUnlessAbandoned(workers: nat, steps: seq<Step>, row: nat)
    requires Runs(Start(workers), steps) && row < |Exec(Start(workers), steps).rows|
    ensures var v := Exec(Start(workers), steps);
            Sent(v, row) || InHand(v, row) <==> !AbandonedOnTheWay(Start(workers), steps, row)
  {
    RunAbandonsExactly(Start(workers), steps, row);
  }

  /** An abandoned row is never dispatched: every later delivery of the event is a duplicate. */
  lemma AbandonedForGood(w: World, steps: seq<Step>, row: nat)
    requires Inv(w) && Runs(w, steps) && Abandoned(w, row)
    ensures Abandoned(Exec(w, steps), row)
  {
    RunAbandonsExactly(w, steps, row);
  }

  // ----------------------------------------------------------------- no loss

  predicate Holds(pc: Pc, claim: string) {
    (pc.Claimed? || pc.Normalized? || pc.Releasing?) && DedupKey(pc.d) == claim
  }

  predicate InFlight(w: World, claim: string) {
    exists p :: 0 <= p < |w.pcs| && Holds(w.pcs[p], claim)
  }

  /** The claim is taken, the event is not on record, and nobody is going to record it. */
  predicate Stranded(w: World, d: Delivery) {
    DedupKey(d) in w.claims && !InFlight(w, DedupKey(d)) && !Stored(w.rows, LedgerKey(d))
  }

  /** The two ways a claim is left behind: dying while holding it, or a parser that fails in a
      way the receiver does not expect. */
  predicate LeavesClaim(w: World, s: Step) {
    || (s.Crash? && s.p < |w.pcs| && (w.pcs[s.p].Claimed? || w.pcs[s.p].Normalized? || w.pcs[s.p].Releasing?))
    || (s.Normalize? && s.reading.Blows?)
  }

  predicate KnownProviders(w: World) {
    forall p :: 0 <= p < |w.pcs| && !w.pcs[p].Idle? ==> ColonFree(w.pcs[p].d.provider)
  }

  predicate FromKnown(s: Step) {
    s.Deliver? ==> ColonFree(s.d.provider)
  }

  lemma StoredStays(rows: seq<Entry>, more: seq<Entry>, key: string)
    requires rows <= more && Stored(rows, key)
    ensures Stored(more, key)
  {
    var r :| 0 <= r < |rows| && rows[r].key == key;
    assert more[r].key == key;
  }

  /** Among known providers no claim is stranded, as long as no step leaves one behind. */
  lemma StepStrandsNothing(w: World, s: Step, d: Delivery)
    requires Inv(w) && KnownProviders(w) && Can(w, s) && !LeavesClaim(w, s) && ColonFree(d.provider) && !Stranded(w, d)
    ensures !Stranded(Do(w, s), d)
  {
    StepKeepsInv(w, s);
    if Stored(w.rows, LedgerKey(d)) {
      StoredStays(w.rows, Do(w, s).rows, LedgerKey(d));
    } else if InFlight(w, DedupKey(d)) {
      var p :| 0 <= p < |w.pcs| && Holds(w.pcs[p], DedupKey(d));
      KeysAreInjective(w.pcs[p].d, d);
      HolderGoesOn(w, s, p);
    } else if s.Claim? && DedupKey(w.pcs[s.p].d) == DedupKey(d) {
      assert Holds(Do(w, s).pcs[s.p], DedupKey(d));
    }
  }

  /** A worker holding a claim keeps it in hand, puts its event on record, or gives it back. */
  lemma HolderGoesOn(w: World, s: Step, p: nat)
    requires Can(w, s) && !LeavesClaim(w, s) && p < |w.pcs| && !w.pcs[p].Idle? && Holds(w.pcs[p], DedupKey(w.pcs[p].d))
    ensures var v, d := Do(w, s), w.pcs[p].d;
            InFlight(v, DedupKey(d)) || Stored(v.rows, LedgerKey(d)) || DedupKey(d) !in v.claims
  {
    var v, d := Do(w, s), w.pcs[p].d;
    if s.Record? && s.p == p && !s.commit.Fails? {
      assert Stored(w.rows, LedgerKey(d)) || v.rows[|w.rows|].key == LedgerKey(d);
    } else if !(s.Release? && s.p == p) {
      assert Holds(v.pcs[p], DedupKey(d));
    }
  }

  lemma StepKeepsKnown(w: World, s: Step)
    requires KnownProviders(w) && Can(w, s) && FromKnown(s)
    ensures KnownProviders(Do(w, s))
  {}

  ghost predicate CleanRun(w: World, steps: seq<Step>)
    requires Runs(w, steps)
    decreases |steps|
  {
    steps == [] || (!LeavesClaim(w, steps[0]) && FromKnown(steps[0]) && CleanRun(Do(w, steps[0]), steps[1..]))
  }

  lemma {:induction false} CleanRunBacksClaims(w: World, steps: seq<Step>, d: Delivery)
    requires Inv(w) && KnownProviders(w) && Runs(w, steps) && CleanRun(w, steps)
    requires ColonFree(d.provider) && !Stranded(w, d)
    ensures !Stranded(Exec(w, steps), d)
    decreases |steps|
  {
    if steps != [] {
      StepKeepsInv(w, steps[0]);
      StepKeepsKnown(w, steps[0]);
      StepStrandsNothing(w, steps[0], d);
      CleanRunBacksClaims(Do(w, steps[0]), steps[1..], d);
    }
  }

  /** When no one is left working and no claim was left behind, an event that is not on record
      can be claimed again: its next delivery is recorded and dispatched, not called a duplicate. */
  lemma NothingIsLost(workers: nat, steps: seq<Step>, d: Delivery, p: nat, unmapped: bool)
    requires Runs(Start(workers), steps) && CleanRun(Start(workers), steps) && ColonFree(d.provider) && p < workers
    requires var v := Exec(Start(workers), steps); v.pcs == Start(workers).pcs && !Stored(v.rows, LedgerKey(d))
    ensures var v := Exec(Start(workers), steps); var again := Redelivery(p, d, unmapped);
            Runs(v, again) && Exec(v, again).answers == v.answers + [Accepted(d, |v.rows|)]
            && RowIs(Exec(v, again).rows, |v.rows|, d)
  {
    var w := Start(workers);
    var v := Exec(w, steps);
    assert !Stranded(w, d);
    CleanRunBacksClaims(w, steps, d);
    RedeliveryRuns(v, p, d, unmapped);
  }

  function Redelivery(p: nat, d: Delivery, unmapped: bool): seq<Step> {
    [Deliver(p, d, true), Claim(p), Normalize(p, if unmapped then Unreadable else Parsed), Record(p, Lands),
      Dispatch(p)]
  }

  lemma Prepend(w: World, s: Step, rest: seq<Step>)
    requires Can(w, s) && Runs(Do(w, s), rest)
    ensures Runs(w, [s] + rest) && Exec(w, [s] + rest) == Exec(Do(w, s), rest)
  {
    assert ([s] + rest)[1..] == rest;
  }

  lemma RedeliveryRuns(w: World, p: nat, d: Delivery, unmapped: bool)
    requires p < |w.pcs| && w.pcs[p].Idle? && DedupKey(d) !in w.claims && !Stored(w.rows, LedgerKey(d))
    ensures var again := Redelivery(p, d, unmapped);
            Runs(w, again) && Exec(w, again).answers == w.answers + [Accepted(d, |w.rows|)]
            && RowIs(Exec(w, again).rows, |w.rows|, d)
  {
    var again := Redelivery(p, d, unmapped);
    var w1 := Do(w, again[0]);
    var w2 := Do(w1, again[1]);
    var w3 := Do(w2, again[2]);
    var w4 := Do(w3, again[3]);
    assert again[4..] == [again[4]] + [];
    assert again == [again[0]] + ([again[1]] + ([again[2]] + ([again[3]] + ([again[4]] + []))));
    Prepend(w4, again[4], []);
    Prepend(w3, again[3], [again[4]] + []);
    Prepend(w2, again[2], [again[3]] + ([again[4]] + []));
    Prepend(w1, again[1], [again[2]] + ([again[3]] + ([again[4]] + [])));
    Prepend(w, again[0], [again[1]] + ([again[2]] + ([again[3]] + ([again[4]] + []))));
  }

  /** A stranded claim swallows every redelivery until it expires: each is answered as a
      duplicate of nothing, and the event stays off the record. */
  lemma StrandedSwallows(w: World, p: nat, d: Delivery, reading: Reading)
    requires Stranded(w, d) && p < |w.pcs| && w.pcs[p].Idle? && !reading.Blows?
    ensures var again := [Deliver(p, d, true), Claim(p), AnswerDuplicate(p, reading)];
            Runs(w, again) && Exec(w, again) == w.(answers := w.answers + [Duplicate(d, None)])
  {
    var again := [Deliver(p, d, true), Claim(p), AnswerDuplicate(p, reading)];
    var w1 := Do(w, again[0]);
    var w2 := Do(w1, again[1]);
    assert again == [again[0]] + ([again[1]] + ([again[2]] + []));
    Prepend(w2, again[2], []);
    Prepend(w1, again[1], [again[2]] + []);
    Prepend(w, again[0], [again[1]] + ([again[2]] + []));
    assert Do(w2, again[2]).pcs == w.pcs;
  }

  /** Only until it expires: then the next delivery is recorded and dispatched. */
  lemma ForgettingFrees(w: World, p: nat, d: Delivery, unmapped: bool)
    requires Stranded(w, d) && p < |w.pcs| && w.pcs[p].Idle?
    ensures var v, again := Do(w, Forget(DedupKey(d))), Redelivery(p, d, unmapped);
            !Stranded(v, d) && Runs(v, again) && Exec(v, again).answers == w.answers + [Accepted(d, |w.rows|)]
            && RowIs(Exec(v, again).rows, |w.rows|, d)
  {
    RedeliveryRuns(Do(w, Forget(DedupKey(d))), p, d, unmapped);
  }

  /** Nobody but `p` holds the claim. */
  predicate OnlyHolder(w: World, p: nat, claim: string) {
    p < |w.pcs| && Holds(w.pcs[p], claim) && forall q :: 0 <= q < |w.pcs| && q != p ==> !Holds(w.pcs[q], claim)
  }

  /** The worker a claim-leaving step takes the claim from. */
  predicate LeavesTheClaimOf(w: World, s: Step, d: Delivery) {
    && LeavesClaim(w, s) && OnlyHolder(w, s.p, DedupKey(d))
    && DedupKey(d) in w.claims && !Stored(w.rows, LedgerKey(d))
  }

  lemma LeavingStrands(w: World, s: Step, d: Delivery)
    requires Can(w, s) && LeavesTheClaimOf(w, s, d)
    ensures Stranded(Do(w, s), d)
  {
    var v := Do(w, s);
    assert v.pcs[s.p] == Idle && forall q :: 0 <= q < |v.pcs| && q != s.p ==> v.pcs[q] == w.pcs[q];
  }

  lemma LeavingElsewhere(w: World, s: Step, d: Delivery)
    requires Can(w, s) && LeavesClaim(w, s) && !LeavesTheClaimOf(w, s, d) && !Stranded(w, d)
    ensures !Stranded(Do(w, s), d)
  {
    var v := Do(w, s);
    assert v.rows == w.rows && v.claims == w.claims;
    if InFlight(w, DedupKey(d)) && !OnlyHolder(w, s.p, DedupKey(d)) {
      var p :| 0 <= p < |w.pcs| && Holds(w.pcs[p], DedupKey(d));
      var q :| 0 <= q < |w.pcs| && q != s.p && Holds(w.pcs[q], DedupKey(d));
      assert v.pcs[q] == w.pcs[q];
    }
  }

  /** A claim comes to be stranded exactly when its only holder dies with it, or parses outside
      the guard, before the event is on record. */
  lemma StepStrandsExactly(w: World, s: Step, d: Delivery)
    requires Inv(w) && KnownProviders(w) && Can(w, s) && ColonFree(d.provider) && !Stranded(w, d)
    ensures Stranded(Do(w, s), d) <==> LeavesTheClaimOf(w, s, d)
  {
    if LeavesTheClaimOf(w, s, d) {
      LeavingStrands(w, s, d);
    } else if LeavesClaim(w, s) {
      LeavingElsewhere(w, s, d);
    } else {
      StepStrandsNothing(w, s, d);
    }
  }

  // -------------------------------------------------------------- both together

  ghost predicate NeverAbandons(w: World, steps: seq<Step>)
    requires Runs(w, steps)
  {
    forall row: nat :: !AbandonedOnTheWay(w, steps, row)
  }

  /** The row of an event, and its one dispatch. */
  ghost predicate DispatchedOnce(w: World, d: Delivery) {
    exists k :: 0 <= k < |w.sent| && RowIs(w.rows, w.sent[k].row, d)
      && forall l :: 0 <= l < |w.sent| && RowIs(w.rows, w.sent[l].row, d) ==> l == k
  }

  /** Exactly once: when the workers are done, no claim was left behind and no row abandoned,
      an event is on record and was dispatched exactly once, or its next delivery is accepted. */
  lemma RecordedAndDispatched(workers: nat, steps: seq<Step>, d: Delivery, p: nat, unmapped: bool)
    requires Runs(Start(workers), steps) && CleanRun(Start(workers), steps) && NeverAbandons(Start(workers), steps)
    requires ColonFree(d.provider) && p < workers && Exec(Start(workers), steps).pcs == Start(workers).pcs
    ensures var v := Exec(Start(workers), steps); var again := Redelivery(p, d, unmapped);
            if Stored(v.rows, LedgerKey(d)) then DispatchedOnce(v, d)
            else Runs(v, again) && Exec(v, again).answers == v.answers + [Accepted(d, |v.rows|)]
  {
    var v := Exec(Start(workers), steps);
    if Stored(v.rows, LedgerKey(d)) {
      var row: nat :| row < |v.rows| && v.rows[row].key == LedgerKey(d);
      DispatchedUnlessAbandoned(workers, steps, row);
      assert !AbandonedOnTheWay(Start(workers), steps, row);
      RunKeepsInv(Start(workers), steps);
      SentIsOnce(v, d, row);
    } else {
      NothingIsLost(workers, steps, d, p, unmapped);
    }
  }

  lemma SentIsOnce(v: World, d: Delivery, row: nat)
    requires Inv(v) && Sent(v, row) && RowIs(v.rows, row, d)
    ensures DispatchedOnce(v, d)
  {
    var k :| 0 <= k < |v.sent| && v.sent[k].row == row;
    forall l | 0 <= l < |v.sent| && RowIs(v.rows, v.sent[l].row, d) ensures l == k {
      assert v.rows[v.sent[l].row].key == v.rows[row].key;
    }
  }
}
