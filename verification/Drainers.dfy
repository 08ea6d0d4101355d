/** Any number of drainers on one retry queue. Claiming reads the due items and removes them in
    two separate calls, so two drainers may come to hold the same item. */
module Drainers {
  import opened Basics
  import opened RetryQueue

  /** What a drainer holds: items it has listed and not removed yet, or items it has removed and
      is running one after the other. */
  datatype Hand =
    | Free
    | Listed(items: seq<Item>, now: int)
    | Claimed(items: seq<Item>, now: int)

  function Running(items: seq<Item>, now: int): Hand {
    if items == [] then Free else Claimed(items, now)
  }

  datatype World = World(backoff: Backoff, limit: nat, r: Retries, hands: seq<Hand>)

  /** `ran` is whether a drainer that dies had run the item in hand and not dealt with it. */
  datatype Step =
    | Deliver(event: Event, handler: string, verdict: Verdict, now: int)
    | Range(p: nat, now: int, batch: seq<Item>)
    | Remove(p: nat)
    | RunNext(p: nat, verdict: Verdict)
    | Die(p: nat, ran: bool)

  ghost predicate Can(w: World, s: Step) {
    match s
    // each event is dispatched at most once, so each of its handlers runs inline at most once
    case Deliver(event, handler, verdict, _) => KeyOf(event, handler) !in w.r.runs && !verdict.Gone?
    case Range(p, now, batch) => p < |w.hands| && w.hands[p].Free? && DueBatch(w.r.queue, now, w.limit, batch)
    case Remove(p) => p < |w.hands| && w.hands[p].Listed?
    case RunNext(p, _) => p < |w.hands| && w.hands[p].Claimed? && w.hands[p].items != []
    case Die(p, ran) => p < |w.hands| && (ran ==> w.hands[p].Claimed? && w.hands[p].items != [])
  }

  function At(w: World, p: nat, h: Hand): World
    requires p < |w.hands|
  {
    w.(hands := w.hands[p := h])
  }

  function Do(w: World, s: Step): World
    requires Can(w, s)
  {
    match s
    case Deliver(event, handler, verdict, now) => w.(r := Inline(w.r, event, handler, verdict, now, w.backoff))
    case Range(p, now, batch) => At(w, p, Listed(batch, now))
    case Remove(p) =>
      var h := w.hands[p];
      At(w, p, Running(h.items, h.now)).(r := Without(w.r, h.items))
    case RunNext(p, verdict) =>
      var h := w.hands[p];
      At(w, p, Running(h.items[1..], h.now)).(r := Attempt(w.r, h.items[0], verdict, h.now, w.backoff).0)
    case Die(p, ran) =>
      var h := w.hands[p];
      At(w, p, Free).(r := if ran then Ran(w.r, ItemKey(h.items[0]), h.now) else w.r)
  }

  ghost predicate Runs(w: World, steps: seq<Step>)
    decreases |steps|
  {
    steps == [] || (Can(w, steps[0]) && Runs(Do(w, steps[0]), steps[1..]))
  }

  ghost function Exec(w: World, steps: seq<Step>): World
    requires Runs(w, steps)
    decreases |steps|
  {
    if steps == [] then w else Exec(Do(w, steps[0]), steps[1..])
  }

  function Start(backoff: Backoff, limit: nat, drainers: nat): World {
    World(backoff, limit, NO_RETRIES, seq(drainers, _ => Free))
  }

  lemma Prepend(w: World, s: Step, rest: seq<Step>)
    requires Can(w, s) && Runs(Do(w, s), rest)
    ensures Runs(w, [s] + rest) && Exec(w, [s] + rest) == Exec(Do(w, s), rest)
  {
    assert ([s] + rest)[1..] == rest;
  }

  lemma {:induction false} Join(w: World, first: seq<Step>, second: seq<Step>)
    requires Runs(w, first) && Runs(Exec(w, first), second)
    ensures Runs(w, first + second) && Exec(w, first + second) == Exec(Exec(w, first), second)
    decreases |first|
  {
    if first == [] {
      assert first + second == second;
    } else {
      Join(Do(w, first[0]), first[1..], second);
      Prepend(w, first[0], first[1..] + second);
      assert first + second == [first[0]] + (first[1..] + second);
    }
  }

  // -------------------------------------------------- no two hold one item

  /** No other drainer has listed, and not yet removed, any of what this one lists. */
  predicate Exclusive(w: World, s: Step) {
    s.Range? ==> forall q :: 0 <= q < |w.hands| && q != s.p && w.hands[q].Listed? ==>
      forall item :: item in s.batch ==> item !in w.hands[q].items
  }

  ghost predicate NeverShared(w: World, steps: seq<Step>)
    requires Runs(w, steps)
    decreases |steps|
  {
    steps == [] || (Exclusive(w, steps[0]) && NeverShared(Do(w, steps[0]), steps[1..]))
  }

  /** A live item has run `attempts` times, may run again, and has not been given up on. */
  predicate Live(r: Retries, item: Item, backoff: Backoff) {
    && 1 <= item.attempts <= |backoff| && Stored(item) == item
    && |RunsOf(r, ItemKey(item))| == item.attempts
    && ItemKey(item) !in r.dead
  }

  /** When a live item may run next: its last run plus exactly the next step of the schedule. */
  function NextAt(r: Retries, item: Item, backoff: Backoff): int
    requires Live(r, item, backoff)
  {
    RunsOf(r, ItemKey(item))[item.attempts - 1] + backoff[item.attempts - 1]
  }

  /** Successive runs at least the scheduled wait apart. */
  predicate Spaced(times: seq<int>, backoff: Backoff) {
    && |times| <= MaxAttempts(backoff)
    && forall k :: 0 < k < |times| ==> times[k] >= times[k - 1] + backoff[k - 1]
  }

  ghost predicate QueueOk(w: World) {
    && (forall item :: item in w.r.queue ==>
          Live(w.r, item, w.backoff) && w.r.queue[item] == NextAt(w.r, item, w.backoff))
    && (forall a, b :: a in w.r.queue && b in w.r.queue && ItemKey(a) == ItemKey(b) ==> a == b)
  }

  /** Items held may run now; listed ones are still in the queue, removed ones have no other copy
      in it. */
  ghost predicate HandOk(w: World, h: Hand) {
    h.Free? ||
    (&& (forall i, j :: 0 <= i < j < |h.items| ==> ItemKey(h.items[i]) != ItemKey(h.items[j]))
     && forall item :: item in h.items ==>
          && Live(w.r, item, w.backoff) && NextAt(w.r, item, w.backoff) <= h.now
          && (if h.Listed? then item in w.r.queue else forall other :: other in w.r.queue ==>
             ItemKey(other) != ItemKey(item)))
  }

  ghost predicate Apart(a: Hand, b: Hand) {
    a.Free? || b.Free? || forall x, y :: x in a.items && y in b.items ==> ItemKey(x) != ItemKey(y)
  }

  ghost predicate HandsOk(w: World) {
    && (forall p :: 0 <= p < |w.hands| ==> HandOk(w, w.hands[p]))
    && forall p, q :: 0 <= p < q < |w.hands| ==> Apart(w.hands[p], w.hands[q])
  }

  ghost predicate RunsOk(w: World) {
    forall key :: key in w.r.runs ==> Spaced(w.r.runs[key], w.backoff)
  }

  ghost predicate BuriedOnce(r: Retries) {
    && (forall i :: 0 <= i < |r.buried| ==> r.buried[i] in r.dead)
    && (forall i, j :: 0 <= i < j < |r.buried| ==> r.buried[i] != r.buried[j])
    && (forall key :: key in r.dead ==> key in r.buried && key in r.runs)
  }

  ghost predicate Inv(w: World) {
    QueueOk(w) && HandsOk(w) && RunsOk(w) && BuriedOnce(w.r)
  }

  /** The wait a live item gets is its own step of the schedule: the clamp never bites. */
  lemma ClampNeverBites(attempts: int, backoff: Backoff)
    requires 1 <= attempts <= |backoff|
    ensures DelayFor(attempts, backoff) == backoff[attempts - 1]
  {}

  /** Running one item concerns its own key alone. */
  lemma AttemptFrame(r: Retries, item: Item, verdict: Verdict, now: int, backoff: Backoff, other: Item)
    requires Live(r, item, backoff) && ItemKey(other) != ItemKey(item)
    ensures var after := Attempt(r, item, verdict, now, backoff).0;
            && (Live(after, other, backoff) <==> Live(r, other, backoff))
            && (Live(r, other, backoff) ==> NextAt(after, other, backoff) == NextAt(r, other, backoff))
            && (other in after.queue <==> other in r.queue)
            && (other in r.queue ==> after.queue[other] == r.queue[other])
  {}

  lemma AttemptAgain(r: Retries, item: Item, verdict: Verdict, now: int, backoff: Backoff, other: Item)
    requires Live(r, item, backoff) && ItemKey(other) == ItemKey(item) && other !in r.queue
    ensures var (after, fate) := Attempt(r, item, verdict, now, backoff);
            other in after.queue ==>
              && fate.Rescheduled?
              && other == Stored(item.(attempts := item.attempts + 1, lastError := verdict.error))
              && Live(after, other, backoff) && after.queue[other] == NextAt(after, other, backoff)
  {}

  lemma RunKeepsQueue(w: World, p: nat, verdict: Verdict)
    requires Inv(w) && Can(w, RunNext(p, verdict))
    ensures QueueOk(Do(w, RunNext(p, verdict)))
  {
    var h, v := w.hands[p], Do(w, RunNext(p, verdict));
    var item := h.items[0];
    assert HandOk(w, h) && item in h.items;
    forall other | other in v.r.queue
      ensures Live(v.r, other, w.backoff) && v.r.queue[other] == NextAt(v.r, other, w.backoff)
    {
      if ItemKey(other) == ItemKey(item) {
        AttemptAgain(w.r, item, verdict, h.now, w.backoff, other);
      } else {
        AttemptFrame(w.r, item, verdict, h.now, w.backoff, other);
      }
    }
    forall a, b | a in v.r.queue && b in v.r.queue && ItemKey(a) == ItemKey(b) ensures a == b {
      if ItemKey(a) == ItemKey(item) {
        AttemptAgain(w.r, item, verdict, h.now, w.backoff, a);
        AttemptAgain(w.r, item, verdict, h.now, w.backoff, b);
      } else {
        AttemptFrame(w.r, item, verdict, h.now, w.backoff, a);
        AttemptFrame(w.r, item, verdict, h.now, w.backoff, b);
      }
    }
  }

  /** A hand without the key that ran is as it was. */
  lemma RunLeavesHand(w: World, p: nat, verdict: Verdict, h: Hand)
    requires Inv(w) && Can(w, RunNext(p, verdict)) && HandOk(w, h)
    requires h.Free? || forall x :: x in h.items ==> ItemKey(x) != ItemKey(w.hands[p].items[0])
    ensures HandOk(Do(w, RunNext(p, verdict)), h)
  {
    var item, now := w.hands[p].items[0], w.hands[p].now;
    var v := Do(w, RunNext(p, verdict));
    assert HandOk(w, w.hands[p]) && item in w.hands[p].items;
    if !h.Free? {
      forall x | x in h.items
        ensures Live(v.r, x, w.backoff) && NextAt(v.r, x, w.backoff) <= h.now
        ensures if h.Listed? then x in v.r.queue else forall other :: other in v.r.queue ==>
                ItemKey(other) != ItemKey(x)
      {
        AttemptFrame(w.r, item, verdict, now, w.backoff, x);
        forall other | !h.Listed? && other in v.r.queue ensures ItemKey(other) != ItemKey(x) {
          if ItemKey(other) != ItemKey(item) {
            AttemptFrame(w.r, item, verdict, now, w.backoff, other);
          }
        }
      }
    }
  }

  lemma OthersApart(w: World, p: nat, q: nat)
    requires HandsOk(w) && p < |w.hands| && q < |w.hands| && p != q
    ensures Apart(w.hands[p], w.hands[q]) && Apart(w.hands[q], w.hands[p])
  {
    if p < q {
      assert Apart(w.hands[p], w.hands[q]);
    } else {
      assert Apart(w.hands[q], w.hands[p]);
    }
  }

  lemma RestIsOk(w: World, h: Hand)
    requires HandOk(w, h) && h.Claimed? && h.items != []
    ensures HandOk(w, Running(h.items[1..], h.now))
    ensures forall x :: x in h.items[1..] ==> x in h.items && ItemKey(x) != ItemKey(h.items[0])
  {
    forall x | x in h.items[1..] ensures x in h.items && ItemKey(x) != ItemKey(h.items[0]) {
      var i :| 0 <= i < |h.items[1..]| && h.items[1..][i] == x;
      assert h.items[i + 1] == x;
    }
  }

  lemma RunKeepsHands(w: World, p: nat, verdict: Verdict)
    requires Inv(w) && Can(w, RunNext(p, verdict))
    ensures HandsOk(Do(w, RunNext(p, verdict)))
  {
    var h, v := w.hands[p], Do(w, RunNext(p, verdict));
    assert HandOk(w, h) && h.items[0] in h.items;
    RestIsOk(w, h);
    RunLeavesHand(w, p, verdict, Running(h.items[1..], h.now));
    forall q | 0 <= q < |v.hands| ensures HandOk(v, v.hands[q]) {
      if q != p {
        OthersApart(w, p, q);
        RunLeavesHand(w, p, verdict, w.hands[q]);
      }
    }
    forall q, t | 0 <= q < t < |v.hands| ensures Apart(v.hands[q], v.hands[t]) {
      assert Apart(w.hands[q], w.hands[t]);
    }
  }

  lemma RunKeepsHistory(w: World, p: nat, verdict: Verdict)
    requires Inv(w) && Can(w, RunNext(p, verdict))
    ensures RunsOk(Do(w, RunNext(p, verdict))) && BuriedOnce(Do(w, RunNext(p, verdict)).r)
  {
    assert HandOk(w, w.hands[p]) && w.hands[p].items[0] in w.hands[p].items;
  }

  lemma RunNextKeepsInv(w: World, p: nat, verdict: Verdict)
    requires Inv(w) && Can(w, RunNext(p, verdict))
    ensures Inv(Do(w, RunNext(p, verdict)))
  {
    RunKeepsQueue(w, p, verdict);
    RunKeepsHands(w, p, verdict);
    RunKeepsHistory(w, p, verdict);
  }

  /** What has not run has nothing queued and is in nobody's hands. */
  lemma NothingBeforeTheFirst(w: World, key: Key)
    requires Inv(w) && key !in w.r.runs
    ensures key !in w.r.dead && RunsOf(w.r, key) == []
    ensures forall item :: item in w.r.queue ==> ItemKey(item) != key
    ensures forall p, item :: 0 <= p < |w.hands| && !w.hands[p].Free? && item in w.hands[p].items ==>
            ItemKey(item) != key
  {
    forall item | item in w.r.queue ensures ItemKey(item) != key {
      assert Live(w.r, item, w.backoff);
    }
    forall p, item | 0 <= p < |w.hands| && !w.hands[p].Free? && item in w.hands[p].items ensures ItemKey(item) != key {
      assert HandOk(w, w.hands[p]);
    }
  }

  lemma DeliverLeavesHand(w: World, s: Step, h: Hand)
    requires Inv(w) && s.Deliver? && Can(w, s) && HandOk(w, h)
    requires h.Free? || forall x :: x in h.items ==> ItemKey(x) != KeyOf(s.event, s.handler)
    ensures HandOk(Do(w, s), h)
  {}

  lemma DeliverKeepsInv(w: World, s: Step)
    requires Inv(w) && s.Deliver? && Can(w, s)
    ensures Inv(Do(w, s))
  {
    var v, key := Do(w, s), KeyOf(s.event, s.handler);
    NothingBeforeTheFirst(w, key);
    forall p | 0 <= p < |v.hands| ensures HandOk(v, v.hands[p]) {
      DeliverLeavesHand(w, s, w.hands[p]);
    }
  }

  lemma RangeKeepsInv(w: World, p: nat, now: int, batch: seq<Item>)
    requires Inv(w) && Can(w, Range(p, now, batch)) && Exclusive(w, Range(p, now, batch))
    ensures Inv(Do(w, Range(p, now, batch)))
  {
    var v := Do(w, Range(p, now, batch));
    forall q | 0 <= q < |v.hands| && q != p ensures Apart(v.hands[p], v.hands[q]) && Apart(v.hands[q], v.hands[p]) {
      assert HandOk(w, w.hands[q]);
    }
    forall q | 0 <= q < |v.hands| ensures HandOk(v, v.hands[q]) {
      assert HandOk(w, w.hands[q]);
    }
    forall q, t | 0 <= q < t < |v.hands| ensures Apart(v.hands[q], v.hands[t]) {
      assert Apart(w.hands[q], w.hands[t]);
    }
  }

  lemma RemoveLeavesHand(w: World, p: nat, h: Hand)
    requires Inv(w) && Can(w, Remove(p)) && HandOk(w, h) && Apart(h, w.hands[p])
    ensures HandOk(Do(w, Remove(p)), h)
  {}

  lemma RemoveKeepsInv(w: World, p: nat)
    requires Inv(w) && Can(w, Remove(p))
    ensures Inv(Do(w, Remove(p)))
  {
    var v := Do(w, Remove(p));
    assert HandOk(w, w.hands[p]);
    forall q | 0 <= q < |v.hands| ensures HandOk(v, v.hands[q]) {
      if q != p {
        OthersApart(w, p, q);
        RemoveLeavesHand(w, p, w.hands[q]);
      }
    }
    forall q, t | 0 <= q < t < |v.hands| ensures Apart(v.hands[q], v.hands[t]) {
      assert Apart(w.hands[q], w.hands[t]);
    }
  }

  lemma DieLeavesHand(w: World, p: nat, ran: bool, h: Hand)
    requires Inv(w) && Can(w, Die(p, ran)) && HandOk(w, h) && Apart(h, w.hands[p])
    ensures HandOk(Do(w, Die(p, ran)), h)
  {
    if ran {
      assert w.hands[p].items[0] in w.hands[p].items;
    }
  }

  /** A drainer that dies may have run the item it had in hand, and counts as having. */
  lemma DyingMayHaveRun(w: World, p: nat)
    requires Can(w, Die(p, true))
    ensures var v, key := Do(w, Die(p, true)), ItemKey(w.hands[p].items[0]);
            && |RunsOf(v.r, key)| == |RunsOf(w.r, key)| + 1 && v.hands[p] == Free
            && RunsOf(v.r, key)[|RunsOf(w.r, key)|] == w.hands[p].now
            && Do(w, Die(p, false)).r == w.r
  {}

  lemma DieKeepsTables(w: World, p: nat, ran: bool)
    requires Inv(w) && Can(w, Die(p, ran))
    ensures var v := Do(w, Die(p, ran)); QueueOk(v) && RunsOk(v) && BuriedOnce(v.r)
  {
    if ran {
      assert HandOk(w, w.hands[p]) && w.hands[p].items[0] in w.hands[p].items;
    }
  }

  lemma DieKeepsInv(w: World, p: nat, ran: bool)
    requires Inv(w) && Can(w, Die(p, ran))
    ensures Inv(Do(w, Die(p, ran)))
  {
    var v := Do(w, Die(p, ran));
    DieKeepsTables(w, p, ran);
    forall q | 0 <= q < |v.hands| ensures HandOk(v, v.hands[q]) {
      if q != p {
        OthersApart(w, p, q);
        DieLeavesHand(w, p, ran, w.hands[q]);
      }
    }
    forall q, t | 0 <= q < t < |v.hands| ensures Apart(v.hands[q], v.hands[t]) {
      assert Apart(w.hands[q], w.hands[t]);
    }
  }

  lemma StepKeepsInv(w: World, s: Step)
    requires Inv(w) && Can(w, s) && Exclusive(w, s)
    ensures Inv(Do(w, s))
  {
    match s
    case Deliver(_, _, _, _) => DeliverKeepsInv(w, s);
    case Range(p, now, batch) => RangeKeepsInv(w, p, now, batch);
    case Remove(p) => RemoveKeepsInv(w, p);
    case RunNext(p, verdict) => RunNextKeepsInv(w, p, verdict);
    case Die(p, ran) => DieKeepsInv(w, p, ran);
  }

  lemma {:induction false} RunKeepsInv(w: World, steps: seq<Step>)
    requires Inv(w) && Runs(w, steps) && NeverShared(w, steps)
    ensures Inv(Exec(w, steps)) && Exec(w, steps).backoff == w.backoff
    decreases |steps|
  {
    if steps != [] {
      StepKeepsInv(w, steps[0]);
      RunKeepsInv(Do(w, steps[0]), steps[1..]);
    }
  }

  lemma LiveInHand(w: World, p: nat, item: Item)
    requires Inv(w) && p < |w.hands| && !w.hands[p].Free? && item in w.hands[p].items
    ensures Live(w.r, item, w.backoff)
  {
    assert HandOk(w, w.hands[p]);
  }

  /** However handlers fail, drainers die and deliveries interleave: as long as no two drainers
      list one item at once, each handler of each event runs at most once inline and once per
      step of the schedule, never sooner than the schedule says; a queued item is due at its last
      run plus exactly its own step; and it is buried at most once, and never held or queued after. */
  lemma AttemptsAreBounded(backoff: Backoff, limit: nat, drainers: nat, steps: seq<Step>, key: Key)
    requires Runs(Start(backoff, limit, drainers), steps) && NeverShared(Start(backoff, limit, drainers), steps)
    ensures var v := Exec(Start(backoff, limit, drainers), steps); var times := RunsOf(v.r, key);
            && |times| <= |backoff| + 1
            && (forall k :: 0 < k < |times| ==> times[k] >= times[k - 1] + backoff[k - 1])
            && (forall item :: item in v.r.queue && ItemKey(item) == key ==>
                  1 <= |times| == item.attempts <= |backoff|
                  && v.r.queue[item] == times[|times| - 1] + backoff[item.attempts - 1])
            && (forall i, j :: 0 <= i < j < |v.r.buried| ==> !(v.r.buried[i] == key && v.r.buried[j] == key))
            && (key in v.r.dead ==>
                  && key in v.r.buried && (forall item :: item in v.r.queue ==> ItemKey(item) != key)
                  && forall p, item :: 0 <= p < |v.hands| && !v.hands[p].Free? && item in v.hands[p].items ==>
                     ItemKey(item) != key)
  {
    RunKeepsInv(Start(backoff, limit, drainers), steps);
    var v := Exec(Start(backoff, limit, drainers), steps);
    forall item | item in v.r.queue && ItemKey(item) == key
      ensures Live(v.r, item, backoff) && v.r.queue[item] == NextAt(v.r, item, backoff)
    {}
    forall p, item | 0 <= p < |v.hands| && !v.hands[p].Free? && item in v.hands[p].items
      ensures ItemKey(item) !in v.r.dead
    {
      LiveInHand(v, p, item);
    }
  }

  /** One drainer never shares. */
  lemma {:induction false} LoneDrainerNeverShares(w: World, steps: seq<Step>)
    requires |w.hands| <= 1 && Runs(w, steps)
    ensures NeverShared(w, steps)
    decreases |steps|
  {
    if steps != [] {
      LoneDrainerNeverShares(Do(w, steps[0]), steps[1..]);
    }
  }

  // ------------------------------------------------------------- kept, or lost

  predicate Queued(w: World, key: Key) {
    exists item :: item in w.r.queue && ItemKey(item) == key
  }

  predicate Carries(h: Hand, key: Key) {
    h.Claimed? && exists item :: item in h.items && ItemKey(item) == key
  }

  predicate Carried(w: World, key: Key) {
    exists p :: 0 <= p < |w.hands| && Carries(w.hands[p], key)
  }

  /** To be retried, being retried, or dead-lettered. */
  predicate Kept(w: World, key: Key) {
    Queued(w, key) || Carried(w, key) || key in w.r.dead
  }

  /** The three ways a handler's retries end elsewhere: it works when the event is delivered, it
      works on a retry, or a drainer dies holding it. */
  ghost predicate Ends(w: World, s: Step, key: Key)
    requires Can(w, s)
  {
    match s
    case Deliver(event, handler, verdict, _) => KeyOf(event, handler) == key && verdict.Works?
    case RunNext(p, verdict) => ItemKey(w.hands[p].items[0]) == key && verdict.Works?
    case Die(p, _) => Carries(w.hands[p], key)
    case _ => false
  }

  lemma DeliverEnds(w: World, s: Step, key: Key)
    requires Inv(w) && s.Deliver? && Can(w, s)
    ensures var v := Do(w, s);
            && v.r.dead == w.r.dead && v.hands == w.hands
            && (Queued(v, key) <==> Queued(w, key) || (KeyOf(s.event, s.handler) == key && s.verdict.Fails?))
  {
    var v := Do(w, s);
    if s.verdict.Fails? {
      var y := Stored(Item(s.event, s.handler, 1, s.verdict.error));
      assert forall item :: item in v.r.queue <==> item in w.r.queue || item == y;
      assert y in v.r.queue && ItemKey(y) == KeyOf(s.event, s.handler);
    }
  }

  lemma RemoveKeeps(w: World, p: nat, key: Key)
    requires Inv(w) && Can(w, Remove(p))
    ensures var v := Do(w, Remove(p)); Kept(v, key) <==> Kept(w, key)
  {
    var v, h := Do(w, Remove(p)), w.hands[p];
    assert HandOk(w, h);
    assert forall q :: 0 <= q < |w.hands| && q != p ==> v.hands[q] == w.hands[q];
    if Kept(w, key) {
      RemovedIsCarried(w, p, key);
    } else if Kept(v, key) {
      CarriedWasQueued(w, p, key);
    }
  }

  lemma RemovedIsCarried(w: World, p: nat, key: Key)
    requires Can(w, Remove(p)) && Kept(w, key)
    ensures Kept(Do(w, Remove(p)), key)
  {
    var v, h := Do(w, Remove(p)), w.hands[p];
    if Queued(w, key) {
      var item :| item in w.r.queue && ItemKey(item) == key;
      assert item in v.r.queue || Carries(v.hands[p], key);
    } else if Carried(w, key) {
      var q :| 0 <= q < |w.hands| && Carries(w.hands[q], key);
      assert Carries(v.hands[q], key);
    }
  }

  lemma CarriedWasQueued(w: World, p: nat, key: Key)
    requires Can(w, Remove(p)) && Kept(Do(w, Remove(p)), key)
    requires forall item :: item in w.hands[p].items ==> item in w.r.queue
    ensures Kept(w, key)
  {
    var v, h := Do(w, Remove(p)), w.hands[p];
    if Carried(v, key) {
      var q :| 0 <= q < |v.hands| && Carries(v.hands[q], key);
      if q != p {
        assert Carries(w.hands[q], key);
      }
    }
  }

  lemma HandsApart(w: World, p: nat, q: nat, key: Key)
    requires HandsOk(w) && p < |w.hands| && q < |w.hands| && Carries(w.hands[p], key) && Carries(w.hands[q], key)
    ensures p == q
  {
    if p != q {
      OthersApart(w, p, q);
    }
  }

  /** A retry of something else leaves the key where it was. */
  lemma OtherRunKeeps(w: World, p: nat, verdict: Verdict, key: Key)
    requires Inv(w) && Can(w, RunNext(p, verdict)) && ItemKey(w.hands[p].items[0]) != key
    ensures var v := Do(w, RunNext(p, verdict)); Kept(v, key) <==> Kept(w, key)
  {
    var v, h := Do(w, RunNext(p, verdict)), w.hands[p];
    var x := h.items[0];
    assert HandOk(w, h) && x in h.items;
    forall item | ItemKey(item) == key ensures item in v.r.queue <==> item in w.r.queue {
      AttemptFrame(w.r, x, verdict, h.now, w.backoff, item);
    }
    CarriedByRest(w, p, verdict, key);
  }

  lemma CarriedByRest(w: World, p: nat, verdict: Verdict, key: Key)
    requires Can(w, RunNext(p, verdict)) && ItemKey(w.hands[p].items[0]) != key
    ensures Carried(Do(w, RunNext(p, verdict)), key) <==> Carried(w, key)
  {
    var v, h := Do(w, RunNext(p, verdict)), w.hands[p];
    assert forall item :: item in h.items <==> item == h.items[0] || item in h.items[1..];
    assert Carries(v.hands[p], key) <==> Carries(h, key);
    assert forall q :: 0 <= q < |w.hands| && q != p ==> v.hands[q] == w.hands[q];
  }

  /** A retry of the key itself: kept exactly when the handler does not work. */
  lemma OwnRunKeeps(w: World, p: nat, verdict: Verdict)
    requires Inv(w) && Can(w, RunNext(p, verdict))
    ensures var key := ItemKey(w.hands[p].items[0]);
            Kept(Do(w, RunNext(p, verdict)), key) <==> !verdict.Works?
  {
    var v, h := Do(w, RunNext(p, verdict)), w.hands[p];
    var x, key := h.items[0], ItemKey(h.items[0]);
    assert HandOk(w, h) && x in h.items && Live(w.r, x, w.backoff);
    RestIsOk(w, h);
    if verdict.Works? {
      assert v.r.queue == w.r.queue && v.r.dead == w.r.dead;
      if q :| 0 <= q < |v.hands| && Carries(v.hands[q], key) {
        assert q != p && v.hands[q] == w.hands[q];
        HandsApart(w, p, q, key);
      }
    } else if verdict.Fails? && x.attempts < |w.backoff| {
      var y := Stored(x.(attempts := x.attempts + 1, lastError := verdict.error));
      assert y in v.r.queue && ItemKey(y) == key;
    }
  }

  lemma DieKeeps(w: World, p: nat, ran: bool, key: Key)
    requires Inv(w) && Can(w, Die(p, ran))
    ensures var v := Do(w, Die(p, ran)); Kept(v, key) <==> Kept(w, key) && !Carries(w.hands[p], key)
  {
    var v, h := Do(w, Die(p, ran)), w.hands[p];
    assert v.r.queue == w.r.queue && v.r.dead == w.r.dead;
    if Carries(h, key) {
      assert HandOk(w, h);
      var item :| item in h.items && ItemKey(item) == key;
      assert Live(w.r, item, w.backoff);
      if q :| 0 <= q < |v.hands| && Carries(v.hands[q], key) {
        assert q != p && v.hands[q] == w.hands[q];
        HandsApart(w, p, q, key);
      }
    } else {
      assert forall q :: 0 <= q < |w.hands| ==> (Carries(v.hands[q], key) <==> Carries(w.hands[q], key));
    }
  }

  /** A handler that has run is to be retried, being retried or dead-lettered, until it works or a
      drainer dies holding it: no other step ends its retries, and each of these does. */
  lemma StepEndsExactly(w: World, s: Step, key: Key)
    requires Inv(w) && Can(w, s)
    ensures var v := Do(w, s);
            (key in v.r.runs && !Kept(v, key)) <==> (key in w.r.runs && !Kept(w, key)) || Ends(w, s, key)
  {
    if key !in w.r.runs {
      NothingBeforeTheFirst(w, key);
    }
    match s
    case Deliver(_, _, _, _) => DeliverEnds(w, s, key);
    case Range(p, _, _) => RangeKeepsCarried(w, s, key);
    case Remove(p) => RemoveKeeps(w, p, key);
    case RunNext(p, verdict) => RunNextEnds(w, p, verdict, key);
    case Die(p, ran) => DieEnds(w, p, ran, key);
  }

  lemma RangeKeepsCarried(w: World, s: Step, key: Key)
    requires s.Range? && Can(w, s)
    ensures Carried(Do(w, s), key) <==> Carried(w, key)
  {
    var v := Do(w, s);
    assert forall q :: 0 <= q < |w.hands| ==> (Carries(v.hands[q], key) <==> Carries(w.hands[q], key));
  }

  lemma RunNextEnds(w: World, p: nat, verdict: Verdict, key: Key)
    requires Inv(w) && Can(w, RunNext(p, verdict))
    ensures var s := RunNext(p, verdict); var v := Do(w, s);
            (key in v.r.runs && !Kept(v, key)) <==> (key in w.r.runs && !Kept(w, key)) || Ends(w, s, key)
  {
    var h := w.hands[p];
    assert HandOk(w, h) && h.items[0] in h.items && Live(w.r, h.items[0], w.backoff);
    if ItemKey(h.items[0]) == key {
      assert Carries(h, key);
      OwnRunKeeps(w, p, verdict);
    } else {
      OtherRunKeeps(w, p, verdict, key);
    }
  }

  lemma DieEnds(w: World, p: nat, ran: bool, key: Key)
    requires Inv(w) && Can(w, Die(p, ran))
    ensures var s := Die(p, ran); var v := Do(w, s);
            (key in v.r.runs && !Kept(v, key)) <==> (key in w.r.runs && !Kept(w, key)) || Ends(w, s, key)
  {
    DieKeeps(w, p, ran, key);
    assert HandOk(w, w.hands[p]);
    if Carries(w.hands[p], key) {
      var item :| item in w.hands[p].items && ItemKey(item) == key;
      assert Live(w.r, item, w.backoff);
    }
    if ran {
      assert w.hands[p].items[0] in w.hands[p].items && Live(w.r, w.hands[p].items[0], w.backoff);
    }
  }

  ghost predicate EndedOnTheWay(w: World, steps: seq<Step>, key: Key)
    requires Runs(w, steps)
    decreases |steps|
  {
    steps != [] && (Ends(w, steps[0], key) || EndedOnTheWay(Do(w, steps[0]), steps[1..], key))
  }

  lemma {:induction false} RunEndsExactly(w: World, steps: seq<Step>, key: Key)
    requires Inv(w) && Runs(w, steps) && NeverShared(w, steps)
    ensures var v := Exec(w, steps);
            (key in v.r.runs && !Kept(v, key)) <==> (key in w.r.runs && !Kept(w, key)) || EndedOnTheWay(w, steps, key)
    decreases |steps|
  {
    if steps != [] {
      StepKeepsInv(w, steps[0]);
      StepEndsExactly(w, steps[0], key);
      RunEndsExactly(Do(w, steps[0]), steps[1..], key);
    }
  }

  /** Nothing that failed is dropped: in every run of drainers that share no item, a handler that
      has run is queued, in hand or dead-lettered exactly when it has not worked and no drainer
      died holding it. */
  lemma FailedIsKept(backoff: Backoff, limit: nat, drainers: nat, steps: seq<Step>, key: Key)
    requires Runs(Start(backoff, limit, drainers), steps) && NeverShared(Start(backoff, limit, drainers), steps)
    requires key in Exec(Start(backoff, limit, drainers), steps).r.runs
    ensures Kept(Exec(Start(backoff, limit, drainers), steps), key)
            <==> !EndedOnTheWay(Start(backoff, limit, drainers), steps, key)
  {
    RunEndsExactly(Start(backoff, limit, drainers), steps, key);
  }

  // ----------------------------------------------- the drainer's own sequence

  function RunSteps(p: nat, items: seq<Item>, verdicts: Key -> Verdict): seq<Step> {
    if items == [] then [] else [RunNext(p, verdicts(ItemKey(items[0])))] + RunSteps(p, items[1..], verdicts)
  }

  lemma {:induction false} HandIsRun(w: World, p: nat, verdicts: Key -> Verdict, d: Drain)
    requires p < |w.hands| && w.hands[p].Claimed? && w.hands[p].items != []
    ensures var h := w.hands[p]; var steps := RunSteps(p, h.items, verdicts);
            Runs(w, steps)
            && Exec(w, steps) == At(w, p, Free).(r := DrainAll(w.r, h.items, verdicts, h.now, w.backoff, d).0)
    decreases |w.hands[p].items|
  {
    var h := w.hands[p];
    var s := RunNext(p, verdicts(ItemKey(h.items[0])));
    var (after, fate) := Attempt(w.r, h.items[0], s.verdict, h.now, w.backoff);
    if |h.items| == 1 {
      assert RunSteps(p, h.items, verdicts) == [s] + [];
      Prepend(w, s, []);
    } else {
      HandIsRun(Do(w, s), p, verdicts, Sorted(d, h.items[0], fate));
      Prepend(w, s, RunSteps(p, h.items[1..], verdicts));
    }
  }

  /** A drain nobody disturbs is a listing, a removal and a run for each item. */
  lemma DrainIsRuns(w: World, p: nat, batch: seq<Item>, verdicts: Key -> Verdict, now: int)
    requires Can(w, Range(p, now, batch))
    ensures var steps := [Range(p, now, batch)] + ([Remove(p)] + RunSteps(p, batch, verdicts));
            Runs(w, steps)
            && Exec(w, steps)
               == w.(r := DrainAll(Without(w.r, batch), batch, verdicts, now, w.backoff, Drain([], [], [])).0)
  {
    var listed := Do(w, Range(p, now, batch));
    var removed := Do(listed, Remove(p));
    if batch != [] {
      HandIsRun(removed, p, verdicts, Drain([], [], []));
    }
    Prepend(listed, Remove(p), RunSteps(p, batch, verdicts));
    Prepend(w, Range(p, now, batch), [Remove(p)] + RunSteps(p, batch, verdicts));
    assert Exec(removed, RunSteps(p, batch, verdicts)).hands == w.hands;
  }

  /** Dispatching is one inline attempt for each handler, in order. */
  lemma {:induction false} DispatchIsDeliveries(
    w: World, event: Event, handlers: seq<string>, trouble: Trouble, now: int)
    requires forall i :: 0 <= i < |handlers| ==> KeyOf(event, handlers[i]) !in w.r.runs
    requires forall i, j :: 0 <= i < j < |handlers| ==> handlers[i] != handlers[j]
    ensures var steps := Deliveries(event, handlers, trouble, now);
            Runs(w, steps) && Exec(w, steps) == w.(r := DispatchAll(w.r, event, handlers, trouble, now, w.backoff))
    decreases |handlers|
  {
    if handlers != [] {
      var rest, s := handlers[1..], Deliver(event, handlers[0], VerdictOf(trouble(handlers[0])), now);
      var v := Do(w, s);
      forall i | 0 <= i < |rest| ensures KeyOf(event, rest[i]) !in v.r.runs {
        assert rest[i] == handlers[i + 1];
      }
      DispatchIsDeliveries(v, event, rest, trouble, now);
      Prepend(w, s, Deliveries(event, rest, trouble, now));
    }
  }

  function Deliveries(event: Event, handlers: seq<string>, trouble: Trouble, now: int): seq<Step> {
    if handlers == [] then []
    else
      [Deliver(event, handlers[0], VerdictOf(trouble(handlers[0])), now)]
      + Deliveries(event, handlers[1..], trouble, now)
  }
}
