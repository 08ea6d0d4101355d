/** What drainers make of a failing item when two of them may hold it: each runs its own copy, and
    two copies that fail differently come back as two items. */
module Copies {
  import opened Basics
  import opened RetryQueue
  import opened Drainers

  /** Runs that one copy can lead to, with `left` steps of the schedule ahead of it. */
  function Copies(drainers: nat, left: nat): (n: nat)
    ensures n > 0
  {
    if left == 0 then 1 else 1 + drainers * Copies(drainers, left - 1)
  }

  ghost predicate Adds(f: Item -> int) {
    forall item :: f(item) >= 0
  }

  /** What one copy of an item can still add to the runs of `key`. */
  function Ahead(w: World, key: Key): (f: Item -> int)
    ensures Adds(f)
  {
    AheadOf(|w.hands|, |w.backoff|, key)
  }

  function AheadOf(drainers: nat, steps: nat, key: Key): (f: Item -> int)
    ensures Adds(f)
  {
    (item: Item) =>
      if ItemKey(item) == key && item.attempts <= steps then Copies(drainers, steps - item.attempts) else 0
  }

  function Listings(h: Hand): seq<Item> {
    if h.Listed? then h.items else []
  }

  function Holding(h: Hand): seq<Item> {
    if h.Free? then [] else h.items
  }

  function Held(items: seq<Item>, f: Item -> int): int {
    if items == [] then 0 else f(items[0]) + Held(items[1..], f)
  }

  /** What one drainer can still add: the copies it holds, and one of each queued item it has not
      listed already. */
  ghost function Share(h: Hand, queue: set<Item>, f: Item -> int): int {
    Held(Holding(h), f) + Sum(queue - Set(Listings(h)), f)
  }

  function Set(items: seq<Item>): set<Item> {
    set item | item in items
  }

  ghost function Total(hands: seq<Hand>, queue: set<Item>, f: Item -> int): int {
    if hands == [] then 0
    else Total(hands[..|hands| - 1], queue, f) + Share(hands[|hands| - 1], queue, f)
  }

  // ------------------------------------------------------------ about shares

  lemma SumIsNat(s: set<Item>, f: Item -> int)
    requires Adds(f)
    ensures Sum(s, f) >= 0
  {
    SumGrows({}, s, f);
  }

  lemma SumWith(s: set<Item>, f: Item -> int, x: Item)
    requires f(x) >= 0
    ensures Sum(s, f) <= Sum(s - {x}, f) + f(x)
    ensures x in s ==> Sum(s, f) == Sum(s - {x}, f) + f(x)
    ensures x !in s ==> Sum(s + {x}, f) == Sum(s, f) + f(x)
  {
    if x in s {
      SumTakes(s, f, x);
    } else {
      SumTakes(s + {x}, f, x);
      assert s + {x} - {x} == s && s - {x} == s;
    }
  }

  /** Listing adds nothing, and neither does giving a listing up. */
  lemma {:induction false} ListingAddsNothing(items: seq<Item>, queue: set<Item>, f: Item -> int)
    requires Adds(f)
    ensures Sum(queue, f) <= Held(items, f) + Sum(queue - Set(items), f)
    ensures (forall i :: 0 <= i < |items| ==> items[i] in queue)
            && (forall i, j :: 0 <= i < j < |items| ==> items[i] != items[j]) ==>
              Sum(queue, f) == Held(items, f) + Sum(queue - Set(items), f)
    decreases |items|
  {
    if items == [] {
      assert queue - Set(items) == queue;
    } else {
      var x, rest := items[0], items[1..];
      SumWith(queue, f, x);
      ListingAddsNothing(rest, queue - {x}, f);
      assert queue - {x} - Set(rest) == queue - Set(items);
    }
  }

  lemma {:induction false} HeldIsNat(items: seq<Item>, f: Item -> int)
    requires Adds(f)
    ensures Held(items, f) >= 0
  {
    if items != [] {
      HeldIsNat(items[1..], f);
    }
  }

  lemma {:induction false} TotalIsNat(hands: seq<Hand>, queue: set<Item>, f: Item -> int)
    requires Adds(f)
    ensures Total(hands, queue, f) >= 0
  {
    if hands != [] {
      HeldIsNat(Holding(hands[|hands| - 1]), f);
      TotalIsNat(hands[..|hands| - 1], queue, f);
      SumIsNat(queue - Set(Listings(hands[|hands| - 1])), f);
    }
  }

  lemma {:induction false} OneHandChanges(hands: seq<Hand>, p: nat, h: Hand, queue: set<Item>, f: Item -> int)
    requires p < |hands|
    ensures Total(hands[p := h], queue, f) == Total(hands, queue, f) - Share(hands[p], queue, f) + Share(h, queue, f)
  {
    var n := |hands| - 1;
    if p == n {
      assert hands[p := h][..n] == hands[..n];
    } else {
      OneHandChanges(hands[..n], p, h, queue, f);
      assert hands[p := h][..n] == hands[..n][p := h];
    }
  }

  lemma {:induction false} QueueShrinks(hands: seq<Hand>, less: set<Item>, queue: set<Item>, f: Item -> int)
    requires less <= queue && Adds(f)
    ensures Total(hands, less, f) <= Total(hands, queue, f)
  {
    if hands != [] {
      var listed := Set(Listings(hands[|hands| - 1]));
      QueueShrinks(hands[..|hands| - 1], less, queue, f);
      SumGrows(less - listed, queue - listed, f);
    }
  }

  /** A new item gives each drainer one more copy at most. */
  lemma {:induction false} QueueGrows(hands: seq<Hand>, queue: set<Item>, f: Item -> int, x: Item)
    requires f(x) >= 0
    ensures Total(hands, queue + {x}, f) <= Total(hands, queue, f) + |hands| * f(x)
  {
    if hands != [] {
      var n := |hands| - 1;
      QueueGrows(hands[..n], queue, f, x);
      ShareGrows(hands[n], queue, f, x);
      OneMore(n, f(x));
    }
  }

  /** And one more exactly, when it is new and nobody has it listed. */
  lemma {:induction false} QueueGrowsForAll(hands: seq<Hand>, queue: set<Item>, f: Item -> int, x: Item)
    requires f(x) >= 0 && x !in queue && forall p :: 0 <= p < |hands| ==> !hands[p].Listed?
    ensures Total(hands, queue + {x}, f) == Total(hands, queue, f) + |hands| * f(x)
  {
    if hands != [] {
      var n := |hands| - 1;
      QueueGrowsForAll(hands[..n], queue, f, x);
      ShareGrows(hands[n], queue, f, x);
      OneMore(n, f(x));
    }
  }

  lemma OneMore(n: int, x: int)
    ensures (n + 1) * x == n * x + x
  {}

  lemma ShareGrows(h: Hand, queue: set<Item>, f: Item -> int, x: Item)
    requires f(x) >= 0
    ensures Share(h, queue + {x}, f) <= Share(h, queue, f) + f(x)
    ensures x !in queue && !h.Listed? ==> Share(h, queue + {x}, f) == Share(h, queue, f) + f(x)
  {
    var listed := Set(Listings(h));
    SumWith(queue - listed, f, x);
    if x in queue + {x} - listed {
      assert queue + {x} - listed == (queue - listed) + {x};
      if x in queue {
        assert queue + {x} == queue;
      }
    } else {
      assert queue + {x} - listed == queue - listed;
    }
  }

  lemma {:induction false} AllAlike(hands: seq<Hand>, h: Hand, queue: set<Item>, f: Item -> int)
    requires forall p :: 0 <= p < |hands| ==> hands[p] == h
    ensures Total(hands, queue, f) == |hands| * Share(h, queue, f)
  {
    if hands != [] {
      AllAlike(hands[..|hands| - 1], h, queue, f);
      OneMore(|hands| - 1, Share(h, queue, f));
    }
  }

  // ---------------------------------------------------------------- the bound

  function Count(w: World, key: Key): nat {
    |RunsOf(w.r, key)|
  }

  ghost function Potential(w: World, key: Key): int {
    Total(w.hands, w.r.queue.Keys, Ahead(w, key))
  }

  /** Nothing queued or held has been through more than the schedule. */
  ghost predicate OnSchedule(w: World) {
    && (forall item :: item in w.r.queue ==> 1 <= item.attempts <= |w.backoff|)
    && (forall p, i :: 0 <= p < |w.hands| && 0 <= i < |Holding(w.hands[p])| ==>
          1 <= Holding(w.hands[p])[i].attempts <= |w.backoff|)
  }

  lemma StepKeepsSchedule(w: World, s: Step)
    requires OnSchedule(w) && Can(w, s)
    ensures OnSchedule(Do(w, s)) && |Do(w, s).hands| == |w.hands| && Do(w, s).backoff == w.backoff
  {
    var v := Do(w, s);
    forall item | item in v.r.queue ensures 1 <= item.attempts <= |w.backoff| {
      if s.RunNext? {
        assert Holding(w.hands[s.p])[0].attempts >= 1;
      }
    }
    forall p, i | 0 <= p < |v.hands| && 0 <= i < |Holding(v.hands[p])|
      ensures 1 <= Holding(v.hands[p])[i].attempts <= |w.backoff|
    {
      if v.hands[p] == w.hands[p] {
        assert Holding(w.hands[p])[i] == Holding(v.hands[p])[i];
      } else if s.Remove? {
        assert Holding(w.hands[p])[i] == Holding(v.hands[p])[i];
      } else if s.RunNext? {
        assert Holding(w.hands[p])[i + 1] == Holding(v.hands[p])[i];
      }
    }
  }

  /** Running the next item leaves its holder without that one copy. */
  lemma RunSpends(hands: seq<Hand>, p: nat, queue: set<Item>, f: Item -> int)
    requires p < |hands| && hands[p].Claimed? && hands[p].items != []
    ensures Total(hands[p := Running(hands[p].items[1..], hands[p].now)], queue, f)
            == Total(hands, queue, f) - f(hands[p].items[0])
  {
    OneHandChanges(hands, p, Running(hands[p].items[1..], hands[p].now), queue, f);
  }

  function Again(item: Item, error: string): Item {
    Stored(item.(attempts := item.attempts + 1, lastError := error))
  }

  lemma CopySplits(w: World, key: Key, item: Item, error: string)
    requires 1 <= item.attempts <= |w.backoff|
    ensures var f := Ahead(w, key);
            if ItemKey(item) != key then f(item) == 0 && f(Again(item, error)) == 0
            else f(item) == 1 + |w.hands| * if item.attempts < |w.backoff| then f(Again(item, error)) else 0
  {}

  lemma AttemptQueues(r: Retries, item: Item, verdict: Verdict, now: int, backoff: Backoff)
    requires 1 <= item.attempts <= |backoff|
    ensures Attempt(r, item, verdict, now, backoff).0.queue.Keys
            == r.queue.Keys + if verdict.Fails? && item.attempts < |backoff| then {Again(item, verdict.error)} else {}
  {}

  lemma AttemptCounts(r: Retries, item: Item, verdict: Verdict, now: int, backoff: Backoff, key: Key)
    ensures |RunsOf(Attempt(r, item, verdict, now, backoff).0, key)|
            == |RunsOf(r, key)| + if !verdict.Gone? && ItemKey(item) == key then 1 else 0
  {}

  /** One run uses up its own share, and a reschedule hands out no more than that. */
  lemma RunPays(w: World, p: nat, verdict: Verdict, key: Key)
    requires OnSchedule(w) && Can(w, RunNext(p, verdict))
    ensures var v := Do(w, RunNext(p, verdict));
            Count(v, key) + Potential(v, key) <= Count(w, key) + Potential(w, key)
            && Count(v, key) >= Count(w, key) && (Count(v, key) > Count(w, key) ==> Potential(w, key) > 0)
  {
    var h, f := w.hands[p], Ahead(w, key);
    var x, queue := h.items[0], w.r.queue.Keys;
    assert x == Holding(h)[0];
    var spent := w.hands[p := Running(h.items[1..], h.now)];
    RunSpends(w.hands, p, queue, f);
    TotalIsNat(spent, queue, f);
    AttemptQueues(w.r, x, verdict, h.now, w.backoff);
    AttemptCounts(w.r, x, verdict, h.now, w.backoff, key);
    CopySplits(w, key, x, if verdict.Fails? then verdict.error else "");
    if verdict.Fails? && x.attempts < |w.backoff| {
      QueueGrows(spent, queue, f, Again(x, verdict.error));
    } else {
      assert queue + {} == queue;
    }
    AheadKept(w, RunNext(p, verdict), key);
  }

  lemma AheadKept(w: World, s: Step, key: Key)
    requires Can(w, s)
    ensures Ahead(Do(w, s), key) == Ahead(w, key)
  {
    assert |Do(w, s).hands| == |w.hands| && Do(w, s).backoff == w.backoff;
    assert Ahead(Do(w, s), key) == AheadOf(|w.hands|, |w.backoff|, key);
  }

  lemma RemovePays(w: World, p: nat, key: Key)
    requires Can(w, Remove(p))
    ensures Potential(Do(w, Remove(p)), key) <= Potential(w, key)
  {
    var v, h, f := Do(w, Remove(p)), w.hands[p], Ahead(w, key);
    var queue, listed := w.r.queue.Keys, Set(w.hands[p].items);
    AheadKept(w, Remove(p), key);
    assert v.r.queue.Keys == queue - listed;
    OneHandChanges(w.hands, p, Running(h.items, h.now), queue - listed, f);
    assert queue - listed - listed == queue - listed;
    assert queue - listed - Set([]) == queue - listed;
    QueueShrinks(w.hands, queue - listed, queue, f);
  }

  lemma RangePays(w: World, p: nat, now: int, batch: seq<Item>, key: Key)
    requires Can(w, Range(p, now, batch))
    ensures Potential(Do(w, Range(p, now, batch)), key) == Potential(w, key)
  {
    var f, queue := Ahead(w, key), w.r.queue.Keys;
    OneHandChanges(w.hands, p, Listed(batch, now), queue, f);
    ListingAddsNothing(batch, queue, f);
    assert queue - Set([]) == queue;
  }

  lemma DiePays(w: World, p: nat, ran: bool, key: Key)
    requires OnSchedule(w) && Can(w, Die(p, ran))
    ensures var v := Do(w, Die(p, ran));
            Count(v, key) + Potential(v, key) <= Count(w, key) + Potential(w, key)
            && Count(v, key) >= Count(w, key) && (Count(v, key) > Count(w, key) ==> Potential(w, key) > 0)
  {
    var v, h, f, queue := Do(w, Die(p, ran)), w.hands[p], Ahead(w, key), w.r.queue.Keys;
    OneHandChanges(w.hands, p, Free, queue, f);
    assert queue - Set([]) == queue;
    ListingAddsNothing(Listings(h), queue, f);
    TotalIsNat(v.hands, queue, f);
    HeldIsNat(Holding(h), f);
    AheadKept(w, Die(p, ran), key);
    if ran {
      assert h.items[0] == Holding(h)[0];
      HeldIsNat(h.items[1..], f);
      CopySplits(w, key, h.items[0], "");
    }
  }

  lemma DeliverPays(w: World, s: Step, key: Key)
    requires s.Deliver? && Can(w, s)
    ensures var v := Do(w, s);
            if KeyOf(s.event, s.handler) == key
            then Count(v, key) == 1
              && Potential(v, key) <= Potential(w, key) + |w.hands| * Copies(|w.hands|, |w.backoff| - 1)
            else Count(v, key) == Count(w, key) && Potential(v, key) <= Potential(w, key)
  {
    var v, f, queue := Do(w, s), Ahead(w, key), w.r.queue.Keys;
    if s.verdict.Fails? {
      var y := Stored(Item(s.event, s.handler, 1, s.verdict.error));
      assert v.r.queue.Keys == queue + {y};
      QueueGrows(w.hands, queue, f, y);
    }
  }

  /** Before the first run nothing is ahead; after it, what has run and what is ahead never
      exceed the runs one delivery can lead to. */
  ghost predicate Within(w: World, key: Key) {
    if Count(w, key) == 0 then key !in w.r.runs && Potential(w, key) == 0
    else Count(w, key) + Potential(w, key) <= Copies(|w.hands|, |w.backoff|)
  }

  lemma StepStaysWithin(w: World, s: Step, key: Key)
    requires OnSchedule(w) && Can(w, s) && Within(w, key)
    ensures Within(Do(w, s), key)
  {
    match s
    case Deliver(_, _, _, _) => DeliverStaysWithin(w, s, key);
    case _ => OtherStepStaysWithin(w, s, key);
  }

  lemma DeliverStaysWithin(w: World, s: Step, key: Key)
    requires s.Deliver? && Can(w, s) && Within(w, key)
    ensures Within(Do(w, s), key)
  {
    var v := Do(w, s);
    DeliverPays(w, s, key);
    TotalIsNat(v.hands, v.r.queue.Keys, Ahead(v, key));
  }

  /** No other step adds to what has run and what is ahead. */
  lemma StepPays(w: World, s: Step, key: Key)
    requires OnSchedule(w) && Can(w, s) && !s.Deliver?
    ensures var v := Do(w, s);
            Count(v, key) + Potential(v, key) <= Count(w, key) + Potential(w, key)
            && Count(v, key) >= Count(w, key) && (Count(v, key) > Count(w, key) ==> Potential(w, key) > 0)
  {
    match s
    case Range(p, now, batch) => RangePays(w, p, now, batch, key);
    case Remove(p) => RemovePays(w, p, key);
    case RunNext(p, verdict) => RunPays(w, p, verdict, key);
    case Die(p, ran) => DiePays(w, p, ran, key);
  }

  lemma OtherStepStaysWithin(w: World, s: Step, key: Key)
    requires OnSchedule(w) && Can(w, s) && !s.Deliver? && Within(w, key)
    ensures Within(Do(w, s), key)
  {
    var v := Do(w, s);
    StepPays(w, s, key);
    TotalIsNat(v.hands, v.r.queue.Keys, Ahead(v, key));
    if key !in w.r.runs {
      NewRunsAreCounted(w, s, key);
    }
    assert |v.hands| == |w.hands| && v.backoff == w.backoff;
  }

  lemma NewRunsAreCounted(w: World, s: Step, key: Key)
    requires Can(w, s) && key !in w.r.runs
    ensures key in Do(w, s).r.runs ==> Count(Do(w, s), key) > 0
  {}

  lemma {:induction false} RunStaysWithin(w: World, steps: seq<Step>, key: Key)
    requires OnSchedule(w) && Runs(w, steps) && Within(w, key)
    ensures Within(Exec(w, steps), key)
    ensures |Exec(w, steps).hands| == |w.hands| && Exec(w, steps).backoff == w.backoff
    decreases |steps|
  {
    if steps != [] {
      StepKeepsSchedule(w, steps[0]);
      StepStaysWithin(w, steps[0], key);
      RunStaysWithin(Do(w, steps[0]), steps[1..], key);
    }
  }

  lemma StartIsWithin(backoff: Backoff, limit: nat, drainers: nat, key: Key)
    ensures OnSchedule(Start(backoff, limit, drainers)) && Within(Start(backoff, limit, drainers), key)
  {
    var w := Start(backoff, limit, drainers);
    AllAlike(w.hands, Free, {}, Ahead(w, key));
    assert w.r.queue.Keys == {} && {} - Set([]) == {};
  }

  /** Whatever drainers list at once, drop or repeat, one delivery never leads to more runs of a
      handler than one copy at each drainer, at each step of the schedule, can make. */
  lemma RunsNeverExceedCopies(backoff: Backoff, limit: nat, drainers: nat, steps: seq<Step>, key: Key)
    requires Runs(Start(backoff, limit, drainers), steps)
    ensures |RunsOf(Exec(Start(backoff, limit, drainers), steps).r, key)| <= Copies(drainers, |backoff|)
  {
    var w := Start(backoff, limit, drainers);
    StartIsWithin(backoff, limit, drainers, key);
    RunStaysWithin(w, steps, key);
    var v := Exec(w, steps);
    TotalIsNat(v.hands, v.r.queue.Keys, Ahead(v, key));
  }

  // ------------------------------------------------------ the bound is reached

  // Every drainer lists the same due items before any of them removes one, and every run fails
  // with an error nothing queued has failed with.

  const FAILING := Event("p", "e", "k", "", None)
  const THE_KEY := KeyOf(FAILING, "h")

  function Fresh(n: nat): string {
    seq(n, _ => 'x')
  }

  /** Nobody has listed anything, and everything is for the one key. */
  ghost predicate OnlyTheKey(w: World) {
    && OnSchedule(w)
    && (forall p :: 0 <= p < |w.hands| ==> w.hands[p].Free? || (w.hands[p].Claimed? && w.hands[p].items != []))
    && (forall item :: item in w.r.queue ==> ItemKey(item) == THE_KEY && |item.lastError| < Count(w, THE_KEY))
    && (forall p, i :: 0 <= p < |w.hands| && 0 <= i < |Holding(w.hands[p])| ==>
       ItemKey(Holding(w.hands[p])[i]) == THE_KEY)
  }

  /** Besides, all of it is still counted: nothing has been lost so far. */
  ghost predicate Busy(w: World) {
    && OnlyTheKey(w) && w.limit > 0 && |w.hands| > 0
    && Count(w, THE_KEY) + Potential(w, THE_KEY) == Copies(|w.hands|, |w.backoff|)
  }

  ghost predicate Idle(w: World) {
    forall p :: 0 <= p < |w.hands| ==> w.hands[p].Free?
  }

  /** A run that fails afresh costs its own share exactly. */
  lemma FreshRun(w: World, p: nat)
    requires Busy(w) && p < |w.hands| && !w.hands[p].Free?
    ensures var s := RunNext(p, Fails(Fresh(Count(w, THE_KEY)))); var v := Do(w, s);
            Can(w, s) && Busy(v) && Count(v, THE_KEY) == Count(w, THE_KEY) + 1
            && |v.hands| == |w.hands| && v.backoff == w.backoff
  {
    var error := Fresh(Count(w, THE_KEY));
    var s := RunNext(p, Fails(error));
    var v, h, f := Do(w, s), w.hands[p], Ahead(w, THE_KEY);
    var x, queue := h.items[0], w.r.queue.Keys;
    assert x == Holding(h)[0];
    StepKeepsSchedule(w, s);
    AttemptQueues(w.r, x, Fails(error), h.now, w.backoff);
    AttemptCounts(w.r, x, Fails(error), h.now, w.backoff, THE_KEY);
    assert Again(x, error).lastError == error;
    FreshRunIsExact(w, p, error);
    forall q, i | 0 <= q < |v.hands| && 0 <= i < |Holding(v.hands[q])|
      ensures ItemKey(Holding(v.hands[q])[i]) == THE_KEY
    {
      if q == p {
        assert Holding(v.hands[q])[i] == Holding(h)[i + 1];
      } else {
        assert Holding(v.hands[q])[i] == Holding(w.hands[q])[i];
      }
    }
    forall item | item in v.r.queue ensures ItemKey(item) == THE_KEY && |item.lastError| < Count(v, THE_KEY) {
      assert item in v.r.queue.Keys;
      assert item in queue || item == Again(x, error);
    }
  }

  lemma FreshRunIsExact(w: World, p: nat, error: string)
    requires p < |w.hands| && w.hands[p].Claimed? && w.hands[p].items != []
    requires forall q :: 0 <= q < |w.hands| ==> !w.hands[q].Listed?
    requires var x := w.hands[p].items[0];
             ItemKey(x) == THE_KEY && 1 <= x.attempts <= |w.backoff| && Again(x, error) !in w.r.queue
    ensures var v := Do(w, RunNext(p, Fails(error)));
            Count(v, THE_KEY) + Potential(v, THE_KEY) == Count(w, THE_KEY) + Potential(w, THE_KEY)
  {
    var h, f := w.hands[p], Ahead(w, THE_KEY);
    var x, queue := h.items[0], w.r.queue.Keys;
    var spent := w.hands[p := Running(h.items[1..], h.now)];
    RunSpends(w.hands, p, queue, f);
    AttemptQueues(w.r, x, Fails(error), h.now, w.backoff);
    AttemptCounts(w.r, x, Fails(error), h.now, w.backoff, THE_KEY);
    CopySplits(w, THE_KEY, x, error);
    AheadKept(w, RunNext(p, Fails(error)), THE_KEY);
    if x.attempts < |w.backoff| {
      QueueGrowsForAll(spent, queue, f, Again(x, error));
    } else {
      assert queue + {} == queue;
    }
  }

  /** There is always something to list: the earliest items, up to the limit. */
  lemma {:induction false} SomethingIsDue(queue: map<Item, int>, now: int, limit: nat) returns (batch: seq<Item>)
    requires forall item :: item in queue ==> queue[item] <= now
    ensures DueBatch(queue, now, limit, batch)
    ensures queue != map[] && limit > 0 ==> batch != []
    decreases limit
  {
    batch := [];
    if limit > 0 && queue != map[] {
      var first := Earliest(queue);
      var rest := SomethingIsDue(queue - {first}, now, limit - 1);
      EarliestFirst(queue, now, limit, first, rest);
      batch := [first] + rest;
    }
  }

  lemma EarliestFirst(queue: map<Item, int>, now: int, limit: nat, first: Item, rest: seq<Item>)
    requires first in queue && (forall item :: item in queue ==> queue[first] <= queue[item] <= now)
    requires limit > 0 && DueBatch(queue - {first}, now, limit - 1, rest)
    ensures DueBatch(queue, now, limit, [first] + rest)
  {
    var batch, later := [first] + rest, queue - {first};
    forall i | 0 < i < |batch| ensures batch[i] in later && batch[i] == rest[i - 1] {}
    forall i, j | 0 <= i < j < |batch| ensures batch[i] != batch[j] && queue[batch[i]] <= queue[batch[j]] {
      if i > 0 {
        assert rest[i - 1] != rest[j - 1] && later[rest[i - 1]] <= later[rest[j - 1]];
      }
    }
    forall item | item in queue && item !in batch
      ensures |batch| == limit && forall b :: b in batch ==> queue[b] <= queue[item]
    {
      assert first in batch && item in later && item !in rest;
      forall b | b in batch ensures queue[b] <= queue[item] {
        if b != first {
          assert b in rest && later[b] <= later[item];
        }
      }
    }
  }

  lemma {:induction false} Earliest(queue: map<Item, int>) returns (first: Item)
    requires queue != map[]
    ensures first in queue && forall item :: item in queue ==> queue[first] <= queue[item]
    decreases |queue|
  {
    first :| first in queue;
    var rest := queue - {first};
    if rest != map[] {
      var other := Earliest(rest);
      if queue[other] < queue[first] {
        first := other;
      }
      forall item | item in queue ensures queue[first] <= queue[item] {
        if item in rest {
          assert rest[other] <= rest[item];
        }
      }
    } else {
      forall item | item in queue ensures item == first {
        assert item !in rest;
      }
    }
  }

  lemma {:induction false} Latest(queue: map<Item, int>) returns (now: int)
    ensures forall item :: item in queue ==> queue[item] <= now
    decreases |queue|
  {
    now := 0;
    if queue != map[] {
      var first :| first in queue;
      var rest := Latest(queue - {first});
      now := Max(rest, queue[first]);
      forall item | item in queue ensures queue[item] <= now {
        assert item == first || item in queue - {first};
      }
    }
  }

  /** Drainers `0..k` are at `done`; the rest are at `todo`. */
  ghost predicate FirstAt(w: World, k: nat, done: Hand, todo: Hand) {
    && k <= |w.hands| && (forall p :: 0 <= p < k ==> w.hands[p] == done)
    && forall p :: k <= p < |w.hands| ==> w.hands[p] == todo
  }

  lemma {:induction false} AllList(w: World, k: nat, now: int, batch: seq<Item>) returns (steps: seq<Step>)
    requires FirstAt(w, k, Listed(batch, now), Free) && DueBatch(w.r.queue, now, w.limit, batch)
    ensures Runs(w, steps)
    ensures var v := Exec(w, steps);
            v == w.(hands := v.hands) && |v.hands| == |w.hands| && FirstAt(v, |v.hands|, Listed(batch, now), Free)
    decreases |w.hands| - k
  {
    steps := [];
    if k < |w.hands| {
      var s := Range(k, now, batch);
      var rest := AllList(Do(w, s), k + 1, now, batch);
      Prepend(w, s, rest);
      steps := [s] + rest;
    }
  }

  lemma {:induction false} AllRemove(w: World, k: nat, now: int, batch: seq<Item>) returns (steps: seq<Step>)
    requires batch != [] && FirstAt(w, k, Claimed(batch, now), Listed(batch, now))
    requires k > 0 ==> w.r.queue.Keys !! Set(batch)
    ensures Runs(w, steps)
    ensures var v := Exec(w, steps);
            && |v.hands| == |w.hands| && FirstAt(v, |v.hands|, Claimed(batch, now), Free)
            && v == w.(hands := v.hands, r := if k < |w.hands| then Without(w.r, batch) else w.r)
    decreases |w.hands| - k
  {
    steps := [];
    if k < |w.hands| {
      var s := Remove(k);
      var v := Do(w, s);
      var rest := AllRemove(v, k + 1, now, batch);
      Prepend(w, s, rest);
      steps := [s] + rest;
      assert Without(Without(w.r, batch), batch) == Without(w.r, batch);
    }
  }

  /** A round in which every drainer comes to hold the same items takes nothing from what is
      ahead. */
  lemma Round(w: World) returns (steps: seq<Step>)
    requires Busy(w) && Idle(w) && w.r.queue != map[]
    ensures Runs(w, steps)
    ensures var v := Exec(w, steps);
            Busy(v) && Count(v, THE_KEY) == Count(w, THE_KEY) && |v.hands| == |w.hands| && v.backoff == w.backoff
            && !v.hands[0].Free?
  {
    var now := Latest(w.r.queue);
    var batch := SomethingIsDue(w.r.queue, now, w.limit);
    var list := AllList(w, 0, now, batch);
    var listed := Exec(w, list);
    var remove := AllRemove(listed, 0, now, batch);
    Join(w, list, remove);
    steps := list + remove;
    RoundIsBusy(w, Exec(listed, remove), now, batch);
  }

  lemma RoundIsBusy(w: World, v: World, now: int, batch: seq<Item>)
    requires Busy(w) && Idle(w) && batch != [] && (forall i :: 0 <= i < |batch| ==> batch[i] in w.r.queue)
    requires forall i, j :: 0 <= i < j < |batch| ==> batch[i] != batch[j]
    requires FirstAt(v, |v.hands|, Claimed(batch, now), Free) && |v.hands| == |w.hands|
    requires v == w.(hands := v.hands, r := Without(w.r, batch))
    ensures Busy(v)
  {
    RoundTakesNothing(w, v, now, batch);
    RoundKeepsTheKey(w, v, now, batch);
  }

  lemma RoundKeepsTheKey(w: World, v: World, now: int, batch: seq<Item>)
    requires OnlyTheKey(w) && batch != [] && forall i :: 0 <= i < |batch| ==> batch[i] in w.r.queue
    requires forall p :: 0 <= p < |v.hands| ==> v.hands[p] == Claimed(batch, now)
    requires v.backoff == w.backoff && v.r == Without(w.r, batch)
    ensures OnlyTheKey(v) && Count(v, THE_KEY) == Count(w, THE_KEY)
  {
    forall p, i | 0 <= p < |v.hands| && 0 <= i < |Holding(v.hands[p])|
      ensures ItemKey(Holding(v.hands[p])[i]) == THE_KEY && 1 <= Holding(v.hands[p])[i].attempts <= |w.backoff|
    {
      assert batch[i] in w.r.queue;
    }
  }

  lemma RoundTakesNothing(w: World, v: World, now: int, batch: seq<Item>)
    requires Idle(w) && (forall i :: 0 <= i < |batch| ==> batch[i] in w.r.queue)
    requires forall i, j :: 0 <= i < j < |batch| ==> batch[i] != batch[j]
    requires FirstAt(v, |v.hands|, Claimed(batch, now), Free) && |v.hands| == |w.hands|
    requires v == w.(hands := v.hands, r := Without(w.r, batch))
    ensures Potential(v, THE_KEY) == Potential(w, THE_KEY)
  {
    var f, queue := Ahead(w, THE_KEY), w.r.queue.Keys;
    ShareIsKept(batch, now, queue, f);
    AllAlike(w.hands, Free, queue, f);
    AllAlike(v.hands, Claimed(batch, now), queue - Set(batch), f);
    assert v.r.queue.Keys == queue - Set(batch);
  }

  lemma ShareIsKept(batch: seq<Item>, now: int, queue: set<Item>, f: Item -> int)
    requires Adds(f) && (forall i :: 0 <= i < |batch| ==> batch[i] in queue)
    requires forall i, j :: 0 <= i < j < |batch| ==> batch[i] != batch[j]
    ensures Share(Free, queue, f) == Share(Claimed(batch, now), queue - Set(batch), f)
  {
    ListingAddsNothing(batch, queue, f);
    assert queue - Set([]) == queue && queue - Set(batch) - Set([]) == queue - Set(batch);
  }

  /** As long as anything is held or queued, there is one more run to be had. */
  lemma OneMoreRun(w: World) returns (steps: seq<Step>)
    requires Busy(w) && (!Idle(w) || w.r.queue != map[])
    ensures Runs(w, steps)
    ensures var v := Exec(w, steps);
            Busy(v) && Count(v, THE_KEY) == Count(w, THE_KEY) + 1 && |v.hands| == |w.hands| && v.backoff == w.backoff
  {
    var before, p := [], 0;
    if Idle(w) {
      before := Round(w);
    } else {
      p :| 0 <= p < |w.hands| && !w.hands[p].Free?;
    }
    var v := Exec(w, before);
    var s := RunNext(p, Fails(Fresh(Count(v, THE_KEY))));
    FreshRun(v, p);
    Prepend(v, s, []);
    Join(w, before, [s] + []);
    steps := before + ([s] + []);
  }

  lemma NothingIsAhead(w: World)
    requires Idle(w) && w.r.queue == map[]
    ensures Potential(w, THE_KEY) == 0
  {
    AllAlike(w.hands, Free, {}, Ahead(w, THE_KEY));
    assert w.r.queue.Keys == {} && {} - Set([]) == {};
  }

  lemma {:induction false} UntilNothingIsLeft(w: World) returns (steps: seq<Step>)
    requires Busy(w)
    ensures Runs(w, steps) && Count(Exec(w, steps), THE_KEY) == Copies(|w.hands|, |w.backoff|)
    decreases Copies(|w.hands|, |w.backoff|) - Count(w, THE_KEY)
  {
    steps := [];
    if Idle(w) && w.r.queue == map[] {
      NothingIsAhead(w);
    } else {
      var first := OneMoreRun(w);
      NotYetAll(Exec(w, first));
      var rest := UntilNothingIsLeft(Exec(w, first));
      Join(w, first, rest);
      steps := first + rest;
    }
  }

  lemma NotYetAll(w: World)
    requires Busy(w)
    ensures Count(w, THE_KEY) <= Copies(|w.hands|, |w.backoff|)
  {
    TotalIsNat(w.hands, w.r.queue.Keys, Ahead(w, THE_KEY));
  }

  /** For every schedule, batch limit and number of drainers, some run reaches the bound. */
  lemma BoundIsReached(backoff: Backoff, limit: nat, drainers: nat) returns (steps: seq<Step>)
    requires limit > 0 && drainers > 0
    ensures Runs(Start(backoff, limit, drainers), steps)
    ensures |RunsOf(Exec(Start(backoff, limit, drainers), steps).r, THE_KEY)| == Copies(drainers, |backoff|)
  {
    var w, s := Start(backoff, limit, drainers), Deliver(FAILING, "h", Fails(""), 0);
    var v, f := Do(w, s), Ahead(w, THE_KEY);
    var y := Item(FAILING, "h", 1, "");
    assert v.r.queue.Keys == {y};
    AllAlike(v.hands, Free, {y}, f);
    AheadKept(w, s, THE_KEY);
    assert {y} - Set([]) == {y};
    SumWith({}, f, y);
    assert {} + {y} == {y};
    assert Busy(v);
    var rest := UntilNothingIsLeft(v);
    Prepend(w, s, rest);
    steps := [s] + rest;
  }

  // --------------------------------------------------------- when the cap holds

  lemma {:induction false} OneCopyRunsOnce(left: nat)
    ensures Copies(1, left) == left + 1
  {
    if left > 0 {
      OneCopyRunsOnce(left - 1);
    }
  }

  lemma {:induction false} TwoCopiesOverrun(drainers: nat, left: nat)
    requires drainers >= 2 && left > 0
    ensures Copies(drainers, left) > left + 1
  {
    if left > 1 {
      TwoCopiesOverrun(drainers, left - 1);
      assert drainers * Copies(drainers, left - 1) >= 2 * Copies(drainers, left - 1);
    }
  }

  /** No run of these drainers runs a handler more often than inline and once per step. */
  ghost predicate CapHolds(backoff: Backoff, limit: nat, drainers: nat) {
    forall steps, key :: Runs(Start(backoff, limit, drainers), steps) ==>
      |RunsOf(Exec(Start(backoff, limit, drainers), steps).r, key)| <= MaxAttempts(backoff)
  }

  /** With a limit of nothing nobody ever runs anything again. */
  ghost predicate NothingListed(w: World, key: Key) {
    && w.limit == 0 && Count(w, key) <= 1
    && forall p :: 0 <= p < |w.hands| ==> Holding(w.hands[p]) == []
  }

  lemma {:induction false} NothingIsRunAgain(w: World, steps: seq<Step>, key: Key)
    requires NothingListed(w, key) && Runs(w, steps)
    ensures NothingListed(Exec(w, steps), key)
    decreases |steps|
  {
    if steps != [] {
      NothingIsRunAgain(Do(w, steps[0]), steps[1..], key);
    }
  }

  /** The cap on attempts rests on claiming alone: it holds in every run exactly when there is one
      drainer at most, or none of them ever takes anything. */
  lemma CapHoldsExactly(backoff: Backoff, limit: nat, drainers: nat)
    ensures CapHolds(backoff, limit, drainers) <==> drainers <= 1 || limit == 0
  {
    var w := Start(backoff, limit, drainers);
    if drainers <= 1 || limit == 0 {
      OneCopyRunsOnce(|backoff|);
      assert Copies(0, |backoff|) == 1;
      forall steps, key | Runs(w, steps) ensures |RunsOf(Exec(w, steps).r, key)| <= MaxAttempts(backoff) {
        if limit == 0 {
          NothingIsRunAgain(w, steps, key);
        } else {
          RunsNeverExceedCopies(backoff, limit, drainers, steps, key);
        }
      }
    } else {
      var steps := BoundIsReached(backoff, limit, drainers);
      TwoCopiesOverrun(drainers, |backoff|);
    }
  }
}
