/** Running webhook handlers: inline once, then from a due-time queue with an attempt cap and
    dead letters. `Drainers.dfy` says what many drainers at once make of it. */
module RetryQueue {
  import opened Basics

  /** A normalized event. The one-time code never leaves memory. */
  datatype Event = Event(provider: string, id: string, kind: string, body: string, otp: Option<string>)

  /** One handler's failed attempt at one event; `attempts` counts the inline one. */
  datatype Item = Item(event: Event, handler: string, attempts: int, lastError: string)

  /** What a retry is for, and what a dead letter is unique by. */
  datatype Key = Key(provider: string, event: string, handler: string)

  function KeyOf(event: Event, handler: string): Key {
    Key(event.provider, event.id, handler)
  }

  function ItemKey(item: Item): Key {
    KeyOf(item.event, item.handler)
  }

  /** Retries are told apart by all three: who sent the event, which it is, and who handles it. */
  lemma KeysAreApart(a: Event, b: Event, handler: string, other: string)
    ensures KeyOf(a, handler) == KeyOf(b, other) <==> a.provider == b.provider && a.id == b.id && handler == other
    ensures KeyOf(a, handler).provider == a.provider && KeyOf(a, handler).event == a.id
            && KeyOf(a, handler).handler == handler
  {}

  /** What is left of an item once it has been through the queue. */
  function Stored(item: Item): Item {
    item.(event := item.event.(otp := None))
  }

  lemma OnlyTheCodeIsLost(item: Item)
    ensures Stored(item) == item <==> item.event.otp.None?
    ensures ItemKey(Stored(item)) == ItemKey(item) && Stored(Stored(item)) == Stored(item)
  {}

  type Backoff = b: seq<int> | |b| > 0 && forall i :: 0 <= i < |b| ==> b[i] >= 0 witness [0]

  function DelayFor(attempts: int, backoff: Backoff): int {
    backoff[Min(Max(attempts, 1), |backoff|) - 1]
  }

  function MaxAttempts(backoff: Backoff): nat {
    |backoff| + 1
  }

  /** The sorted set, the dead-letter table with its ledger rows, and when each handler ran. */
  datatype Retries = Retries(queue: map<Item, int>, dead: set<Key>, buried: seq<Key>, runs: map<Key, seq<int>>)

  const NO_RETRIES := Retries(map[], {}, [], map[])

  function RunsOf(r: Retries, key: Key): seq<int> {
    if key in r.runs then r.runs[key] else []
  }

  function Ran(r: Retries, key: Key, now: int): Retries {
    r.(runs := r.runs[key := RunsOf(r, key) + [now]])
  }

  function Schedule(r: Retries, item: Item, now: int, backoff: Backoff): Retries {
    r.(queue := r.queue[Stored(item) := now + DelayFor(item.attempts, backoff)])
  }

  /** One dead-letter row per delivery and handler, and a ledger row only for the first. */
  function DeadLetter(r: Retries, key: Key): Retries {
    if key in r.dead then r else r.(dead := r.dead + {key}, buried := r.buried + [key])
  }

  datatype Verdict = Works | Fails(error: string) | Gone

  /** The handler's first attempt, made while the delivery is being answered. */
  function Inline(r: Retries, event: Event, handler: string, verdict: Verdict, now: int, backoff: Backoff): Retries {
    match verdict
    case Gone => r
    case Works => Ran(r, KeyOf(event, handler), now)
    case Fails(error) => Schedule(Ran(r, KeyOf(event, handler), now), Item(event, handler, 1, error), now, backoff)
  }

  datatype Fate = Succeeded | Rescheduled | DeadLettered

  /** One claimed item, run again. */
  function Attempt(r: Retries, item: Item, verdict: Verdict, now: int, backoff: Backoff): (Retries, Fate) {
    match verdict
    case Gone => (DeadLetter(r, ItemKey(item)), DeadLettered)
    case Works => (Ran(r, ItemKey(item), now), Succeeded)
    case Fails(error) =>
      var attempted := item.(attempts := item.attempts + 1, lastError := error);
      if attempted.attempts >= MaxAttempts(backoff) then
        (DeadLetter(Ran(r, ItemKey(item), now), ItemKey(item)), DeadLettered)
      else (Schedule(Ran(r, ItemKey(item), now), attempted, now, backoff), Rescheduled)
  }

  /** What claiming takes: some of the items already due, earliest first. */
  ghost predicate DueBatch(queue: map<Item, int>, now: int, limit: nat, batch: seq<Item>) {
    && |batch| <= limit
    && (forall i :: 0 <= i < |batch| ==> batch[i] in queue && queue[batch[i]] <= now)
    && (forall i, j :: 0 <= i < j < |batch| ==> batch[i] != batch[j] && queue[batch[i]] <= queue[batch[j]])
    && (forall item :: item in queue && queue[item] <= now && item !in batch ==>
          |batch| == limit && forall b :: b in batch ==> queue[b] <= queue[item])
  }

  function Without(r: Retries, batch: seq<Item>): Retries {
    r.(queue := map item | item in r.queue && item !in batch :: r.queue[item])
  }

  // ------------------------------------------------------------------- drain

  datatype Drain = Drain(succeeded: seq<Item>, rescheduled: seq<Item>, deadLettered: seq<Item>)

  function Sorted(d: Drain, item: Item, fate: Fate): Drain {
    match fate
    case Succeeded => d.(succeeded := d.succeeded + [item])
    case Rescheduled => d.(rescheduled := d.rescheduled + [item])
    case DeadLettered => d.(deadLettered := d.deadLettered + [item])
  }

  function DrainAll(
    r: Retries, hand: seq<Item>, verdicts: Key -> Verdict, now: int, backoff: Backoff, d: Drain): (Retries, Drain)
    decreases |hand|
  {
    if hand == [] then (r, d)
    else
      var (after, fate) := Attempt(r, hand[0], verdicts(ItemKey(hand[0])), now, backoff);
      DrainAll(after, hand[1..], verdicts, now, backoff, Sorted(d, hand[0], fate))
  }

  function FateOf(item: Item, verdict: Verdict, backoff: Backoff): Fate {
    if verdict.Gone? || (verdict.Fails? && item.attempts >= |backoff|) then DeadLettered
    else if verdict.Fails? then Rescheduled
    else Succeeded
  }

  /** Everything a completed drain claimed is in exactly one list, the one its own outcome puts
      it in, in the order it was run. */
  function Ending(hand: seq<Item>, verdicts: Key -> Verdict, backoff: Backoff, fate: Fate): seq<Item> {
    if hand == [] then []
    else
      var last := hand[|hand| - 1];
      Ending(hand[..|hand| - 1], verdicts, backoff, fate)
      + if FateOf(last, verdicts(ItemKey(last)), backoff) == fate then [last] else []
  }

  lemma {:induction false} EndingFront(
    item: Item, rest: seq<Item>, verdicts: Key -> Verdict, backoff: Backoff, fate: Fate)
    ensures Ending([item] + rest, verdicts, backoff, fate)
            == (if FateOf(item, verdicts(ItemKey(item)), backoff) == fate then [item] else [])
              + Ending(rest, verdicts, backoff, fate)
    decreases |rest|
  {
    if rest == [] {
      assert [item] + rest == [item] && [item][..0] == [];
    } else {
      var n := |rest| - 1;
      EndingFront(item, rest[..n], verdicts, backoff, fate);
      assert ([item] + rest)[..n + 1] == [item] + rest[..n];
    }
  }

  function ListOf(d: Drain, fate: Fate): seq<Item> {
    match fate
    case Succeeded => d.succeeded
    case Rescheduled => d.rescheduled
    case DeadLettered => d.deadLettered
  }

  lemma AttemptFate(r: Retries, item: Item, verdict: Verdict, now: int, backoff: Backoff)
    ensures Attempt(r, item, verdict, now, backoff).1 == FateOf(item, verdict, backoff)
  {}

  lemma SortedList(d: Drain, item: Item, got: Fate, fate: Fate)
    ensures ListOf(Sorted(d, item, got), fate) == ListOf(d, fate) + if got == fate then [item] else []
  {}

  lemma Regroup<T>(a: seq<T>, b: seq<T>, c: seq<T>)
    ensures (a + b) + c == a + (b + c)
  {}

  lemma {:induction false} DrainSortsEverything(
    r: Retries, hand: seq<Item>, verdicts: Key -> Verdict, now: int, backoff: Backoff, d: Drain, fate: Fate)
    ensures ListOf(DrainAll(r, hand, verdicts, now, backoff, d).1, fate)
            == ListOf(d, fate) + Ending(hand, verdicts, backoff, fate)
    decreases |hand|
  {
    if hand != [] {
      var item, rest := hand[0], hand[1..];
      var (after, got) := Attempt(r, item, verdicts(ItemKey(item)), now, backoff);
      AttemptFate(r, item, verdicts(ItemKey(item)), now, backoff);
      DrainSortsEverything(after, rest, verdicts, now, backoff, Sorted(d, item, got), fate);
      assert hand == [item] + rest;
      EndingFront(item, rest, verdicts, backoff, fate);
      SortedList(d, item, got, fate);
      Regroup(ListOf(d, fate), if got == fate then [item] else [], Ending(rest, verdicts, backoff, fate));
    }
  }

  function Endings(hand: seq<Item>, verdicts: Key -> Verdict, backoff: Backoff): multiset<Item> {
    multiset(Ending(hand, verdicts, backoff, Succeeded)) + multiset(Ending(hand, verdicts, backoff, Rescheduled))
    + multiset(Ending(hand, verdicts, backoff, DeadLettered))
  }

  lemma EndingsGrow(front: seq<Item>, last: Item, verdicts: Key -> Verdict, backoff: Backoff)
    ensures Endings(front + [last], verdicts, backoff) == Endings(front, verdicts, backoff) + multiset{last}
  {
    assert (front + [last])[..|front|] == front;
    match FateOf(last, verdicts(ItemKey(last)), backoff)
    case Succeeded => OnlyOneGrows(front, last, verdicts, backoff, Succeeded, Rescheduled, DeadLettered);
    case Rescheduled => OnlyOneGrows(front, last, verdicts, backoff, Rescheduled, Succeeded, DeadLettered);
    case DeadLettered => OnlyOneGrows(front, last, verdicts, backoff, DeadLettered, Succeeded, Rescheduled);
  }

  lemma OnlyOneGrows(
    front: seq<Item>, last: Item, verdicts: Key -> Verdict, backoff: Backoff, got: Fate, b: Fate, c: Fate)
    requires FateOf(last, verdicts(ItemKey(last)), backoff) == got && b != got && c != got
    ensures Ending(front + [last], verdicts, backoff, got) == Ending(front, verdicts, backoff, got) + [last]
    ensures Ending(front + [last], verdicts, backoff, b) == Ending(front, verdicts, backoff, b)
    ensures Ending(front + [last], verdicts, backoff, c) == Ending(front, verdicts, backoff, c)
  {
    assert (front + [last])[..|front|] == front;
    assert Ending(front, verdicts, backoff, b) + [] == Ending(front, verdicts, backoff, b);
    assert Ending(front, verdicts, backoff, c) + [] == Ending(front, verdicts, backoff, c);
  }

  lemma {:induction false} EndingsPartition(hand: seq<Item>, verdicts: Key -> Verdict, backoff: Backoff)
    ensures Endings(hand, verdicts, backoff) == multiset(hand)
  {
    if hand != [] {
      var front, last := hand[..|hand| - 1], hand[|hand| - 1];
      EndingsPartition(front, verdicts, backoff);
      assert hand == front + [last];
      EndingsGrow(front, last, verdicts, backoff);
    }
  }

  // ---------------------------------------------------------------- dispatch

  /** How an event's handlers fare on its delivery; `None` is a handler that worked. */
  type Trouble = string -> Option<string>

  function VerdictOf(trouble: Option<string>): Verdict {
    match trouble
    case None => Works
    case Some(error) => Fails(error)
  }

  function DispatchAll(
    r: Retries, event: Event, handlers: seq<string>, trouble: Trouble, now: int, backoff: Backoff): Retries
    decreases |handlers|
  {
    if handlers == [] then r
    else
      DispatchAll(Inline(r, event, handlers[0], VerdictOf(trouble(handlers[0])), now, backoff),
                  event, handlers[1..], trouble, now, backoff)
  }

  /** The handlers that worked, or those that did not, in order. */
  function Those(handlers: seq<string>, trouble: Trouble, worked: bool): seq<string> {
    if handlers == [] then []
    else
      var last := handlers[|handlers| - 1];
      Those(handlers[..|handlers| - 1], trouble, worked) + if trouble(last).None? == worked then [last] else []
  }

  lemma {:induction false} ThosePartition(handlers: seq<string>, trouble: Trouble)
    ensures multiset(Those(handlers, trouble, true)) + multiset(Those(handlers, trouble, false)) == multiset(handlers)
    ensures forall h :: h in Those(handlers, trouble, true) ==> trouble(h).None?
    ensures forall h :: h in Those(handlers, trouble, false) ==> trouble(h).Some?
  {
    if handlers != [] {
      var n := |handlers| - 1;
      ThosePartition(handlers[..n], trouble);
      assert handlers == handlers[..n] + [handlers[n]];
    }
  }

  // ------------------------------------------------------------------- class

  class Drainer {
    const backoff: Backoff
    var queue: map<Item, int>
    var dead: set<Key>
    var buried: seq<Key>
    var published: seq<Event>
    ghost var runs: map<Key, seq<int>>

    constructor (backoff: Backoff)
      ensures this.backoff == backoff && State() == NO_RETRIES && published == []
    {
      this.backoff, queue, dead, buried, published, runs := backoff, map[], {}, [], [], map[];
    }

    ghost function State(): Retries
      reads this
    {
      Retries(queue, dead, buried, runs)
    }

    method ScheduleItem(item: Item, now: int) returns (dueAt: int)
      modifies this`queue
      ensures State() == Schedule(old(State()), item, now, backoff) && dueAt == queue[Stored(item)]
    {
      dueAt := now + DelayFor(item.attempts, backoff);
      queue := queue[Stored(item) := dueAt];
    }

    /** Publish an event, without its code, then run every handler once; a failure is queued and
        never stops the rest. */
    method Dispatch(event: Event, handlers: seq<string>, trouble: Trouble, now: int)
      returns (streamId: nat, ran: seq<string>, failed: seq<string>)
      modifies this
      ensures streamId == |old(published)| && published == old(published) + [event.(otp := None)]
      ensures State() == DispatchAll(old(State()), event, handlers, trouble, now, backoff)
      ensures ran == Those(handlers, trouble, true) && failed == Those(handlers, trouble, false)
      ensures multiset(ran) + multiset(failed) == multiset(handlers)
      ensures (forall h :: h in ran ==> trouble(h).None?) && (forall h :: h in failed ==> trouble(h).Some?)
    {
      streamId, ran, failed := |published|, [], [];
      published := published + [event.(otp := None)];
      var k := 0;
      while k < |handlers|
        invariant k <= |handlers| && published == old(published) + [event.(otp := None)]
        invariant DispatchAll(old(State()), event, handlers, trouble, now, backoff)
                  == DispatchAll(State(), event, handlers[k..], trouble, now, backoff)
        invariant ran == Those(handlers[..k], trouble, true) && failed == Those(handlers[..k], trouble, false)
      {
        var name := handlers[k];
        assert handlers[k..][0] == name && handlers[k..][1..] == handlers[k + 1..];
        assert handlers[..k + 1][..k] == handlers[..k] && handlers[..k + 1][k] == name;
        ghost var before := State();
        var outcome := trouble(name);
        runs := Ran(State(), KeyOf(event, name), now).runs;
        if outcome.Some? {
          failed := failed + [name];
          var _ := ScheduleItem(Item(event, name, 1, outcome.value), now);
        } else {
          ran := ran + [name];
        }
        assert State() == Inline(before, event, name, VerdictOf(outcome), now, backoff);
        k := k + 1;
      }
      assert handlers[..k] == handlers;
      ThosePartition(handlers, trouble);
    }

    /** The second half of claiming: what the sorted set listed as due leaves it before it is run. */
    method RemoveListed(batch: seq<Item>)
      modifies this`queue
      ensures State() == Without(old(State()), batch)
    {
      queue := map item | item in queue && item !in batch :: queue[item];
    }

    method Bury(key: Key)
      modifies this`dead, this`buried
      ensures State() == DeadLetter(old(State()), key)
    {
      if key !in dead {
        dead := dead + {key};
        buried := buried + [key];
      }
    }

    method RunAgain(item: Item, verdict: Verdict, now: int) returns (fate: Fate)
      modifies this
      ensures (State(), fate) == Attempt(old(State()), item, verdict, now, backoff)
    {
      if verdict.Gone? {
        Bury(ItemKey(item));
        return DeadLettered;
      }
      runs := Ran(State(), ItemKey(item), now).runs;
      if verdict.Works? {
        return Succeeded;
      }
      var attempted := item.(attempts := item.attempts + 1, lastError := verdict.error);
      if attempted.attempts >= MaxAttempts(backoff) {
        Bury(ItemKey(item));
        return DeadLettered;
      }
      var _ := ScheduleItem(attempted, now);
      return Rescheduled;
    }

    method DrainDue(batch: seq<Item>, verdicts: Key -> Verdict, now: int) returns (done: Drain)
      modifies this
      ensures (State(), done)
              == DrainAll(Without(old(State()), batch), batch, verdicts, now, backoff, Drain([], [], []))
      ensures multiset(done.succeeded) + multiset(done.rescheduled) + multiset(done.deadLettered) == multiset(batch)
    {
      RemoveListed(batch);
      ghost var claimed := State();
      done := Drain([], [], []);
      var k := 0;
      while k < |batch|
        invariant k <= |batch|
        invariant DrainAll(claimed, batch, verdicts, now, backoff, Drain([], [], []))
                  == DrainAll(State(), batch[k..], verdicts, now, backoff, done)
      {
        assert batch[k..][0] == batch[k] && batch[k..][1..] == batch[k + 1..];
        var fate := RunAgain(batch[k], verdicts(ItemKey(batch[k])), now);
        done := Sorted(done, batch[k], fate);
        k := k + 1;
      }
      DrainSortsEverything(claimed, batch, verdicts, now, backoff, Drain([], [], []), Succeeded);
      DrainSortsEverything(claimed, batch, verdicts, now, backoff, Drain([], [], []), Rescheduled);
      DrainSortsEverything(claimed, batch, verdicts, now, backoff, Drain([], [], []), DeadLettered);
      EndingsPartition(batch, verdicts, backoff);
    }
  }
}
