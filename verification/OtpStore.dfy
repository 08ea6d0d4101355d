/** One-time codes with a deadline: the codes themselves, which expire on their own, and an
    index of what is open, which does not. */
module OtpStore {
  import opened Basics
  import opened Keys

  /** Clock ticks to a second; a key's lifetime is set in whole seconds. */
  const TICKS := 1000000

  datatype Challenge = Challenge(
    provider: string, id: string, card: Option<string>, code: string, derived: bool, expiresAt: int)
  {
    function SecondsLeft(now: int): nat {
      if expiresAt <= now then 0 else (expiresAt - now + TICKS - 1) / TICKS
    }
  }

  /** A stored code and the moment the store lets go of it. */
  datatype Held = Held(challenge: Challenge, until: int)

  datatype Store = Store(codes: map<string, Held>, index: map<string, int>)

  const NOTHING_STORED := Store(map[], map[])

  datatype Remembered = Stored | AlreadyKnown | Expired

  function ChallengeKey(provider: string, id: string): string {
    "otp:challenge:" + Join(provider, id)
  }

  function Member(provider: string, id: string): string {
    Join(provider, id)
  }

  /** Rounded up, a lifetime is never zero for a live challenge and never ends before its deadline. */
  lemma LifetimeCoversDeadline(c: Challenge, now: int)
    ensures c.SecondsLeft(now) == 0 <==> c.expiresAt <= now
    ensures now < c.expiresAt ==> c.expiresAt <= now + c.SecondsLeft(now) * TICKS < c.expiresAt + TICKS
  {}

  function Get(s: Store, provider: string, id: string, now: int): Option<Challenge> {
    var key := ChallengeKey(provider, id);
    if key in s.codes && now < s.codes[key].until then Some(s.codes[key].challenge) else None
  }

  /** The first half of remembering: the code, unless one is already there. */
  function PutCode(s: Store, c: Challenge, now: int): Store {
    s.(codes := s.codes[ChallengeKey(c.provider, c.id) := Held(c, now + c.SecondsLeft(now) * TICKS)])
  }

  function PutIndex(s: Store, c: Challenge): Store {
    s.(index := s.index[Member(c.provider, c.id) := c.expiresAt])
  }

  function Remember(s: Store, c: Challenge, now: int): (Store, Remembered) {
    if c.SecondsLeft(now) == 0 then (s, Expired)
    else if Get(s, c.provider, c.id, now).Some? then (s, AlreadyKnown)
    else (PutIndex(PutCode(s, c, now), c), Stored)
  }

  function Forget(s: Store, provider: string, id: string): Store {
    Store(s.codes - {ChallengeKey(provider, id)}, s.index - {Member(provider, id)})
  }

  /** What the range query lists: open members, soonest deadline first, up to a limit. */
  ghost predicate Listed(index: map<string, int>, now: int, limit: nat, members: seq<string>) {
    && |members| <= limit
    && (forall i :: 0 <= i < |members| ==> members[i] in index && index[members[i]] >= now)
    && (forall i, j :: 0 <= i < j < |members| ==> members[i] != members[j] && index[members[i]] <= index[members[j]])
    && (forall m :: m in index && index[m] >= now && m !in members ==> |members| == limit)
  }

  function Look(s: Store, member: string, now: int): Option<Challenge> {
    var (provider, id) := Partition(member);
    Get(s, provider, id, now)
  }

  predicate Wanted(c: Option<Challenge>, card: Option<string>) {
    c.Some? && (card.None? || c.value.card == card)
  }

  function Found(s: Store, members: seq<string>, now: int, card: Option<string>): seq<Challenge> {
    if members == [] then []
    else
      var c := Look(s, members[|members| - 1], now);
      Found(s, members[..|members| - 1], now, card) + if Wanted(c, card) then [c.value] else []
  }

  function Stale(s: Store, members: seq<string>, now: int): set<string> {
    set m | m in members && Look(s, m, now).None?
  }

  function Prune(s: Store, stale: set<string>): Store {
    s.(index := s.index - stale)
  }

  // -------------------------------------------------------------- invariant

  /** A live code, under its own key, is indexed under its own deadline. */
  predicate Indexed(s: Store, provider: string, id: string, now: int) {
    var c := Get(s, provider, id, now);
    c.Some? ==>
      && c.value.provider == provider && c.value.id == id
      && Member(provider, id) in s.index && s.index[Member(provider, id)] == c.value.expiresAt
  }

  ghost predicate Named(s: Store) {
    forall m :: m in s.index ==> exists provider, id :: ColonFree(provider) && m == Member(provider, id)
  }

  ghost predicate Inv(s: Store, now: int) {
    (forall provider, id :: ColonFree(provider) ==> Indexed(s, provider, id, now)) && Named(s)
  }

  lemma LookIsGet(s: Store, provider: string, id: string, now: int)
    requires ColonFree(provider)
    ensures Look(s, Member(provider, id), now) == Get(s, provider, id, now)
  {
    PartitionJoin(provider, id);
  }

  lemma KeysApart(p: string, i: string, q: string, j: string)
    requires ColonFree(p) && ColonFree(q)
    ensures ChallengeKey(p, i) == ChallengeKey(q, j) <==> (p, i) == (q, j)
    ensures Member(p, i) == Member(q, j) <==> (p, i) == (q, j)
  {
    JoinInjective("otp:challenge:", p, i, q, j);
    JoinInjective("", p, i, q, j);
    assert "" + Join(p, i) == Join(p, i) && "" + Join(q, j) == Join(q, j);
  }

  // -------------------------------------------------------------------- runs

  datatype Op =
    | Remembering(c: Challenge, now: int)
    | Forgetting(provider: string, id: string, now: int)
    | Polling(members: seq<string>, limit: nat, now: int)

  ghost predicate CanOp(s: Store, op: Op) {
    match op
    case Remembering(c, _) => ColonFree(c.provider)
    case Forgetting(provider, _, _) => ColonFree(provider)
    case Polling(members, limit, now) => Listed(s.index, now, limit, members)
  }

  function DoOp(s: Store, op: Op): Store {
    match op
    case Remembering(c, now) => Remember(s, c, now).0
    case Forgetting(provider, id, _) => Forget(s, provider, id)
    case Polling(members, _, now) => Prune(s, Stale(s, members, now))
  }

  /** Operations at times that never go back. */
  ghost predicate Ops(s: Store, now: int, ops: seq<Op>)
    decreases |ops|
  {
    ops == [] || (now <= ops[0].now && CanOp(s, ops[0]) && Ops(DoOp(s, ops[0]), ops[0].now, ops[1..]))
  }

  function After(s: Store, ops: seq<Op>): Store
    decreases |ops|
  {
    if ops == [] then s else After(DoOp(s, ops[0]), ops[1..])
  }

  function LastTime(now: int, ops: seq<Op>): int {
    if ops == [] then now else ops[|ops| - 1].now
  }

  // ----------------------------------------------------------------- pending

  predicate Open(s: Store, c: Challenge, now: int, card: Option<string>) {
    && ColonFree(c.provider) && Get(s, c.provider, c.id, now) == Some(c)
    && c.expiresAt >= now && (card.None? || c.card == card)
  }

  lemma MemberIsItsChallenge(s: Store, m: string, now: int)
    requires Inv(s, now) && m in s.index && Look(s, m, now).Some?
    ensures var c := Look(s, m, now).value;
            ColonFree(c.provider) && m == Member(c.provider, c.id) && Get(s, c.provider, c.id, now) == Some(c)
            && s.index[m] == c.expiresAt
  {
    var provider, id :| ColonFree(provider) && m == Member(provider, id);
    LookIsGet(s, provider, id, now);
    assert Indexed(s, provider, id, now);
  }

  ghost predicate Queryable(s: Store, members: seq<string>, now: int) {
    && (forall i :: 0 <= i < |members| ==> members[i] in s.index && s.index[members[i]] >= now)
    && (forall i, j :: 0 <= i < j < |members| ==>
          members[i] != members[j] && s.index[members[i]] <= s.index[members[j]])
  }

  /** An open challenge, found under one of the members and indexed under its deadline. */
  predicate FoundAmong(s: Store, members: seq<string>, now: int, card: Option<string>, c: Challenge) {
    var m := Member(c.provider, c.id);
    Open(s, c, now, card) && m in members && m in s.index && s.index[m] == c.expiresAt
  }

  ghost predicate SoonestFirst(found: seq<Challenge>) {
    forall k, l :: 0 <= k < l < |found| ==> found[k].expiresAt <= found[l].expiresAt && found[k] != found[l]
  }

  /** Looking members up yields open challenges, in the members' order. */
  lemma {:induction false} FoundIsOpen(s: Store, members: seq<string>, now: int, card: Option<string>)
    requires Inv(s, now) && Queryable(s, members, now)
    ensures forall c :: c in Found(s, members, now, card) ==> FoundAmong(s, members, now, card, c)
    ensures SoonestFirst(Found(s, members, now, card))
  {
    if members != [] {
      var front, last := members[..|members| - 1], members[|members| - 1];
      var before, c := Found(s, front, now, card), Look(s, last, now);
      assert members == front + [last] && forall i :: 0 <= i < |front| ==> front[i] == members[i];
      FoundIsOpen(s, front, now, card);
      FoundStays(s, front, last, now, card);
      assert Found(s, members, now, card) == before + (if Wanted(c, card) then [c.value] else []);
      if Wanted(c, card) {
        LastIsFound(s, front, last, now, card);
        AppendsInOrder(before, c.value);
      } else {
        assert before + [] == before;
      }
    }
  }

  lemma AppendsInOrder(before: seq<Challenge>, c: Challenge)
    requires SoonestFirst(before) && forall d :: d in before ==> d.expiresAt <= c.expiresAt && d != c
    ensures SoonestFirst(before + [c])
  {}

  lemma FoundStays(s: Store, front: seq<string>, last: string, now: int, card: Option<string>)
    ensures forall c :: FoundAmong(s, front, now, card, c) ==> FoundAmong(s, front + [last], now, card, c)
  {}

  lemma LastIsFound(s: Store, front: seq<string>, last: string, now: int, card: Option<string>)
    requires Inv(s, now) && Queryable(s, front + [last], now) && Wanted(Look(s, last, now), card)
    ensures var c := Look(s, last, now).value;
            && FoundAmong(s, front + [last], now, card, c)
            && forall d :: FoundAmong(s, front, now, card, d) ==> d.expiresAt <= c.expiresAt && d != c
  {
    var all := front + [last];
    assert all[|front|] == last;
    MemberIsItsChallenge(s, last, now);
    forall d | FoundAmong(s, front, now, card, d)
      ensures d.expiresAt <= Look(s, last, now).value.expiresAt && d != Look(s, last, now).value
    {
      var i :| 0 <= i < |front| && front[i] == Member(d.provider, d.id);
      assert all[i] == front[i];
    }
  }

  lemma {:induction false} EveryWantedIsFound(s: Store, members: seq<string>, now: int, card: Option<string>, m: string)
    requires m in members && Wanted(Look(s, m, now), card)
    ensures Look(s, m, now).value in Found(s, members, now, card)
  {
    if m != members[|members| - 1] {
      EveryWantedIsFound(s, members[..|members| - 1], now, card, m);
    }
  }

  /** With room for all that is open, looking up what the index lists finds exactly the live
      challenges whose deadline has not passed, soonest first and each once. */
  lemma ListedIsExact(s: Store, now: int, limit: nat, members: seq<string>, card: Option<string>)
    requires Inv(s, now) && Listed(s.index, now, limit, members) && |members| < limit
    ensures var found := Found(s, members, now, card);
            (forall c :: c in found <==> Open(s, c, now, card)) && SoonestFirst(found)
  {
    FoundIsOpen(s, members, now, card);
    forall c | Open(s, c, now, card) ensures c in Found(s, members, now, card) {
      assert Indexed(s, c.provider, c.id, now);
      LookIsGet(s, c.provider, c.id, now);
      EveryWantedIsFound(s, members, now, card, Member(c.provider, c.id));
    }
  }

  // --------------------------------------------------------- first code wins

  predicate Spares(op: Op, provider: string, id: string) {
    op.Forgetting? ==> (op.provider, op.id) != (provider, id)
  }

  /** The first code stored for a challenge is what every later read sees, whatever is remembered
      under the same id meanwhile, until it expires or is forgotten. */
  lemma {:induction false} FirstCodeWins(s: Store, now: int, ops: seq<Op>, provider: string, id: string, held: Held)
    requires ColonFree(provider) && Ops(s, now, ops) && (forall op :: op in ops ==> Spares(op, provider, id))
    requires ChallengeKey(provider, id) in s.codes && s.codes[ChallengeKey(provider, id)] == held
    requires LastTime(now, ops) < held.until && now < held.until
    ensures Get(After(s, ops), provider, id, LastTime(now, ops)) == Some(held.challenge)
    decreases |ops|
  {
    if ops != [] {
      var op := ops[0];
      assert op in ops && forall o :: o in ops[1..] ==> o in ops;
      TimesRise(s, now, ops);
      if op.Remembering? {
        KeysApart(op.c.provider, op.c.id, provider, id);
      } else if op.Forgetting? {
        KeysApart(op.provider, op.id, provider, id);
      }
      FirstCodeWins(DoOp(s, op), op.now, ops[1..], provider, id, held);
    }
  }

  lemma {:induction false} TimesRise(s: Store, now: int, ops: seq<Op>)
    requires Ops(s, now, ops)
    ensures now <= LastTime(now, ops)
    ensures ops != [] ==> ops[0].now <= LastTime(now, ops)
    decreases |ops|
  {
    if ops != [] {
      TimesRise(DoOp(s, ops[0]), ops[0].now, ops[1..]);
    }
  }

  // ------------------------------------------------------- between two writes

  /** Dying after the code and before the index leaves a live code no poll lists; remembering it
      again does not repair it. */
  lemma CrashHidesACode(s: Store, c: Challenge, now: int, later: int, again: Challenge)
    requires Inv(s, now) && ColonFree(c.provider) && now <= later < c.expiresAt
    requires Get(s, c.provider, c.id, now).None? && Member(c.provider, c.id) !in s.index
    requires again.provider == c.provider && again.id == c.id && later < again.expiresAt
    ensures var half := PutCode(s, c, now);
            && Get(half, c.provider, c.id, later) == Some(c)
            && Remember(half, again, later) == (half, AlreadyKnown)
            && Member(c.provider, c.id) !in half.index
  {
    LifetimeCoversDeadline(c, now);
    LifetimeCoversDeadline(again, later);
  }

  /** And it stays unlisted for as long as it lives, whatever else goes on. */
  lemma {:induction false} HiddenStaysHidden(s: Store, now: int, ops: seq<Op>, provider: string, id: string, held: Held)
    requires ColonFree(provider) && Ops(s, now, ops) && (forall op :: op in ops ==> Spares(op, provider, id))
    requires ChallengeKey(provider, id) in s.codes && s.codes[ChallengeKey(provider, id)] == held
    requires LastTime(now, ops) < held.until && now < held.until && Member(provider, id) !in s.index
    ensures Get(After(s, ops), provider, id, LastTime(now, ops)) == Some(held.challenge)
    ensures Member(provider, id) !in After(s, ops).index
    decreases |ops|
  {
    if ops != [] {
      var op := ops[0];
      assert op in ops && forall o :: o in ops[1..] ==> o in ops;
      TimesRise(s, now, ops);
      if op.Remembering? {
        KeysApart(op.c.provider, op.c.id, provider, id);
      } else if op.Forgetting? {
        KeysApart(op.provider, op.id, provider, id);
      }
      HiddenStaysHidden(DoOp(s, op), op.now, ops[1..], provider, id, held);
    }
  }

  // ------------------------------------------------------------------- class

  class Codes {
    var codes: map<string, Held>
    var index: map<string, int>

    constructor ()
      ensures State() == NOTHING_STORED
    {
      codes, index := map[], map[];
    }

    function State(): Store
      reads this
    {
      Store(codes, index)
    }

    method RememberChallenge(c: Challenge, now: int) returns (r: Remembered)
      modifies this
      ensures (State(), r) == Remember(old(State()), c, now)
    {
      var ttl := c.SecondsLeft(now);
      if ttl == 0 {
        return Expired;
      }
      var key := ChallengeKey(c.provider, c.id);
      if key in codes && now < codes[key].until {
        return AlreadyKnown;
      }
      codes := codes[key := Held(c, now + ttl * TICKS)];
      index := index[Member(c.provider, c.id) := c.expiresAt];
      r := Stored;
    }

    /** `members` is what the index lists as open. */
    method Pending(members: seq<string>, now: int, card: Option<string>) returns (found: seq<Challenge>)
      modifies this`index
      ensures found == Found(old(State()), members, now, card)
      ensures State() == Prune(old(State()), Stale(old(State()), members, now))
    {
      found := [];
      var stale: set<string> := {};
      var k := 0;
      while k < |members|
        invariant k <= |members|
        invariant found == Found(State(), members[..k], now, card)
        invariant stale == Stale(State(), members[..k], now)
      {
        assert members[..k + 1][..k] == members[..k];
        assert forall m :: m in members[..k + 1] <==> m in members[..k] || m == members[k];
        var c := Look(State(), members[k], now);
        if c.None? {
          stale := stale + {members[k]};
        } else if card.None? || c.value.card == card {
          found := found + [c.value];
        }
        k := k + 1;
      }
      assert members[..k] == members;
      index := index - stale;
    }

    method ForgetChallenge(provider: string, id: string, now: int) returns (removed: bool)
      modifies this
      ensures State() == Forget(old(State()), provider, id)
      ensures removed <==> Get(old(State()), provider, id, now).Some?
    {
      var key := ChallengeKey(provider, id);
      removed := key in codes && now < codes[key].until;
      codes := codes - {key};
      index := index - {Member(provider, id)};
    }
  }
}
