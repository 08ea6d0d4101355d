/** The code store's operations as the calls they make, any number of callers interleaving and
    dying between any two: exactly how a live code comes to be missing from the index. */
module OtpRaces {
  import opened Basics
  import opened Keys
  import opened OtpStore

  datatype Pc =
    | Idle
    | Indexing(c: Challenge)                          // code stored, index entry to come
    | Looking(rest: seq<string>, stale: set<string>)  // members listed, some still to look up
    | Dropping(provider: string, id: string)          // code deleted, index entry to go

  /** A change to the index; removals come in one call. */
  datatype Write = Added(member: string, deadline: int) | Removed(members: set<string>)

  /** `writes` is every change to the index in order; no step depends on it. */
  datatype World = World(now: int, store: Store, writes: seq<Write>, pcs: seq<Pc>)

  datatype Step =
    | Put(p: nat, c: Challenge)
    | Index(p: nat)
    | Range(p: nat, members: seq<string>, limit: nat)
    | LookUp(p: nat)
    | PruneStale(p: nat)
    | Delete(p: nat, provider: string, id: string)
    | Drop(p: nat)
    | Crash(p: nat)
    | Evict(key: string)
    | Tick(ticks: nat)

  ghost predicate Can(w: World, s: Step) {
    match s
    case Put(p, c) => p < |w.pcs| && w.pcs[p].Idle? && ColonFree(c.provider)
    case Index(p) => p < |w.pcs| && w.pcs[p].Indexing?
    case Range(p, members, limit) => p < |w.pcs| && w.pcs[p].Idle? && Listed(w.store.index, w.now, limit, members)
    case LookUp(p) => p < |w.pcs| && w.pcs[p].Looking? && w.pcs[p].rest != []
    case PruneStale(p) => p < |w.pcs| && w.pcs[p].Looking? && w.pcs[p].rest == []
    case Delete(p, provider, _) => p < |w.pcs| && w.pcs[p].Idle? && ColonFree(provider)
    case Drop(p) => p < |w.pcs| && w.pcs[p].Dropping?
    case Crash(p) => p < |w.pcs|
    case Evict(_) => true
    case Tick(_) => true
  }

  function At(w: World, p: nat, pc: Pc): World
    requires p < |w.pcs|
  {
    w.(pcs := w.pcs[p := pc])
  }

  function Unindex(w: World, members: set<string>): World {
    w.(store := Prune(w.store, members), writes := w.writes + [Removed(members)])
  }

  function Do(w: World, s: Step): World
    requires Can(w, s)
  {
    match s
    case Put(p, c) =>
      if c.SecondsLeft(w.now) == 0 || Get(w.store, c.provider, c.id, w.now).Some? then w
      else At(w, p, Indexing(c)).(store := PutCode(w.store, c, w.now))
    case Index(p) =>
      var c := w.pcs[p].c;
      At(w, p, Idle)
      .(store := PutIndex(w.store, c), writes := w.writes + [Added(Member(c.provider, c.id), c.expiresAt)])
    case Range(p, members, _) => At(w, p, Looking(members, {}))
    case LookUp(p) =>
      var pc := w.pcs[p];
      At(w, p, Looking(pc.rest[1..], pc.stale + Stale(w.store, [pc.rest[0]], w.now)))
    case PruneStale(p) => Unindex(At(w, p, Idle), w.pcs[p].stale)
    case Delete(p, provider, id) =>
      At(w, p, Dropping(provider, id)).(store := w.store.(codes := w.store.codes - {ChallengeKey(provider, id)}))
    case Drop(p) => Unindex(At(w, p, Idle), {Member(w.pcs[p].provider, w.pcs[p].id)})
    case Crash(p) => At(w, p, Idle)
    case Evict(key) => w.(store := w.store.(codes := w.store.codes - {key}))
    case Tick(ticks) => w.(now := w.now + ticks)
  }

  ghost predicate Runs(w: World, steps: seq<Step>)
    decreases |steps|
  {
    steps == [] || (Can(w, steps[0]) && Runs(Do(w, steps[0]), steps[1..]))
  }

  ghost function Exec(w: World, steps: seq<Step>): World
    requires Runs(w, steps)
    decreases |steps|
  {
    if steps == [] then w else Exec(Do(w, steps[0]), steps[1..])
  }

  function Start(now: int, callers: nat): World {
    World(now, NOTHING_STORED, [], seq(callers, _ => Idle))
  }

  // -------------------------------------------------------------- invariant

  /** A code is stored under its own key. */
  ghost predicate OwnKeys(s: Store) {
    forall provider, id :: ColonFree(provider) && ChallengeKey(provider, id) in s.codes ==>
      var c := s.codes[ChallengeKey(provider, id)].challenge; c.provider == provider && c.id == id
  }

  predicate PcNamed(pc: Pc) {
    match pc
    case Indexing(c) => ColonFree(c.provider)
    case Dropping(provider, _) => ColonFree(provider)
    case _ => true
  }

  /** The score of a member as the changes to the index leave it. */
  function Score(writes: seq<Write>, m: string): Option<int> {
    if writes == [] then None
    else
      match writes[|writes| - 1]
      case Added(member, deadline) => if member == m then Some(deadline) else Score(writes[..|writes| - 1], m)
      case Removed(members) => if m in members then None else Score(writes[..|writes| - 1], m)
  }

  function Lookup(index: map<string, int>, m: string): Option<int> {
    if m in index then Some(index[m]) else None
  }

  ghost predicate Inv(w: World) {
    && OwnKeys(w.store) && Named(w.store)
    && (forall p :: 0 <= p < |w.pcs| ==> PcNamed(w.pcs[p]))
    && forall m :: Score(w.writes, m) == Lookup(w.store.index, m)
  }

  lemma PutKeepsInv(w: World, p: nat, c: Challenge)
    requires Inv(w) && Can(w, Put(p, c))
    ensures Inv(Do(w, Put(p, c)))
  {
    var v := Do(w, Put(p, c));
    forall provider, id | ColonFree(provider) && ChallengeKey(provider, id) in v.store.codes
      ensures var d := v.store.codes[ChallengeKey(provider, id)].challenge; d.provider == provider && d.id == id
    {
      KeysApart(c.provider, c.id, provider, id);
    }
  }

  lemma IndexKeepsInv(w: World, p: nat)
    requires Inv(w) && Can(w, Index(p))
    ensures Inv(Do(w, Index(p)))
  {
    var v, c := Do(w, Index(p)), w.pcs[p].c;
    assert PcNamed(w.pcs[p]);
    assert v.writes[..|w.writes|] == w.writes;
    forall m | m in v.store.index ensures exists provider, id :: ColonFree(provider) && m == Member(provider, id) {
      if m != Member(c.provider, c.id) {
        assert m in w.store.index;
      }
    }
  }

  lemma UnindexKeepsInv(w: World, p: nat, members: set<string>)
    requires Inv(w) && p < |w.pcs|
    ensures Inv(Unindex(At(w, p, Idle), members))
  {
    var v := Unindex(At(w, p, Idle), members);
    assert v.writes[..|w.writes|] == w.writes;
  }

  lemma StepKeepsInv(w: World, s: Step)
    requires Inv(w) && Can(w, s)
    ensures Inv(Do(w, s))
  {
    match s
    case Put(p, c) => PutKeepsInv(w, p, c);
    case Index(p) => IndexKeepsInv(w, p);
    case PruneStale(p) => UnindexKeepsInv(w, p, w.pcs[p].stale);
    case Drop(p) => UnindexKeepsInv(w, p, {Member(w.pcs[p].provider, w.pcs[p].id)});
    case _ =>
  }

  lemma {:induction false} RunKeepsInv(w: World, steps: seq<Step>)
    requires Inv(w) && Runs(w, steps)
    ensures Inv(Exec(w, steps))
    decreases |steps|
  {
    if steps != [] {
      StepKeepsInv(w, steps[0]);
      RunKeepsInv(Do(w, steps[0]), steps[1..]);
    }
  }

  // ------------------------------------------------------ what the index shows

  /** A poll with room for it lists the member. */
  predicate Shown(w: World, m: string) {
    m in w.store.index && w.store.index[m] >= w.now
  }

  predicate Touches(write: Write, m: string) {
    match write
    case Added(member, _) => member == m
    case Removed(members) => m in members
  }

  /** The last change to the member's entry gave it a deadline still to come. */
  predicate LastAddedFor(writes: seq<Write>, m: string, now: int) {
    exists k :: 0 <= k < |writes| && writes[k].Added? && writes[k].member == m && writes[k].deadline >= now
      && forall l :: k < l < |writes| ==> !Touches(writes[l], m)
  }

  lemma {:induction false} ScoreIsLastAdded(writes: seq<Write>, m: string, now: int)
    ensures LastAddedFor(writes, m, now) <==> Score(writes, m).Some? && Score(writes, m).value >= now
  {
    if writes != [] {
      var n := |writes| - 1;
      var front, last := writes[..n], writes[n];
      ScoreIsLastAdded(front, m, now);
      if Touches(last, m) {
        if last.Added? && last.deadline >= now {
          assert writes[n].Added?;
        }
      } else {
        if LastAddedFor(front, m, now) {
          var k :| 0 <= k < |front| && front[k].Added? && front[k].member == m && front[k].deadline >= now
                   && forall l :: k < l < |front| ==> !Touches(front[l], m);
          assert writes[k] == front[k] && forall l :: k < l < |writes| ==> !Touches(writes[l], m);
        }
        if LastAddedFor(writes, m, now) {
          var k :| 0 <= k < |writes| && writes[k].Added? && writes[k].member == m && writes[k].deadline >= now
                   && forall l :: k < l < |writes| ==> !Touches(writes[l], m);
          assert front[k] == writes[k] && forall l :: k < l < |front| ==> front[l] == writes[l];
        }
      }
    }
  }

  /** In every run: a member is missing from what a poll lists exactly when no entry with a
      deadline to come was ever added for it, or each was removed, or replaced, afterwards. */
  lemma UnlistedExactly(start: int, callers: nat, steps: seq<Step>, m: string)
    requires Runs(Start(start, callers), steps)
    ensures var v := Exec(Start(start, callers), steps);
            !Shown(v, m) <==>
              forall k :: 0 <= k < |v.writes| && v.writes[k].Added? && v.writes[k].member == m
                          && v.writes[k].deadline >= v.now ==>
                exists l :: k < l < |v.writes| && Touches(v.writes[l], m)
  {
    RunKeepsInv(Start(start, callers), steps);
    var v := Exec(Start(start, callers), steps);
    ScoreIsLastAdded(v.writes, m, v.now);
    assert Score(v.writes, m) == Lookup(v.store.index, m);
  }

  predicate OneDeadline(writes: seq<Write>, m: string, deadline: int) {
    forall k :: 0 <= k < |writes| && writes[k].Added? && writes[k].member == m ==> writes[k].deadline == deadline
  }

  /** A challenge whose deadline was only ever given once: until it passes, its member is missing
      exactly when its entry never came, or a removal of the member came after it. */
  lemma NeverCameOrWasRemoved(start: int, callers: nat, steps: seq<Step>, m: string, deadline: int)
    requires Runs(Start(start, callers), steps)
    requires var v := Exec(Start(start, callers), steps); OneDeadline(v.writes, m, deadline) && v.now <= deadline
    ensures var v := Exec(Start(start, callers), steps);
            !Shown(v, m) <==>
              forall k :: 0 <= k < |v.writes| && v.writes[k] == Added(m, deadline) ==>
                exists l :: k < l < |v.writes| && v.writes[l].Removed? && m in v.writes[l].members
  {
    UnlistedExactly(start, callers, steps, m);
    var v := Exec(Start(start, callers), steps);
    if !Shown(v, m) {
      forall k | 0 <= k < |v.writes| && v.writes[k] == Added(m, deadline)
        ensures exists l :: k < l < |v.writes| && v.writes[l].Removed? && m in v.writes[l].members
      {
        RemovedAfter(v, m, deadline, k);
      }
    }
  }

  lemma {:induction false} RemovedAfter(v: World, m: string, deadline: int, k: nat)
    requires k < |v.writes| && v.writes[k] == Added(m, deadline) && OneDeadline(v.writes, m, deadline)
    requires forall i :: 0 <= i < |v.writes| && v.writes[i] == Added(m, deadline) ==>
               exists l :: i < l < |v.writes| && Touches(v.writes[l], m)
    ensures exists l :: k < l < |v.writes| && v.writes[l].Removed? && m in v.writes[l].members
    decreases |v.writes| - k
  {
    var l :| k < l < |v.writes| && Touches(v.writes[l], m);
    if v.writes[l].Added? {
      RemovedAfter(v, m, deadline, l);
    }
  }

  // ------------------------------------------------- how a live code goes astray

  function LiveCode(w: World, provider: string, id: string): Option<Challenge> {
    Get(w.store, provider, id, w.now)
  }

  predicate Placed(w: World, c: Challenge) {
    var m := Member(c.provider, c.id); m in w.store.index && w.store.index[m] == c.expiresAt
  }

  predicate Owed(w: World, c: Challenge) {
    exists p :: 0 <= p < |w.pcs| && w.pcs[p] == Indexing(c)
  }

  predicate OwedByOther(w: World, c: Challenge, p: nat) {
    exists q :: 0 <= q < |w.pcs| && q != p && w.pcs[q] == Indexing(c)
  }

  /** A live code that is not in the index under its deadline, and that nobody is about to put
      there. */
  predicate Astray(w: World, provider: string, id: string) {
    var c := LiveCode(w, provider, id);
    c.Some? && !Placed(w, c.value) && !Owed(w, c.value)
  }

  /** The four ways there: the one caller that had stored the code dies before its entry; the
      entry is removed by a `forget` or by a poll that began before the code was stored; or it is
      replaced by the late entry of an earlier code of another deadline. */
  predicate Loses(w: World, s: Step, provider: string, id: string)
    requires Can(w, s)
  {
    var live, m := LiveCode(w, provider, id), Member(provider, id);
    live.Some? && var c := live.value;
    match s
    case Crash(p) => w.pcs[p] == Indexing(c) && !Placed(w, c) && !OwedByOther(w, c, p)
    case Drop(p) => Member(w.pcs[p].provider, w.pcs[p].id) == m && !Owed(w, c)
    case PruneStale(p) => m in w.pcs[p].stale && !Owed(w, c)
    case Index(p) =>
      var late := w.pcs[p].c;
      Member(late.provider, late.id) == m && late.expiresAt != c.expiresAt && !Owed(w, c)
    case _ => false
  }

  lemma LiveIsNamed(w: World, provider: string, id: string)
    requires Inv(w) && ColonFree(provider) && LiveCode(w, provider, id).Some?
    ensures var c := LiveCode(w, provider, id).value; c.provider == provider && c.id == id
  {}

  /** Which code is live changes only by storing one, deleting, evicting or expiry. */
  lemma LiveStays(w: World, s: Step, provider: string, id: string)
    requires Inv(w) && Can(w, s) && ColonFree(provider)
    ensures var v := Do(w, s); var live := LiveCode(v, provider, id);
            live.Some? ==> live == LiveCode(w, provider, id) || Owed(v, live.value)
  {
    if s.Put? {
      KeysApart(s.c.provider, s.c.id, provider, id);
      assert Do(w, s) != w ==> Do(w, s).pcs[s.p] == Indexing(s.c);
    } else if s.Delete? {
      KeysApart(s.provider, s.id, provider, id);
    }
  }

  lemma OwedMoves(w: World, s: Step, c: Challenge)
    requires Can(w, s) && !(s.Put? && Do(w, s) != w && s.c == c)
    ensures Owed(Do(w, s), c) <==>
              if s.Crash? || s.Index? then OwedByOther(w, c, s.p) else Owed(w, c)
  {
    var v := Do(w, s);
    if Owed(v, c) {
      var q :| 0 <= q < |v.pcs| && v.pcs[q] == Indexing(c);
      assert w.pcs[q] == Indexing(c);
    }
    if q :| 0 <= q < |w.pcs| && w.pcs[q] == Indexing(c) && (s.Crash? || s.Index? ==> q != s.p) {
      assert v.pcs[q] == Indexing(c);
    }
  }

  lemma PlacedMoves(w: World, s: Step, c: Challenge)
    requires Inv(w) && Can(w, s) && ColonFree(c.provider)
    ensures var v, m := Do(w, s), Member(c.provider, c.id);
            Placed(v, c) <==>
              match s
              case Index(p) =>
                if Member(w.pcs[p].c.provider, w.pcs[p].c.id) == m then w.pcs[p].c.expiresAt == c.expiresAt
                  else Placed(w, c)
              case Drop(p) => Member(w.pcs[p].provider, w.pcs[p].id) != m && Placed(w, c)
              case PruneStale(p) => m !in w.pcs[p].stale && Placed(w, c)
              case _ => Placed(w, c)
  {}

  /** A live code goes astray by exactly those steps. */
  lemma StepLosesExactly(w: World, s: Step, provider: string, id: string)
    requires Inv(w) && Can(w, s) && ColonFree(provider) && !Astray(w, provider, id)
    ensures Astray(Do(w, s), provider, id) <==> Loses(w, s, provider, id)
  {
    var v, live := Do(w, s), LiveCode(w, provider, id);
    LiveStays(w, s, provider, id);
    if live.Some? {
      LiveIsNamed(w, provider, id);
      OwedMoves(w, s, live.value);
      PlacedMoves(w, s, live.value);
    }
  }

  ghost predicate EverAstray(w: World, steps: seq<Step>, provider: string, id: string)
    requires Runs(w, steps)
    decreases |steps|
  {
    Astray(w, provider, id) || (steps != [] && EverAstray(Do(w, steps[0]), steps[1..], provider, id))
  }

  ghost predicate EverLoses(w: World, steps: seq<Step>, provider: string, id: string)
    requires Runs(w, steps)
    decreases |steps|
  {
    steps != [] && (Loses(w, steps[0], provider, id) || EverLoses(Do(w, steps[0]), steps[1..], provider, id))
  }

  /** In every run some live code is astray at some moment exactly when one of those steps was
      taken. */
  lemma {:induction false} AstrayExactly(w: World, steps: seq<Step>, provider: string, id: string)
    requires Inv(w) && Runs(w, steps) && ColonFree(provider) && !Astray(w, provider, id)
    ensures EverAstray(w, steps, provider, id) <==> EverLoses(w, steps, provider, id)
    ensures Astray(Exec(w, steps), provider, id) ==> EverLoses(w, steps, provider, id)
    decreases |steps|
  {
    if steps != [] {
      StepKeepsInv(w, steps[0]);
      StepLosesExactly(w, steps[0], provider, id);
      if !Astray(Do(w, steps[0]), provider, id) {
        AstrayExactly(Do(w, steps[0]), steps[1..], provider, id);
      }
    }
  }

  // ------------------------------------------------------------------- pruning

  predicate NotPut(s: Step, provider: string, id: string) {
    s.Put? ==> (s.c.provider, s.c.id) != (provider, id)
  }

  /** Whoever has found the challenge's member stale is right. */
  predicate StaleIsDead(w: World, provider: string, id: string) {
    forall p :: 0 <= p < |w.pcs| && w.pcs[p].Looking? && Member(provider, id) in w.pcs[p].stale ==>
      LiveCode(w, provider, id).None?
  }

  lemma StepKeepsStaleDead(w: World, s: Step, provider: string, id: string)
    requires Inv(w) && Can(w, s) && ColonFree(provider) && StaleIsDead(w, provider, id) && NotPut(s, provider, id)
    ensures StaleIsDead(Do(w, s), provider, id)
  {
    var v := Do(w, s);
    if s.Put? {
      KeysApart(s.c.provider, s.c.id, provider, id);
    } else if s.LookUp? {
      LookIsGet(w.store, provider, id, w.now);
    }
    assert LiveCode(w, provider, id).None? ==> LiveCode(v, provider, id).None?;
  }

  /** A poll never removes the entry of a live code, however long it takes between finding members
      stale and pruning them, unless the code was stored in between. */
  lemma {:induction false} PruningIsSafe(w: World, steps: seq<Step>, p: nat, provider: string, id: string)
    requires Inv(w) && Runs(w, steps) && ColonFree(provider) && StaleIsDead(w, provider, id)
    requires (forall s :: s in steps ==> NotPut(s, provider, id)) && Can(Exec(w, steps), PruneStale(p))
    requires LiveCode(Exec(w, steps), provider, id).Some?
    ensures var v := Exec(w, steps); var c := LiveCode(v, provider, id).value;
            Placed(Do(v, PruneStale(p)), c) <==> Placed(v, c)
    ensures !Loses(Exec(w, steps), PruneStale(p), provider, id)
    decreases |steps|
  {
    if steps == [] {
      LiveIsNamed(w, provider, id);
    } else {
      StepKeepsInv(w, steps[0]);
      StepKeepsStaleDead(w, steps[0], provider, id);
      PruningIsSafe(Do(w, steps[0]), steps[1..], p, provider, id);
    }
  }

  // ------------------------------------------------------------ runs that lose none

  ghost predicate LosesNothing(w: World, s: Step)
    requires Can(w, s)
  {
    forall provider, id :: ColonFree(provider) ==> !Loses(w, s, provider, id)
  }

  ghost predicate NeverLoses(w: World, steps: seq<Step>)
    requires Runs(w, steps)
    decreases |steps|
  {
    steps == [] || (LosesNothing(w, steps[0]) && NeverLoses(Do(w, steps[0]), steps[1..]))
  }

  lemma {:induction false} NeverMeansNotEver(w: World, steps: seq<Step>, provider: string, id: string)
    requires Runs(w, steps) && NeverLoses(w, steps) && ColonFree(provider)
    ensures !EverLoses(w, steps, provider, id)
    decreases |steps|
  {
    if steps != [] {
      NeverMeansNotEver(Do(w, steps[0]), steps[1..], provider, id);
    }
  }

  /** However callers interleave and codes are evicted: when no code was lost and no entry is still
      to come, pending answers exactly the live challenges whose deadline has not passed, soonest
      first and each once. */
  lemma PendingIsExact(
    start: int, callers: nat, steps: seq<Step>, limit: nat, members: seq<string>, card: Option<string>)
    requires Runs(Start(start, callers), steps) && NeverLoses(Start(start, callers), steps)
    requires var v := Exec(Start(start, callers), steps);
             && (forall p :: 0 <= p < |v.pcs| ==> !v.pcs[p].Indexing?)
             && Listed(v.store.index, v.now, limit, members) && |members| < limit
    ensures var v := Exec(Start(start, callers), steps); var found := Found(v.store, members, v.now, card);
            (forall c :: c in found <==> Open(v.store, c, v.now, card)) && SoonestFirst(found)
  {
    var w := Start(start, callers);
    var v := Exec(w, steps);
    RunKeepsInv(w, steps);
    forall provider, id | ColonFree(provider) ensures Indexed(v.store, provider, id, v.now) {
      NeverMeansNotEver(w, steps, provider, id);
      AstrayExactly(w, steps, provider, id);
      if LiveCode(v, provider, id).Some? {
        LiveIsNamed(v, provider, id);
      }
    }
    ListedIsExact(v.store, v.now, limit, members, card);
  }

  lemma Prepend(w: World, s: Step, rest: seq<Step>)
    requires Can(w, s) && Runs(Do(w, s), rest)
    ensures Runs(w, [s] + rest) && Exec(w, [s] + rest) == Exec(Do(w, s), rest)
    ensures LosesNothing(w, s) && NeverLoses(Do(w, s), rest) ==> NeverLoses(w, [s] + rest)
  {
    assert ([s] + rest)[1..] == rest;
  }

  lemma {:induction false} Join(w: World, first: seq<Step>, second: seq<Step>)
    requires Runs(w, first) && Runs(Exec(w, first), second)
    ensures Runs(w, first + second) && Exec(w, first + second) == Exec(Exec(w, first), second)
    ensures NeverLoses(w, first) && NeverLoses(Exec(w, first), second) ==> NeverLoses(w, first + second)
    decreases |first|
  {
    if first == [] {
      assert first + second == second;
    } else {
      FrontOfBoth(first, second);
      Join(Do(w, first[0]), first[1..], second);
    }
  }

  // --------------------------------------------------- operations left undisturbed

  /** What a caller did on its own: the whole operation, losing nothing. */
  ghost predicate Undisturbed(w: World, steps: seq<Step>, after: Store) {
    && Runs(w, steps) && NeverLoses(w, steps)
    && var v := Exec(w, steps); v.store == after && v.now == w.now && v.pcs == w.pcs
  }

  lemma RememberingIsARun(w: World, p: nat, c: Challenge) returns (steps: seq<Step>)
    requires Inv(w) && Can(w, Put(p, c))
    ensures Undisturbed(w, steps, Remember(w.store, c, w.now).0)
  {
    var put := Put(p, c);
    var w1 := Do(w, put);
    if w1 == w {
      Prepend(w, put, []);
      steps := [put] + [];
    } else {
      EntryIsOwn(w, p, c);
      Prepend(w1, Index(p), []);
      Prepend(w, put, [Index(p)] + []);
      steps := [put] + ([Index(p)] + []);
      assert Do(w1, Index(p)).pcs == w.pcs;
    }
  }

  lemma EntryIsOwn(w: World, p: nat, c: Challenge)
    requires Inv(w) && Can(w, Put(p, c)) && Do(w, Put(p, c)) != w
    ensures LosesNothing(Do(w, Put(p, c)), Index(p))
  {
    var w1 := Do(w, Put(p, c));
    LifetimeCoversDeadline(c, w.now);
    forall provider, id | ColonFree(provider) ensures !Loses(w1, Index(p), provider, id) {
      KeysApart(c.provider, c.id, provider, id);
    }
  }

  lemma ForgettingIsARun(w: World, p: nat, provider: string, id: string) returns (steps: seq<Step>)
    requires Inv(w) && Can(w, Delete(p, provider, id))
    ensures Undisturbed(w, steps, Forget(w.store, provider, id))
  {
    var delete := Delete(p, provider, id);
    var w1 := Do(w, delete);
    forall q, i | ColonFree(q) ensures !Loses(w1, Drop(p), q, i) {
      KeysApart(provider, id, q, i);
    }
    Prepend(w1, Drop(p), []);
    Prepend(w, delete, [Drop(p)] + []);
    steps := [delete] + ([Drop(p)] + []);
    assert Do(w1, Drop(p)).pcs == w.pcs;
  }

  lemma {:induction false} LookUpsAreARun(w: World, p: nat) returns (steps: seq<Step>)
    requires p < |w.pcs| && w.pcs[p].Looking?
    ensures Runs(w, steps) && NeverLoses(w, steps)
    ensures Exec(w, steps) == At(w, p, Looking([], w.pcs[p].stale + Stale(w.store, w.pcs[p].rest, w.now)))
    decreases |w.pcs[p].rest|
  {
    var pc := w.pcs[p];
    if pc.rest == [] {
      steps := [];
      assert pc.stale + Stale(w.store, [], w.now) == pc.stale;
      assert w.pcs[p := pc] == w.pcs;
    } else {
      var v := Do(w, LookUp(p));
      var rest := LookUpsAreARun(v, p);
      Prepend(w, LookUp(p), rest);
      steps := [LookUp(p)] + rest;
      assert pc.rest == [pc.rest[0]] + pc.rest[1..];
      assert Stale(w.store, [pc.rest[0]], w.now) + Stale(w.store, pc.rest[1..], w.now)
             == Stale(w.store, pc.rest, w.now);
      var last := Looking([], pc.stale + Stale(w.store, pc.rest, w.now));
      assert v.pcs[p].stale + Stale(w.store, pc.rest[1..], w.now) == last.stale;
      assert v.pcs[p := last] == w.pcs[p := last];
    }
  }

  lemma PollingIsARun(w: World, p: nat, members: seq<string>, limit: nat) returns (steps: seq<Step>)
    requires Inv(w) && Can(w, Range(p, members, limit))
    ensures Undisturbed(w, steps, Prune(w.store, Stale(w.store, members, w.now)))
  {
    var range := Range(p, members, limit);
    var w1 := Do(w, range);
    var looks := LookUpsAreARun(w1, p);
    var w2 := Exec(w1, looks);
    assert w2.pcs[p].stale == Stale(w.store, members, w.now);
    forall provider, id | ColonFree(provider) ensures !Loses(w2, PruneStale(p), provider, id) {
      LookIsGet(w.store, provider, id, w.now);
    }
    Prepend(w2, PruneStale(p), []);
    Join(w1, looks, [PruneStale(p)] + []);
    Prepend(w, range, looks + ([PruneStale(p)] + []));
    steps := [range] + (looks + ([PruneStale(p)] + []));
    assert Do(w2, PruneStale(p)).pcs == w.pcs;
  }

  lemma OpIsARun(w: World, p: nat, op: Op) returns (steps: seq<Step>)
    requires Inv(w) && p < |w.pcs| && w.pcs[p].Idle? && w.now <= op.now && CanOp(w.store, op)
    ensures Runs(w, steps) && NeverLoses(w, steps) && Exec(w, steps).pcs == w.pcs
    ensures Exec(w, steps).store == DoOp(w.store, op) && Exec(w, steps).now == op.now
  {
    var tick := Tick(op.now - w.now);
    var w1 := Do(w, tick);
    StepKeepsInv(w, tick);
    var rest;
    match op {
      case Remembering(c, _) => rest := RememberingIsARun(w1, p, c);
      case Forgetting(provider, id, _) => rest := ForgettingIsARun(w1, p, provider, id);
      case Polling(members, limit, _) => rest := PollingIsARun(w1, p, members, limit);
    }
    Prepend(w, tick, rest);
    steps := [tick] + rest;
  }

  lemma {:induction false} OpsAreARun(w: World, p: nat, ops: seq<Op>) returns (steps: seq<Step>)
    requires Inv(w) && p < |w.pcs| && w.pcs[p].Idle? && Ops(w.store, w.now, ops)
    ensures Runs(w, steps) && NeverLoses(w, steps) && Exec(w, steps).pcs == w.pcs
    ensures Exec(w, steps).store == After(w.store, ops) && Exec(w, steps).now == LastTime(w.now, ops)
    decreases |ops|
  {
    steps := [];
    if ops != [] {
      var first := OpIsARun(w, p, ops[0]);
      RunKeepsInv(w, first);
      var rest := OpsAreARun(Exec(w, first), p, ops[1..]);
      Join(w, first, rest);
      steps := first + rest;
    }
  }

  /** Whole operations one after another are such a run, so pending is exact after any of them. */
  lemma WholeOperationsAreExact(
    ops: seq<Op>, start: int, now: int, limit: nat, members: seq<string>, card: Option<string>)
    requires Ops(NOTHING_STORED, start, ops) && LastTime(start, ops) <= now
    requires Listed(After(NOTHING_STORED, ops).index, now, limit, members) && |members| < limit
    ensures var s := After(NOTHING_STORED, ops); var found := Found(s, members, now, card);
            (forall c :: c in found <==> Open(s, c, now, card)) && SoonestFirst(found)
  {
    var w := Start(start, 1);
    var steps := OpsAreARun(w, 0, ops);
    var v := Exec(w, steps);
    var tick := Tick(now - v.now);
    var wait := [tick] + [];
    Prepend(v, tick, []);
    assert LosesNothing(v, tick) && NeverLoses(v, wait);
    Join(w, steps, wait);
    assert NeverLoses(w, steps + wait);
    PendingIsExact(start, 1, steps + wait, limit, members, card);
  }

  // ------------------------------------------------------------- the races happen

  // Two callers, and a second code under an id that had one before.

  predicate Again(c: Challenge, again: Challenge, now: int) {
    ColonFree(c.provider) && again.provider == c.provider && again.id == c.id && now < c.expiresAt
      && now < again.expiresAt
  }

  /** The world once the first code is stored and indexed. */
  function FirstStored(c: Challenge, now: int): World {
    World(now, PutIndex(PutCode(NOTHING_STORED, c, now), c), [Added(Member(c.provider, c.id), c.expiresAt)],
      [Idle, Idle])
  }

  lemma StoresFirst(c: Challenge, now: int, rest: seq<Step>)
    requires ColonFree(c.provider) && now < c.expiresAt && Runs(FirstStored(c, now), rest)
    ensures var steps := [Put(0, c)] + ([Index(0)] + rest);
            Runs(Start(now, 2), steps) && Exec(Start(now, 2), steps) == Exec(FirstStored(c, now), rest)
  {
    var w := Start(now, 2);
    LifetimeCoversDeadline(c, now);
    var w1 := Do(w, Put(0, c));
    assert w1.pcs == [Indexing(c), Idle];
    assert Do(w1, Index(0)) == FirstStored(c, now);
    Prepend(w1, Index(0), rest);
    Prepend(w, Put(0, c), [Index(0)] + rest);
  }

  /** Storing the second code while the other caller still has a call to make. */
  lemma StoresAgain(w: World, again: Challenge, last: Step)
    requires |w.pcs| == 2 && w.pcs[0] == Idle && ColonFree(again.provider) && w.now < again.expiresAt
    requires Get(w.store, again.provider, again.id, w.now).None? && Can(Indexed2(w, again), last)
    ensures var steps := [Put(0, again)] + ([Index(0)] + ([last] + []));
            Runs(w, steps) && Exec(w, steps) == Do(Indexed2(w, again), last)
  {
    LifetimeCoversDeadline(again, w.now);
    var w1 := Do(w, Put(0, again));
    assert Do(w1, Index(0)).pcs == w.pcs;
    Prepend(Indexed2(w, again), last, []);
    Prepend(w1, Index(0), [last] + []);
    Prepend(w, Put(0, again), [Index(0)] + ([last] + []));
  }

  function Indexed2(w: World, again: Challenge): World {
    w.(store := PutIndex(PutCode(w.store, again, w.now), again),
       writes := w.writes + [Added(Member(again.provider, again.id), again.expiresAt)])
  }

  /** A `forget` between its two calls: the new code's entry goes with the old one's. */
  lemma LateForgetHidesACode(c: Challenge, again: Challenge, now: int)
    requires Again(c, again, now)
    ensures var steps := [Put(0, c)] + ([Index(0)] + ([Delete(1, c.provider, c.id)]
                         + ([Put(0, again)] + ([Index(0)] + ([Drop(1)] + [])))));
            Runs(Start(now, 2), steps) && var v := Exec(Start(now, 2), steps);
            LiveCode(v, c.provider, c.id) == Some(again) && !Shown(v, Member(c.provider, c.id))
  {
    var w2 := FirstStored(c, now);
    var delete := Delete(1, c.provider, c.id);
    var w3 := Do(w2, delete);
    LifetimeCoversDeadline(again, now);
    StoresAgain(w3, again, Drop(1));
    var rest := [Put(0, again)] + ([Index(0)] + ([Drop(1)] + []));
    Prepend(w2, delete, rest);
    StoresFirst(c, now, [delete] + rest);
  }

  /** A poll that found the member stale prunes it after the challenge was remembered again. */
  lemma LatePruneHidesACode(c: Challenge, again: Challenge, now: int)
    requires Again(c, again, now)
    ensures var m := Member(c.provider, c.id);
            var steps := [Put(0, c)]
                + ([Index(0)] + ([Evict(ChallengeKey(c.provider, c.id))] + ([Range(1, [m], 1)] + ([LookUp(1)]
                         + ([Put(0, again)] + ([Index(0)] + ([PruneStale(1)] + [])))))));
            Runs(Start(now, 2), steps) && var v := Exec(Start(now, 2), steps);
            LiveCode(v, c.provider, c.id) == Some(again) && !Shown(v, m)
  {
    var m := Member(c.provider, c.id);
    var w2 := FirstStored(c, now);
    var evict := Evict(ChallengeKey(c.provider, c.id));
    var w3 := Do(w2, evict);
    var w4 := Do(w3, Range(1, [m], 1));
    var w5 := Do(w4, LookUp(1));
    LookIsGet(w3.store, c.provider, c.id, now);
    LifetimeCoversDeadline(again, now);
    assert [m][1..] == [] && [[m][0]] == [m];
    assert Look(w3.store, m, now).None? && Stale(w3.store, [m], now) == {m};
    assert w5.pcs == [Idle, Looking([], {} + {m})];
    StoresAgain(w5, again, PruneStale(1));
    var rest := [Put(0, again)] + ([Index(0)] + ([PruneStale(1)] + []));
    Prepend(w4, LookUp(1), rest);
    Prepend(w3, Range(1, [m], 1), [LookUp(1)] + rest);
    Prepend(w2, evict, [Range(1, [m], 1)] + ([LookUp(1)] + rest));
    StoresFirst(c, now, [evict] + ([Range(1, [m], 1)] + ([LookUp(1)] + rest)));
  }

  /** The entry of the first code comes only after the second's, and replaces it by its own,
      shorter deadline. */
  lemma LateEntryHidesACode(c: Challenge, again: Challenge, now: int)
    requires Again(c, again, now) && c.expiresAt < again.expiresAt
    ensures var steps := [Put(0, c)] + ([Delete(1, c.provider, c.id)] + ([Drop(1)] + ([Put(1, again)] + ([Index(1)]
                         + ([Index(0)] + ([Tick(c.expiresAt + 1 - now)] + []))))));
            Runs(Start(now, 2), steps) && var v := Exec(Start(now, 2), steps);
            v.now <= again.expiresAt && !Shown(v, Member(c.provider, c.id))
            && (v.now < again.expiresAt ==> LiveCode(v, c.provider, c.id) == Some(again))
  {
    var w := Start(now, 2);
    LifetimeCoversDeadline(c, now);
    LifetimeCoversDeadline(again, now);
    var delete, tick := Delete(1, c.provider, c.id), Tick(c.expiresAt + 1 - now);
    var w1 := Do(w, Put(0, c));
    var w2 := Do(w1, delete);
    var w3 := Do(w2, Drop(1));
    assert w3.pcs == [Indexing(c), Idle];
    var w4 := Do(w3, Put(1, again));
    assert w4.pcs == [Indexing(c), Indexing(again)];
    var w5 := Do(w4, Index(1));
    var w6 := Do(w5, Index(0));
    Prepend(w6, tick, []);
    Prepend(w5, Index(0), [tick] + []);
    Prepend(w4, Index(1), [Index(0)] + ([tick] + []));
    Prepend(w3, Put(1, again), [Index(1)] + ([Index(0)] + ([tick] + [])));
    Prepend(w2, Drop(1), [Put(1, again)] + ([Index(1)] + ([Index(0)] + ([tick] + []))));
    Prepend(w1, delete, [Drop(1)] + ([Put(1, again)] + ([Index(1)] + ([Index(0)] + ([tick] + [])))));
    Prepend(w, Put(0, c), [delete] + ([Drop(1)] + ([Put(1, again)] + ([Index(1)] + ([Index(0)] + ([tick] + []))))));
  }
}
