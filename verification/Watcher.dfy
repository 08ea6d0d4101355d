/** Reading deposits off a chain account by the difference it makes to the balance. */
module Watcher {
  import opened Basics
  import opened Ledger

  /** What the node says of one transaction: `touches` is whether the watched account is in it,
      `pre` and `post` its token balances, absent when there is no entry for it. */
  datatype Transaction = Transaction(failed: bool, touches: bool, pre: Option<nat>, post: Option<nat>)

  datatype Entry = Entry(sig: Signature, slot: int, failedInIndex: bool, tx: Transaction)

  datatype Reason = FailedOnChain | NotInTransaction | NoBalance | NotACredit | BelowMinorUnit

  datatype Deposit = Deposit(sig: Signature, slot: int, baseUnits: int, minor: int, dust: int)

  datatype Ignored = Ignored(sig: Signature, slot: int, reason: Reason, baseUnits: Option<int>)

  datatype Finding = Credit(deposit: Deposit) | Skip(ignored: Ignored)

  datatype Position = Position(sig: Signature, slot: int)

  datatype Page = Page(
    deposits: seq<Deposit>, ignored: seq<Ignored>, cursor: Option<Position>, stoppedEarly: bool)

  function OrZero(b: Option<nat>): nat {
    if b.Some? then b.value else 0
  }

  /** One readable transaction; `unit` is base units to one minor unit. */
  function Interpret(e: Entry, unit: nat): Finding
    requires unit > 0
  {
    var t := e.tx;
    if t.failed then Skip(Ignored(e.sig, e.slot, FailedOnChain, None))
    else if !t.touches then Skip(Ignored(e.sig, e.slot, NotInTransaction, None))
    else if t.post.None? then Skip(Ignored(e.sig, e.slot, NoBalance, None))
    else
      var credited := t.post.value - OrZero(t.pre);
      if credited <= 0 then Skip(Ignored(e.sig, e.slot, NotACredit, Some(credited)))
      else if credited / unit == 0 then Skip(Ignored(e.sig, e.slot, BelowMinorUnit, Some(credited)))
      else Credit(Deposit(e.sig, e.slot, credited, credited / unit, credited % unit))
  }

  /** What the transaction added to the account; with no entry before it the account is new. */
  function NetIn(e: Entry): int {
    (if e.tx.post.Some? then e.tx.post.value else 0) - if e.tx.pre.Some? then e.tx.pre.value else 0
  }

  /** Neither the index nor the transaction says it failed. */
  predicate Succeeded(e: Entry) {
    !(e.failedInIndex || e.tx.failed)
  }

  /** What a deposit is, in the node's own words: a transaction that succeeded, that the account
      is in and has a balance after, and that added at least one minor unit to it. */
  predicate IsDeposit(e: Entry, unit: nat) {
    Succeeded(e) && e.tx.touches && e.tx.post.Some? && NetIn(e) >= unit
  }

  function FindingOf(e: Entry, unit: nat): (f: Finding)
    requires unit > 0
    ensures f.Credit? <==> IsDeposit(e, unit)
  {
    if e.failedInIndex then Skip(Ignored(e.sig, e.slot, FailedOnChain, None)) else Interpret(e, unit)
  }

  function Deposits(es: seq<Entry>, unit: nat): seq<Deposit>
    requires unit > 0
  {
    if es == [] then []
    else
      var f := FindingOf(es[|es| - 1], unit);
      Deposits(es[..|es| - 1], unit) + if f.Credit? then [f.deposit] else []
  }

  function Ignoreds(es: seq<Entry>, unit: nat): seq<Ignored>
    requires unit > 0
  {
    if es == [] then []
    else
      var f := FindingOf(es[|es| - 1], unit);
      Ignoreds(es[..|es| - 1], unit) + if f.Skip? then [f.ignored] else []
  }

  predicate Readable(e: Entry, available: set<Signature>) {
    e.failedInIndex || e.sig in available
  }

  /** How many entries, oldest first, come before the first that cannot be read yet. */
  function ReadableUpTo(es: seq<Entry>, available: set<Signature>): (n: nat)
    ensures n <= |es|
  {
    if es == [] || !Readable(es[0], available) then 0
    else 1 + ReadableUpTo(es[1..], available)
  }

  function PositionAfter(es: seq<Entry>): Option<Position> {
    if es == [] then None else Some(Position(es[|es| - 1].sig, es[|es| - 1].slot))
  }

  /** One poll's page, from what the node listed oldest first. */
  function PageOf(es: seq<Entry>, available: set<Signature>, unit: nat): Page
    requires unit > 0
  {
    var n := ReadableUpTo(es, available);
    Page(Deposits(es[..n], unit), Ignoreds(es[..n], unit), PositionAfter(es[..n]), n < |es|)
  }

  /** The page so far, when the first `n` entries have been read. */
  ghost predicate SoFar(es: seq<Entry>, n: nat, unit: nat, page: Page)
    requires unit > 0 && n <= |es|
  {
    page.deposits == Deposits(es[..n], unit) && page.ignored == Ignoreds(es[..n], unit)
    && page.cursor == PositionAfter(es[..n])
  }

  function Plus(page: Page, f: Finding, at: Position): Page {
    match f
    case Credit(d) => page.(deposits := page.deposits + [d], cursor := Some(at))
    case Skip(i) => page.(ignored := page.ignored + [i], cursor := Some(at))
  }

  lemma OneMore(es: seq<Entry>, n: nat, unit: nat, page: Page)
    requires unit > 0 && n < |es| && SoFar(es, n, unit, page)
    ensures SoFar(es, n + 1, unit, Plus(page, FindingOf(es[n], unit), Position(es[n].sig, es[n].slot)))
  {
    assert es[..n + 1][..n] == es[..n];
  }

  lemma {:induction false} ReadableStops(es: seq<Entry>, available: set<Signature>, n: nat)
    requires n <= |es| && (forall k :: 0 <= k < n ==> Readable(es[k], available))
    requires n < |es| ==> !Readable(es[n], available)
    ensures ReadableUpTo(es, available) == n
  {
    if n > 0 {
      ReadableStops(es[1..], available, n - 1);
    }
  }

  lemma PageIsComplete(es: seq<Entry>, available: set<Signature>, n: nat, unit: nat, page: Page)
    requires unit > 0 && n <= |es| && SoFar(es, n, unit, page) && page.stoppedEarly == (n < |es|)
    requires forall k :: 0 <= k < n ==> Readable(es[k], available)
    requires n < |es| ==> !Readable(es[n], available)
    ensures page == PageOf(es, available, unit)
  {
    ReadableStops(es, available, n);
  }

  function Reverse<T>(s: seq<T>): (r: seq<T>)
    ensures |r| == |s| && forall i :: 0 <= i < |s| ==> r[i] == s[|s| - 1 - i]
  {
    if s == [] then [] else [s[|s| - 1]] + Reverse(s[..|s| - 1])
  }

  lemma ReverseTwice<T>(s: seq<T>)
    ensures Reverse(Reverse(s)) == s
  {}

  class SolanaDepositWatcher {
    const unit: nat

    ghost predicate Valid() {
      unit > 0
    }

    constructor (unit: nat)
      requires unit > 0
      ensures Valid() && this.unit == unit
    {
      this.unit := unit;
    }

    /** `listing` is the node's answer, newest first; `available` the transactions it can show. */
    method Poll(listing: seq<Entry>, available: set<Signature>) returns (page: Page)
      requires Valid()
      ensures page == PageOf(Reverse(listing), available, unit)
    {
      var deposits, ignored := [], [];
      var cursor := None;
      var stoppedEarly := false;
      ghost var es := Reverse(listing);
      var i := |listing|;
      while i > 0
        invariant 0 <= i <= |listing| && !stoppedEarly
        invariant forall k :: 0 <= k < |listing| - i ==> Readable(es[k], available)
        invariant SoFar(es, |listing| - i, unit, Page(deposits, ignored, cursor, false))
      {
        var entry := listing[i - 1];
        assert entry == es[|listing| - i];
        OneMore(es, |listing| - i, unit, Page(deposits, ignored, cursor, false));
        if entry.failedInIndex {
          ignored := ignored + [Ignored(entry.sig, entry.slot, FailedOnChain, None)];
        } else if entry.sig !in available {
          stoppedEarly := true;
          break;
        } else {
          var outcome := Interpret(entry, unit);
          if outcome.Credit? {
            deposits := deposits + [outcome.deposit];
          } else {
            ignored := ignored + [outcome.ignored];
          }
        }
        cursor := Some(Position(entry.sig, entry.slot));
        i := i - 1;
      }
      page := Page(deposits, ignored, cursor, stoppedEarly);
      PageIsComplete(es, available, |listing| - i, unit, page);
    }
  }

  // -------------------------------------------------------------------- laws

  lemma {:induction false} EveryEntryIsListed(es: seq<Entry>, unit: nat, i: nat)
    requires unit > 0 && i < |es|
    ensures match FindingOf(es[i], unit)
            case Credit(d) => d in Deposits(es, unit)
            case Skip(x) => x in Ignoreds(es, unit)
  {
    if i < |es| - 1 {
      EveryEntryIsListed(es[..|es| - 1], unit, i);
    }
  }

  lemma {:induction false} EveryDepositIsAnEntry(es: seq<Entry>, unit: nat, d: Deposit) returns (i: nat)
    requires unit > 0 && d in Deposits(es, unit)
    ensures i < |es| && FindingOf(es[i], unit) == Credit(d)
  {
    i := |es| - 1;
    if FindingOf(es[i], unit) != Credit(d) {
      i := EveryDepositIsAnEntry(es[..i], unit, d);
    }
  }

  lemma {:induction false} EverySkipIsAnEntry(es: seq<Entry>, unit: nat, x: Ignored) returns (i: nat)
    requires unit > 0 && x in Ignoreds(es, unit)
    ensures i < |es| && FindingOf(es[i], unit) == Skip(x)
  {
    i := |es| - 1;
    if FindingOf(es[i], unit) != Skip(x) {
      i := EverySkipIsAnEntry(es[..i], unit, x);
    }
  }

  /** Each consumed entry is in the list its finding says, and nothing else is in either. */
  lemma {:induction false} EveryEntryOnce(es: seq<Entry>, unit: nat)
    requires unit > 0
    ensures |Deposits(es, unit)| + |Ignoreds(es, unit)| == |es|
    ensures forall i :: 0 <= i < |es| && FindingOf(es[i], unit).Credit? ==>
              FindingOf(es[i], unit).deposit in Deposits(es, unit)
    ensures forall i :: 0 <= i < |es| && FindingOf(es[i], unit).Skip? ==>
              FindingOf(es[i], unit).ignored in Ignoreds(es, unit)
    ensures forall d :: d in Deposits(es, unit) ==>
              exists i :: 0 <= i < |es| && FindingOf(es[i], unit) == Credit(d)
    ensures forall x :: x in Ignoreds(es, unit) ==>
              exists i :: 0 <= i < |es| && FindingOf(es[i], unit) == Skip(x)
  {
    if es != [] {
      EveryEntryOnce(es[..|es| - 1], unit);
    }
    forall i | 0 <= i < |es|
      ensures match FindingOf(es[i], unit)
              case Credit(d) => d in Deposits(es, unit)
              case Skip(x) => x in Ignoreds(es, unit)
    {
      EveryEntryIsListed(es, unit, i);
    }
    forall d | d in Deposits(es, unit) ensures exists i :: 0 <= i < |es| && FindingOf(es[i], unit) == Credit(d) {
      var i := EveryDepositIsAnEntry(es, unit, d);
    }
    forall x | x in Ignoreds(es, unit) ensures exists i :: 0 <= i < |es| && FindingOf(es[i], unit) == Skip(x) {
      var i := EverySkipIsAnEntry(es, unit, x);
    }
  }

  /** How many entries were found to be `f`. */
  function CountOf(es: seq<Entry>, unit: nat, f: Finding): nat
    requires unit > 0
  {
    if es == [] then 0
    else CountOf(es[..|es| - 1], unit, f) + if FindingOf(es[|es| - 1], unit) == f then 1 else 0
  }

  /** A finding is listed as often as it was made. */
  lemma {:induction false} ListedAsOftenAsFound(es: seq<Entry>, unit: nat, d: Deposit, x: Ignored)
    requires unit > 0
    ensures multiset(Deposits(es, unit))[d] == CountOf(es, unit, Credit(d))
    ensures multiset(Ignoreds(es, unit))[x] == CountOf(es, unit, Skip(x))
  {
    if es != [] {
      ListedAsOftenAsFound(es[..|es| - 1], unit, d, x);
    }
  }

  predicate Skipped(e: Entry, unit: nat, reason: Reason)
    requires unit > 0
  {
    FindingOf(e, unit).Skip? && FindingOf(e, unit).ignored.reason == reason
  }

  /** What becomes of a transaction is decided by the node's fields: a credit exactly for a
      deposit, and each reason for ignoring one exactly when it is the first that applies. */
  lemma FindingIsExact(e: Entry, unit: nat)
    requires unit > 0
    ensures FindingOf(e, unit).Credit? <==>
              && !e.failedInIndex && !e.tx.failed && e.tx.touches && e.tx.post.Some?
              && e.tx.post.value - (if e.tx.pre.Some? then e.tx.pre.value else 0) >= unit
    ensures Skipped(e, unit, FailedOnChain) <==> e.failedInIndex || e.tx.failed
    ensures Skipped(e, unit, NotInTransaction) <==> Succeeded(e) && !e.tx.touches
    ensures Skipped(e, unit, NoBalance) <==> Succeeded(e) && e.tx.touches && e.tx.post.None?
    ensures Skipped(e, unit, NotACredit) <==>
              Succeeded(e) && e.tx.touches && e.tx.post.Some? && NetIn(e) <= 0
    ensures Skipped(e, unit, BelowMinorUnit) <==>
              Succeeded(e) && e.tx.touches && e.tx.post.Some? && 0 < NetIn(e) < unit
    ensures FindingOf(e, unit).Skip? ==>
              var x := FindingOf(e, unit).ignored;
              && x.sig == e.sig && x.slot == e.slot
              && x.baseUnits
                 == if Succeeded(e) && e.tx.touches && e.tx.post.Some? then Some(NetIn(e)) else None
  {}

  /** What is credited plus what is too fine to credit is what arrived. */
  lemma CreditSplitsExactly(e: Entry, unit: nat)
    requires unit > 0 && IsDeposit(e, unit)
    ensures var d := FindingOf(e, unit).deposit;
            && d.sig == e.sig && d.slot == e.slot && d.minor >= 1 && 0 <= d.dust < unit
            && NetIn(e) == d.baseUnits == d.minor * unit + d.dust
            && d.minor == NetIn(e) / unit
  {}

  // --------------------------------------------------------------- telescope

  /** The transaction really moved the watched account's balance. */
  predicate Moves(e: Entry) {
    !e.failedInIndex && !e.tx.failed && e.tx.touches
  }

  function BalanceAfter(es: seq<Entry>, start: nat): nat {
    if es == [] then start
    else
      var last := es[|es| - 1];
      if Moves(last) then OrZero(last.tx.post) else BalanceAfter(es[..|es| - 1], start)
  }

  /** Each transaction that moved the account found it as the one before left it. */
  predicate Chained(es: seq<Entry>, start: nat) {
    es == [] ||
    (Chained(es[..|es| - 1], start)
     && (Moves(es[|es| - 1]) ==> OrZero(es[|es| - 1].tx.pre) == BalanceAfter(es[..|es| - 1], start)))
  }

  /** Base units the watcher put on record: credited deposits, and ignored transfers that
      name an amount. */
  function Recorded(es: seq<Entry>, unit: nat): int
    requires unit > 0
  {
    if es == [] then 0 else Recorded(es[..|es| - 1], unit) + Amount(FindingOf(es[|es| - 1], unit))
  }

  function Amount(f: Finding): int {
    match f
    case Credit(d) => d.baseUnits
    case Skip(i) => if i.baseUnits.Some? then i.baseUnits.value else 0
  }

  /** Base units that left with an account that was closed, which name no amount. */
  function ClosedAway(es: seq<Entry>): nat {
    if es == [] then 0
    else
      var last := es[|es| - 1];
      ClosedAway(es[..|es| - 1]) + if Moves(last) && last.tx.post.None? then OrZero(last.tx.pre) else 0
  }

  /** Over any run of pages the record sums to the account's net balance change, plus what
      left when it was closed; so it is exact just when nothing left that way. */
  lemma {:induction false} RecordTelescopes(es: seq<Entry>, start: nat, unit: nat)
    requires unit > 0 && Chained(es, start)
    ensures Recorded(es, unit) == BalanceAfter(es, start) - start + ClosedAway(es)
    ensures Recorded(es, unit) == BalanceAfter(es, start) - start <==> ClosedAway(es) == 0
  {
    if es != [] {
      RecordTelescopes(es[..|es| - 1], start, unit);
    }
  }

  function SumDeposits(ds: seq<Deposit>): int {
    if ds == [] then 0 else SumDeposits(ds[..|ds| - 1]) + ds[|ds| - 1].baseUnits
  }

  function SumIgnored(skips: seq<Ignored>): int {
    if skips == [] then 0 else SumIgnored(skips[..|skips| - 1]) + Amount(Skip(skips[|skips| - 1]))
  }

  /** The record is exactly what the two lists say. */
  lemma {:induction false} RecordIsTheLists(es: seq<Entry>, unit: nat)
    requires unit > 0
    ensures Recorded(es, unit) == SumDeposits(Deposits(es, unit)) + SumIgnored(Ignoreds(es, unit))
  {
    if es != [] {
      var n := |es| - 1;
      RecordIsTheLists(es[..n], unit);
      var ds, skips := Deposits(es[..n], unit), Ignoreds(es[..n], unit);
      match FindingOf(es[n], unit)
      case Credit(d) => assert (ds + [d])[..|ds|] == ds && skips + [] == skips;
      case Skip(i) => assert (skips + [i])[..|skips|] == skips && ds + [] == ds;
    }
  }
}
