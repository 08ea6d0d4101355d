/** Keys written as two names around a colon, and when that keeps them apart. */
module Keys {

  function Join(left: string, right: string): string {
    left + ":" + right
  }

  predicate ColonFree(s: string) {
    forall i :: 0 <= i < |s| ==> s[i] != ':'
  }

  function FirstColon(s: string, from: nat): (at: nat)
    ensures at >= from
    decreases |s| - from
  {
    if from >= |s| || s[from] == ':' then from else FirstColon(s, from + 1)
  }

  /** Everything before the first colon, and everything after it. */
  function Partition(s: string): (string, string) {
    var at := FirstColon(s, 0);
    if at >= |s| then (s, "") else (s[..at], s[at + 1..])
  }

  lemma {:induction false} FirstColonIs(s: string, from: nat, at: nat)
    requires from <= at < |s| && s[at] == ':' && forall i :: from <= i < at ==> s[i] != ':'
    ensures FirstColon(s, from) == at
    decreases at - from
  {
    if from < at {
      FirstColonIs(s, from + 1, at);
    }
  }

  /** Splitting undoes joining when the left name has no colon. */
  lemma PartitionJoin(left: string, right: string)
    requires ColonFree(left)
    ensures Partition(Join(left, right)) == (left, right)
  {
    var s := Join(left, right);
    FirstColonIs(s, 0, |left|);
    assert s[..|left|] == left && s[|left| + 1..] == right;
  }

  lemma JoinInjective(prefix: string, l1: string, r1: string, l2: string, r2: string)
    requires ColonFree(l1) && ColonFree(l2)
    ensures prefix + Join(l1, r1) == prefix + Join(l2, r2) <==> l1 == l2 && r1 == r2
  {
    PartitionJoin(l1, r1);
    PartitionJoin(l2, r2);
    if prefix + Join(l1, r1) == prefix + Join(l2, r2) {
      assert (prefix + Join(l1, r1))[|prefix|..] == Join(l1, r1);
      assert (prefix + Join(l2, r2))[|prefix|..] == Join(l2, r2);
    }
  }

  /** With a colon on the left two different pairs can share a key. */
  lemma ColonsCollide(a: string, b: string, c: string)
    ensures Join(Join(a, b), c) == Join(a, Join(b, c))
  {}
}
