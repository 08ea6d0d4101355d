/** What every part of the model uses. */
module Basics {

  datatype Option<+T> = None | Some(value: T) {
    function Or(other: Option<T>): Option<T> {
      if Some? then this else other
    }
  }

  function Min(a: int, b: int): int {
    if a < b then a else b
  }

  function Max(a: int, b: int): int {
    if a > b then a else b
  }

  lemma FrontOfBoth<T>(a: seq<T>, b: seq<T>)
    requires a != []
    ensures a + b != [] && (a + b)[0] == a[0] && (a + b)[1..] == a[1..] + b
  {}

  // ------------------------------------------------------ sums over finite sets

  ghost function Sum<T(!new)>(s: set<T>, f: T -> int): int
    decreases |s|
  {
    if s == {} then 0
    else
      var x :| x in s;
      f(x) + Sum(s - {x}, f)
  }

  /** The order in which a sum takes its elements does not matter. */
  lemma {:induction false} SumTakes<T(!new)>(s: set<T>, f: T -> int, x: T)
    requires x in s
    ensures Sum(s, f) == f(x) + Sum(s - {x}, f)
    decreases |s|
  {
    var y :| y in s && Sum(s, f) == f(y) + Sum(s - {y}, f);
    if y != x {
      SumTakes(s - {y}, f, x);
      SumTakes(s - {x}, f, y);
      assert s - {y} - {x} == s - {x} - {y};
    }
  }

  lemma {:induction false} SumAgrees<T(!new)>(s: set<T>, f: T -> int, g: T -> int)
    requires forall x :: x in s ==> f(x) == g(x)
    ensures Sum(s, f) == Sum(s, g)
    decreases |s|
  {
    if s != {} {
      var x :| x in s;
      SumTakes(s, f, x);
      SumTakes(s, g, x);
      SumAgrees(s - {x}, f, g);
    }
  }

  lemma {:induction false} SumGrows<T(!new)>(s: set<T>, t: set<T>, f: T -> int)
    requires s <= t && forall x :: x in t ==> f(x) >= 0
    ensures Sum(s, f) <= Sum(t, f)
    decreases |t|
  {
    if t != {} {
      var x :| x in t;
      SumTakes(t, f, x);
      if x in s {
        SumTakes(s, f, x);
        SumGrows(s - {x}, t - {x}, f);
      } else {
        SumGrows(s, t - {x}, f);
      }
    }
  }

  /** A sum may be taken over where each element is sent, when no two go to one place. */
  lemma {:induction false} SumFollows<T(!new), U(!new)>(s: set<T>, at: map<T, U>, f: T -> int, g: U -> int)
    requires s == at.Keys && (forall x, y :: x in s && y in s && at[x] == at[y] ==> x == y)
    requires forall x :: x in s ==> f(x) == g(at[x])
    ensures Sum(s, f) == Sum(at.Values, g)
    decreases |s|
  {
    if s != {} {
      var x :| x in s;
      var rest := at - {x};
      SumTakes(s, f, x);
      SumTakes(at.Values, g, at[x]);
      SumFollows(s - {x}, rest, f, g);
      assert rest.Values == at.Values - {at[x]} by {
        forall u | u in at.Values - {at[x]} ensures u in rest.Values {
          var y :| y in at && at[y] == u;
          assert y in rest && rest[y] == u;
        }
      }
    }
  }
}
