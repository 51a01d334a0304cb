/** Option, and finite sums that do not depend on the order of their terms. */
module Common {
  datatype Option<+T> = None | Some(value: T)

  datatype Result<+T, +E> = Ok(value: T) | Err(error: E)

  function Max(a: int, b: int): int { if a < b then b else a }

  function Min(a: int, b: int): int { if a < b then a else b }

  /** JavaScript's `a ?? b`, and SQL's two-argument coalesce. */
  function Coalesce<T>(first: Option<T>, second: Option<T>): Option<T> {
    if first.Some? then first else second
  }

  /** Both values are known, and they differ. */
  predicate Clash<T(==)>(a: Option<T>, b: Option<T>) {
    a.Some? && b.Some? && a != b
  }
}

module Sums {
  /** The sum of f over a finite set. */
  ghost function Over<T(!new)>(s: set<T>, f: T -> int): int
    decreases s
  {
    if s == {} then 0
    else
      var x :| x in s;
      f(x) + Over(s - {x}, f)
  }

  /** Any member can be taken out of the sum first. */
  lemma {:induction false} Split<T(!new)>(s: set<T>, x: T, f: T -> int)
    requires x in s
    ensures Over(s, f) == f(x) + Over(s - {x}, f)
    decreases s
  {
    var y :| y in s && Over(s, f) == f(y) + Over(s - {y}, f);
    if y != x {
      Split(s - {y}, x, f);
      Split(s - {x}, y, f);
      assert s - {y} - {x} == s - {x} - {y};
    }
  }

  lemma {:induction false} Insert<T(!new)>(s: set<T>, x: T, f: T -> int)
    requires x !in s
    ensures Over(s + {x}, f) == Over(s, f) + f(x)
  {
    Split(s + {x}, x, f);
    assert s + {x} - {x} == s;
  }

  lemma {:induction false} Same<T(!new)>(s: set<T>, f: T -> int, g: T -> int)
    requires forall x :: x in s ==> f(x) == g(x)
    ensures Over(s, f) == Over(s, g)
    decreases s
  {
    if s != {} {
      var x :| x in s;
      Split(s, x, f);
      Split(s, x, g);
      Same(s - {x}, f, g);
    }
  }

  lemma {:induction false} AtMostZero<T(!new)>(s: set<T>, f: T -> int)
    requires forall x :: x in s ==> f(x) <= 0
    ensures Over(s, f) <= 0
    decreases s
  {
    if s != {} {
      var x :| x in s;
      Split(s, x, f);
      AtMostZero(s - {x}, f);
    }
  }

  /** Members whose term is zero do not matter. */
  lemma {:induction false} Padded<T(!new)>(s: set<T>, t: set<T>, f: T -> int)
    requires s <= t
    requires forall x :: x in t && x !in s ==> f(x) == 0
    ensures Over(s, f) == Over(t, f)
    decreases t
  {
    if s == t {
    } else {
      var x :| x in t && x !in s;
      Split(t, x, f);
      Padded(s, t - {x}, f);
    }
  }

  lemma {:induction false} TakeOut<T>(s: seq<T>, k: nat)
    requires k < |s|
    ensures multiset(s) - multiset{s[k]} == multiset(s[..k] + s[k + 1..])
  {
    assert s == s[..k] + [s[k]] + s[k + 1..];
    assert multiset(s) == multiset(s[..k]) + multiset{s[k]} + multiset(s[k + 1..]);
  }
}
