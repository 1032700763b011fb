/** Small shared vocabulary: optional values, results, and the truthiness and
    lower-casing of text that the services rely on. */
module Prelude {

  datatype Option<+T> = None | Some(value: T)

  datatype Result<+T, +E> = Success(value: T) | Failure(error: E)

  /** Python truthiness of an optional string: neither null nor empty. */
  predicate Truthy(s: Option<string>) {
    s.Some? && s.value != ""
  }

  function LowerChar(c: char): char {
    if 'A' <= c <= 'Z' then (c as int + 32) as char else c
  }

  function Lower(s: string): string {
    seq(|s|, i requires 0 <= i < |s| => LowerChar(s[i]))
  }

  function Max(a: int, b: int): int {
    if a < b then b else a
  }

  /** Two members of a one-element set are the same member. */
  lemma SingletonUnique<T>(s: set<T>)
    requires |s| == 1
    ensures forall x, y | x in s && y in s :: x == y
  {
    forall x, y | x in s && y in s
      ensures x == y
    {
      assert |s - {x}| == 0;
    }
  }

  /** A non-empty set has a member. */
  lemma Member<T>(s: set<T>) returns (x: T)
    requires |s| > 0
    ensures x in s
  {
    x :| x in s;
  }

  lemma {:induction false} RangeSize(s: set<int>, a: int, n: nat)
    requires forall k | k in s :: a <= k < a + n
    ensures |s| <= n
  {
    if n == 0 {
      if |s| > 0 {
        var k := Member(s);
        assert false;
      }
    } else {
      RangeSize(s - {a + n - 1}, a, n - 1);
    }
  }

  lemma {:induction false} LeastMember(s: set<int>) returns (a: int)
    requires |s| > 0
    ensures a in s && forall k | k in s :: a <= k
    decreases |s|
  {
    var x := Member(s);
    a := x;
    assert forall k | k in s :: k == x || k in s - {x};
    if |s - {x}| > 0 {
      var b := LeastMember(s - {x});
      a := if x < b then x else b;
    }
  }

  /** Values that never change from one to the next are the same. */
  lemma {:induction false} SameAlong<T>(values: seq<T>, i: nat, j: nat)
    requires i <= j < |values| && forall k | i <= k < j :: values[k + 1] == values[k]
    ensures values[j] == values[i]
    decreases j - i
  {
    if i == j {
    } else {
      SameAlong(values, i, j - 1);
    }
  }
}
