/** Small shared vocabulary: optional values and searching a list in order. */
module Common {

  datatype Option<+T> = None | Some(value: T)

  /** The first element of a list that satisfies a condition, as `Array.find` gives it. */
  function Find<T>(items: seq<T>, p: T -> bool): (r: Option<T>)
    ensures r.Some? ==> r.value in items && p(r.value)
    ensures r.None? ==> forall x :: x in items ==> !p(x)
  {
    if items == [] then None
    else if p(items[0]) then Some(items[0])
    else Find(items[1..], p)
  }

  /** No element occurs twice. */
  ghost predicate Distinct<T>(items: seq<T>) {
    forall i, j :: 0 <= i < j < |items| ==> items[i] != items[j]
  }

  /** A list without one of its elements, the others in their order. */
  function Without<T(==)>(items: seq<T>, x: T): (r: seq<T>)
    ensures forall y :: y in r ==> y in items && y != x
    ensures forall y :: y in items && y != x ==> y in r
  {
    if items == [] then []
    else if items[0] == x then Without(items[1..], x)
    else [items[0]] + Without(items[1..], x)
  }

  lemma {:induction false} WithoutDistinct<T>(items: seq<T>, x: T)
    requires Distinct(items)
    ensures Distinct(Without(items, x))
  {
    if items != [] {
      assert Distinct(items[1..]);
      WithoutDistinct(items[1..], x);
      var rest := Without(items[1..], x);
      if items[0] != x {
        forall j | 0 <= j < |rest| ensures rest[j] != items[0] {
          assert rest[j] in items[1..];
        }
      }
    }
  }

  /** A part has no more elements than the whole. */
  lemma {:induction false} FewerOrAsMany<T>(a: set<T>, b: set<T>)
    requires a <= b
    ensures |a| <= |b|
    decreases |a|
  {
    if a != {} {
      var x :| x in a;
      FewerOrAsMany(a - {x}, b - {x});
    }
  }

  function Max(a: int, b: int): int {
    if a < b then b else a
  }

  function Min(a: int, b: int): int {
    if a < b then a else b
  }
}
