/** Generic sequence helpers shared by the parser and the generator models. */
module Collections {

  datatype Option<+T> = None | Some(value: T)

  /** The elements of `s` that satisfy `p`, in their original order. */
  function Filter<T>(p: T -> bool, s: seq<T>): (r: seq<T>)
    ensures |r| <= |s|
    ensures forall x | x in r :: x in s && p(x)
    ensures forall x | x in s && p(x) :: x in r
  {
    if s == [] then []
    else
      assert s == [s[0]] + s[1..];
      (if p(s[0]) then [s[0]] else []) + Filter(p, s[1..])
  }

  /** Filtering a concatenation filters each part: kept elements keep their relative order. */
  lemma {:induction false} FilterAppend<T>(p: T -> bool, a: seq<T>, b: seq<T>)
    ensures Filter(p, a + b) == Filter(p, a) + Filter(p, b)
  {
    if a == [] {
      assert a + b == b;
    } else {
      assert (a + b)[1..] == a[1..] + b;
      FilterAppend(p, a[1..], b);
    }
  }

  /** Everything survives a filter exactly when every element satisfies it. */
  lemma {:induction false} FilterKeepsAll<T>(p: T -> bool, s: seq<T>)
    ensures |Filter(p, s)| == |s| <==> forall x | x in s :: p(x)
  {
    if s != [] {
      FilterKeepsAll(p, s[1..]);
      assert s == [s[0]] + s[1..];
    }
  }

  /** A filter and its complement split a sequence: their sizes add up to its length. */
  lemma {:induction false} FilterPartition<T>(p: T -> bool, q: T -> bool, s: seq<T>)
    requires forall x :: q(x) == !p(x)
    ensures |Filter(p, s)| + |Filter(q, s)| == |s|
  {
    if s != [] {
      FilterPartition(p, q, s[1..]);
    }
  }

  /**
   * When `q` is stronger than `p`, `q` keeps at most as many elements as `p`, and exactly
   * as many iff every element of `s` kept by `p` is kept by `q`.
   */
  lemma {:induction false} FilterStronger<T>(p: T -> bool, q: T -> bool, s: seq<T>)
    requires forall x :: q(x) ==> p(x)
    ensures |Filter(q, s)| <= |Filter(p, s)|
    ensures |Filter(q, s)| == |Filter(p, s)| <==> forall x | x in s && p(x) :: q(x)
  {
    if s != [] {
      FilterStronger(p, q, s[1..]);
      assert s == [s[0]] + s[1..];
    }
  }

  /** Applies `f` to each element and keeps the `Some` results, in order. */
  function FilterMap<A, B>(f: A -> Option<B>, s: seq<A>): (r: seq<B>)
    ensures |r| <= |s|
  {
    if s == [] then []
    else (match f(s[0]) case Some(b) => [b] case None => []) + FilterMap(f, s[1..])
  }

  /** FilterMap of a concatenation is the concatenation of the FilterMaps: order is kept. */
  lemma {:induction false} FilterMapAppend<A, B>(f: A -> Option<B>, a: seq<A>, b: seq<A>)
    ensures FilterMap(f, a + b) == FilterMap(f, a) + FilterMap(f, b)
  {
    if a == [] {
      assert a + b == b;
    } else {
      assert (a + b)[1..] == a[1..] + b;
      FilterMapAppend(f, a[1..], b);
    }
  }

  /** `y` is produced exactly when some element of `s` is mapped to `Some(y)`. */
  lemma {:induction false} FilterMapMember<A, B>(f: A -> Option<B>, s: seq<A>, y: B)
    ensures y in FilterMap(f, s) <==> exists x :: x in s && f(x) == Some(y)
  {
    if s != [] {
      FilterMapMember(f, s[1..], y);
      assert s == [s[0]] + s[1..];
      if f(s[0]) == Some(y) {
        assert y in FilterMap(f, s);
      }
    }
  }
}
