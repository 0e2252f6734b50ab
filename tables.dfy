/**
 * A MongoDB collection seen as the sequence of its documents in insertion order:
 * unique indexes, `find` filters and `sort` stages.
 */
module Tables {
  import opened Wrappers

  /** No two documents share a key: what a unique index guarantees. */
  ghost predicate UniqueBy<T, K>(s: seq<T>, key: T -> K) {
    forall i, j :: 0 <= i < j < |s| ==> key(s[i]) != key(s[j])
  }

  predicate HasKey<T, K(==)>(s: seq<T>, key: T -> K, k: K) {
    exists i :: 0 <= i < |s| && key(s[i]) == k
  }

  /**
   * An insert into a collection with a unique index on `key`: the duplicate-key
   * error (None) when the key is taken, otherwise the collection with the document appended.
   */
  function InsertUnique<T, K(==)>(s: seq<T>, key: T -> K, x: T): (r: Option<seq<T>>)
    ensures r.None? <==> HasKey(s, key, key(x))
    ensures r.Some? ==> r.value == s + [x]
    ensures UniqueBy(s, key) && r.Some? ==> UniqueBy(r.value, key)
  {
    if HasKey(s, key, key(x)) then None else Some(s + [x])
  }

  /**
   * An insert whose duplicate-key error is swallowed: the collection is unchanged when the key
   * is taken, and has the document appended otherwise.
   */
  function InsertIfFresh<T, K(==)>(s: seq<T>, key: T -> K, x: T): (r: seq<T>)
    ensures HasKey(s, key, key(x)) ==> r == s
    ensures !HasKey(s, key, key(x)) ==> r == s + [x]
    ensures UniqueBy(s, key) ==> UniqueBy(r, key)
  {
    match InsertUnique(s, key, x)
    case None => s
    case Some(t) => t
  }

  /** No key of `xs` is taken in `s`, and no two documents of `xs` share a key. */
  predicate AllFresh<T, K(==)>(s: seq<T>, key: T -> K, xs: seq<T>) {
    forall i :: 0 <= i < |xs| ==>
      !HasKey(s, key, key(xs[i])) && forall j :: 0 <= j < i ==> key(xs[j]) != key(xs[i])
  }

  /** Peeling the first document off `xs`: it must be fresh, and the rest fresh after it is inserted. */
  lemma AllFreshCons<T, K>(s: seq<T>, key: T -> K, xs: seq<T>)
    requires xs != []
    ensures AllFresh(s, key, xs) <==> !HasKey(s, key, key(xs[0])) && AllFresh(s + [xs[0]], key, xs[1..])
  {
    var t := s + [xs[0]];
    if !HasKey(s, key, key(xs[0])) && AllFresh(t, key, xs[1..]) {
      forall i | 0 < i < |xs|
        ensures !HasKey(s, key, key(xs[i])) && forall j :: 0 <= j < i ==> key(xs[j]) != key(xs[i])
      {
        assert xs[i] == xs[1..][i - 1];
        assert !HasKey(t, key, key(xs[i]));
        forall j | 0 <= j < i ensures key(xs[j]) != key(xs[i]) {
          if j == 0 { assert t[|s|] == xs[0]; } else { assert xs[j] == xs[1..][j - 1]; }
        }
        forall k | 0 <= k < |s| ensures key(s[k]) != key(xs[i]) {
          assert t[k] == s[k];
        }
      }
    }
    if AllFresh(s, key, xs) {
      forall i | 0 <= i < |xs[1..]|
        ensures !HasKey(t, key, key(xs[1..][i])) && forall j :: 0 <= j < i ==> key(xs[1..][j]) != key(xs[1..][i])
      {
        assert xs[1..][i] == xs[i + 1];
        assert key(xs[0]) != key(xs[i + 1]);
        forall k | 0 <= k < |t| ensures key(t[k]) != key(xs[i + 1]) {
          if k < |s| { assert t[k] == s[k]; }
        }
        forall j | 0 <= j < i ensures key(xs[1..][j]) != key(xs[1..][i]) {
          assert xs[1..][j] == xs[j + 1];
        }
      }
    }
  }

  /**
   * `Model.create([...])`: each document is saved on its own, and one whose key is taken is
   * refused without stopping the others.
   */
  function InsertEach<T, K(==)>(s: seq<T>, key: T -> K, xs: seq<T>): (r: seq<T>)
    ensures |s| <= |r| <= |s| + |xs|
    ensures forall x :: x in r ==> x in s || x in xs
    ensures UniqueBy(s, key) ==> UniqueBy(r, key)
    decreases |xs|
  {
    if xs == [] then s
    else
      var r := InsertEach(InsertIfFresh(s, key, xs[0]), key, xs[1..]);
      assert forall x :: x in xs[1..] ==> x in xs;
      r
  }

  /** Every document is saved exactly when all of them are fresh, and then they are appended in order. */
  lemma {:induction false} InsertEachAllFresh<T, K>(s: seq<T>, key: T -> K, xs: seq<T>)
    ensures |InsertEach(s, key, xs)| == |s| + |xs| <==> AllFresh(s, key, xs)
    ensures AllFresh(s, key, xs) ==> InsertEach(s, key, xs) == s + xs
    decreases |xs|
  {
    if xs != [] {
      var t := InsertIfFresh(s, key, xs[0]);
      AllFreshCons(s, key, xs);
      InsertEachAllFresh(t, key, xs[1..]);
      assert xs == [xs[0]] + xs[1..];
    }
  }

  /** Saving one more document after the others is one more fresh-only insert. */
  lemma {:induction false} InsertEachSnoc<T, K>(s: seq<T>, key: T -> K, xs: seq<T>, x: T)
    ensures InsertEach(s, key, xs + [x]) == InsertIfFresh(InsertEach(s, key, xs), key, x)
    decreases |xs|
  {
    if xs == [] {
      assert ([] + [x])[1..] == [];
    } else {
      assert (xs + [x])[1..] == xs[1..] + [x];
      InsertEachSnoc(InsertIfFresh(s, key, xs[0]), key, xs[1..], x);
    }
  }

  /** `InsertEach` of two documents, unfolded. */
  lemma InsertEachTwo<T, K>(s: seq<T>, key: T -> K, xs: seq<T>)
    requires |xs| == 2
    ensures InsertEach(s, key, xs) == InsertIfFresh(InsertIfFresh(s, key, xs[0]), key, xs[1])
  {
    InsertEachSnoc(s, key, [], xs[0]);
    InsertEachSnoc(s, key, [xs[0]], xs[1]);
    assert [xs[0]] + [xs[1]] == xs;
  }

  /** `InsertEach` of four documents, unfolded. */
  lemma InsertEachFour<T, K>(s: seq<T>, key: T -> K, xs: seq<T>)
    requires |xs| == 4
    ensures InsertEach(s, key, xs) ==
      InsertIfFresh(InsertIfFresh(InsertIfFresh(InsertIfFresh(s, key, xs[0]), key, xs[1]), key, xs[2]), key, xs[3])
  {
    InsertEachTwo(s, key, xs[..2]);
    InsertEachSnoc(s, key, xs[..2], xs[2]);
    InsertEachSnoc(s, key, xs[..3], xs[3]);
    assert xs[..2] + [xs[2]] == xs[..3] && xs[..3] + [xs[3]] == xs;
  }

  /** `findOne(filter)`: the first document the filter `p` selects, if any. */
  function FindFirst<T>(s: seq<T>, p: T -> bool): (r: Option<T>)
    ensures r.Some? ==> r.value in s && p(r.value)
    ensures r.Some? ==> exists k :: 0 <= k < |s| && s[k] == r.value && forall j :: 0 <= j < k ==> !p(s[j])
    ensures r.None? <==> forall i :: 0 <= i < |s| ==> !p(s[i])
  {
    if s == [] then None
    else if p(s[0]) then Some(s[0])
    else
      var r := FindFirst(s[1..], p);
      assert forall i :: 1 <= i < |s| ==> s[i] == s[1..][i - 1];
      assert r.Some? ==> exists k :: 0 <= k < |s| && s[k] == r.value && forall j :: 0 <= j < k ==> !p(s[j]) by {
        if r.Some? {
          var k :| 0 <= k < |s[1..]| && s[1..][k] == r.value && forall j :: 0 <= j < k ==> !p(s[1..][j]);
          assert s[k + 1] == r.value && forall j :: 0 <= j < k + 1 ==> !p(s[j]);
        }
      }
      r
  }

  /**
   * A date filter `{ $gte: start, $lte: end }` where each bound is present only when given.
   */
  datatype DateRange = DateRange(start: Option<int>, end: Option<int>)

  predicate InRange(w: DateRange, t: int) {
    (w.start.None? || w.start.value <= t) && (w.end.None? || t <= w.end.value)
  }

  /** The documents a `find` filter `p` selects, in collection order. */
  function Where<T(!new)>(s: seq<T>, p: T -> bool): (r: seq<T>)
    ensures forall x :: x in r <==> x in s && p(x)
    ensures |r| <= |s|
  {
    if s == [] then []
    else
      assert s == s[..|s| - 1] + [s[|s| - 1]];
      Where(s[..|s| - 1], p) + (if p(s[|s| - 1]) then [s[|s| - 1]] else [])
  }

  /** `.map(f)`: each document transformed, in order. */
  function Select<T(!new), U(!new)>(s: seq<T>, f: T -> U): (r: seq<U>)
    ensures |r| == |s| && forall i :: 0 <= i < |s| ==> r[i] == f(s[i])
    ensures forall y :: y in r <==> exists x :: x in s && y == f(x)
  {
    var r := seq(|s|, i requires 0 <= i < |s| => f(s[i]));
    assert forall x :: x in s ==> f(x) in r by {
      forall x | x in s ensures f(x) in r {
        var i :| 0 <= i < |s| && s[i] == x;
        assert r[i] == f(x);
      }
    }
    r
  }

  /** Filtering a collection with one more document at the end. */
  lemma WhereAppend<T(!new)>(s: seq<T>, p: T -> bool, x: T)
    ensures Where(s + [x], p) == Where(s, p) + (if p(x) then [x] else [])
  {
    assert (s + [x])[..|s|] == s;
  }

  /** Filtering keeps a unique index unique. */
  lemma {:induction false} WhereKeepsUnique<T(!new), K>(s: seq<T>, p: T -> bool, key: T -> K)
    requires UniqueBy(s, key)
    ensures UniqueBy(Where(s, p), key)
  {
    if s != [] {
      var init, last := s[..|s| - 1], s[|s| - 1];
      assert s == init + [last];
      WhereKeepsUnique(init, p, key);
      forall y | y in Where(init, p)
        ensures key(y) != key(last)
      {
        var k :| 0 <= k < |init| && init[k] == y;
        assert s[k] == y;
      }
    }
  }

  ghost predicate SortedDesc<T>(s: seq<T>, key: T -> int) {
    forall i, j :: 0 <= i < j < |s| ==> key(s[i]) >= key(s[j])
  }

  ghost predicate SortedAsc<T>(s: seq<T>, key: T -> int) {
    forall i, j :: 0 <= i < j < |s| ==> key(s[i]) <= key(s[j])
  }

  /** Putting a head no smaller than the first element in front of a descending sequence keeps it descending. */
  lemma ConsDesc<T>(h: T, s: seq<T>, key: T -> int)
    requires SortedDesc(s, key) && (s == [] || key(h) >= key(s[0]))
    ensures SortedDesc([h] + s, key)
  {
    var r := [h] + s;
    forall i, j | 0 <= i < j < |r|
      ensures key(r[i]) >= key(r[j])
    {
      if i == 0 && j > 1 {
        assert r[1] == s[0] && r[j] == s[j - 1];
      }
    }
  }

  function InsertDesc<T(==)>(x: T, s: seq<T>, key: T -> int): (r: seq<T>)
    requires SortedDesc(s, key)
    ensures |r| == |s| + 1 && (r[0] == x || (s != [] && r[0] == s[0]))
    ensures SortedDesc(r, key)
    ensures multiset(r) == multiset(s) + multiset{x}
  {
    if s == [] then [x]
    else if key(x) >= key(s[0]) then
      ConsDesc(x, s, key);
      [x] + s
    else
      assert s == [s[0]] + s[1..];
      var rest := InsertDesc(x, s[1..], key);
      ConsDesc(s[0], rest, key);
      [s[0]] + rest
  }

  /** `.sort({ field: "desc" })` on the integer field `key`. */
  function SortDesc<T(==)>(s: seq<T>, key: T -> int): (r: seq<T>)
    ensures SortedDesc(r, key)
    ensures multiset(r) == multiset(s)
  {
    if s == [] then []
    else
      assert s == [s[0]] + s[1..];
      InsertDesc(s[0], SortDesc(s[1..], key), key)
  }

  /** `.sort({ field: "asc" })`: descending on the negated key. */
  function SortAsc<T(==)>(s: seq<T>, key: T -> int): (r: seq<T>)
    ensures SortedAsc(r, key)
    ensures multiset(r) == multiset(s)
  {
    SortDesc(s, x => -key(x))
  }
}
