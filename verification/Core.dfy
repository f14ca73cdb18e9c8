/** Shared vocabulary: optional values, error results, the order Rust sorts strings in, and sorted listings. */
module Core {

  datatype Option<+T> = None | Some(value: T)

  datatype Result<+T, +E> = Ok(value: T) | Err(error: E)

  /** The elements of a list, as a set: what collecting it into a HashSet keeps. */
  function Elements<T>(xs: seq<T>): set<T> {
    set x | x in xs
  }

  lemma ElementsCons<T>(x: T, xs: seq<T>)
    ensures Elements([x] + xs) == {x} + Elements(xs)
  {
    assert forall y :: y in [x] + xs <==> y == x || y in xs;
  }

  /** Strict order of Rust's `Ord for str`: lexicographic in the scalar values. */
  predicate Below(a: string, b: string) {
    if b == "" then false
    else if a == "" then true
    else a[0] < b[0] || (a[0] == b[0] && Below(a[1..], b[1..]))
  }

  lemma {:induction false} BelowIrreflexive(a: string)
    ensures !Below(a, a)
  {
    if a != "" {
      BelowIrreflexive(a[1..]);
    }
  }

  lemma {:induction false} BelowTransitive(a: string, b: string, c: string)
    requires Below(a, b) && Below(b, c)
    ensures Below(a, c)
  {
    if a != "" && a[0] == b[0] == c[0] {
      BelowTransitive(a[1..], b[1..], c[1..]);
    }
  }

  lemma {:induction false} BelowTotal(a: string, b: string)
    ensures a == b || Below(a, b) || Below(b, a)
  {
    if a != "" && b != "" && a[0] == b[0] {
      BelowTotal(a[1..], b[1..]);
      if a[1..] == b[1..] {
        assert a == [a[0]] + a[1..] && b == [b[0]] + b[1..];
      }
    }
  }

  /** The order itself: `a` is a proper prefix of `b`, or has the smaller character where they first differ. */
  ghost predicate Precedes(a: string, b: string) {
    a < b || exists k :: 0 <= k < |a| && k < |b| && a[..k] == b[..k] && a[k] < b[k]
  }

  /** The comparison computes that order. */
  lemma {:induction false} BelowExactly(a: string, b: string)
    ensures Below(a, b) <==> Precedes(a, b)
  {
    if a != "" && b != "" {
      assert a == [a[0]] + a[1..] && b == [b[0]] + b[1..];
      if a[0] == b[0] {
        BelowExactly(a[1..], b[1..]);
        SameHead(a, b);
      } else {
        assert a[0] < b[0] ==> a[..0] == b[..0];
        assert forall k :: 0 < k < |a| && k < |b| && a[..k] == b[..k] ==> a[..k][0] == b[..k][0];
      }
    }
  }

  lemma SameHead(a: string, b: string)
    requires a != "" && b != "" && a[0] == b[0]
    ensures Precedes(a, b) <==> Precedes(a[1..], b[1..])
  {
    var c, d := a[1..], b[1..];
    assert a == [a[0]] + c && b == [a[0]] + d;
    if k :| 0 <= k < |c| && k < |d| && c[..k] == d[..k] && c[k] < d[k] {
      assert a[..k + 1] == [a[0]] + c[..k] && b[..k + 1] == [a[0]] + d[..k];
      assert a[k + 1] < b[k + 1];
    }
    if k :| 0 <= k < |a| && k < |b| && a[..k] == b[..k] && a[k] < b[k] {
      assert k > 0 && c[..k - 1] == a[..k][1..] && d[..k - 1] == b[..k][1..];
      assert c[k - 1] < d[k - 1];
    }
  }

  /** Strictly increasing, hence also free of duplicates. */
  ghost predicate Ascending(xs: seq<string>) {
    forall i, j :: 0 <= i < j < |xs| ==> Precedes(xs[i], xs[j])
  }

  lemma AscendingExactly(xs: seq<string>)
    ensures Ascending(xs) <==> forall i, j :: 0 <= i < j < |xs| ==> Below(xs[i], xs[j])
  {
    forall i, j | 0 <= i < j < |xs| ensures Below(xs[i], xs[j]) <==> Precedes(xs[i], xs[j]) {
      BelowExactly(xs[i], xs[j]);
    }
  }

  /** What `iter().cloned().collect::<Vec<_>>()` followed by `sort()` leaves for a set: a strictly sorted listing. */
  ghost predicate IsListing(xs: seq<string>, s: set<string>) {
    Ascending(xs) && Elements(xs) == s
  }

  lemma {:induction false} ListingUnique(xs: seq<string>, ys: seq<string>)
    requires Ascending(xs) && Ascending(ys) && Elements(xs) == Elements(ys)
    ensures xs == ys
    decreases |xs|
  {
    if xs != [] || ys != [] {
      assert xs != [] ==> xs[0] in Elements(ys);
      assert ys != [] ==> ys[0] in Elements(xs);
      HeadIsLeast(xs, ys);
      HeadIsLeast(ys, xs);
      BelowAsymmetric(xs[0], ys[0]);
      TailElements(xs);
      TailElements(ys);
      ListingUnique(xs[1..], ys[1..]);
      assert xs == [xs[0]] + xs[1..] && ys == [ys[0]] + ys[1..];
    }
  }

  lemma HeadIsLeast(xs: seq<string>, ys: seq<string>)
    requires Ascending(xs) && xs != [] && ys != [] && Elements(xs) == Elements(ys)
    ensures xs[0] == ys[0] || Below(xs[0], ys[0])
  {
    assert ys[0] in Elements(xs);
    var i :| 0 <= i < |xs| && xs[i] == ys[0];
    AscendingExactly(xs);
  }

  lemma BelowAsymmetric(a: string, b: string)
    ensures !(Below(a, b) && Below(b, a))
  {
    BelowIrreflexive(a);
    if Below(a, b) && Below(b, a) {
      BelowTransitive(a, b, a);
    }
  }

  lemma TailElements(xs: seq<string>)
    requires Ascending(xs) && xs != []
    ensures Ascending(xs[1..]) && Elements(xs[1..]) == Elements(xs) - {xs[0]}
  {
    BelowIrreflexive(xs[0]);
    BelowExactly(xs[0], xs[0]);
    assert xs == [xs[0]] + xs[1..];
    assert forall x :: x in xs <==> x == xs[0] || x in xs[1..];
  }

  ghost predicate IsLeast(m: string, s: set<string>) {
    m in s && forall x | x in s :: x == m || Below(m, x)
  }

  lemma {:induction false} LeastExists(s: set<string>)
    requires s != {}
    ensures exists m :: IsLeast(m, s)
    decreases |s|
  {
    var y :| y in s;
    if s - {y} != {} {
      LeastExists(s - {y});
      var m :| IsLeast(m, s - {y});
      BelowTotal(y, m);
      if Below(y, m) {
        forall x | x in s ensures x == y || Below(y, x) {
          if x != y && x != m {
            BelowTransitive(y, m, x);
          }
        }
        assert IsLeast(y, s);
      } else {
        assert IsLeast(m, s);
      }
    } else {
      assert s == {y} + (s - {y});
      assert IsLeast(y, s);
    }
  }

  lemma ConsListing(m: string, rest: seq<string>, s: set<string>)
    requires IsLeast(m, s) && IsListing(rest, s - {m})
    ensures IsListing([m] + rest, s)
  {
    ElementsCons(m, rest);
    assert s == {m} + (s - {m});
    forall i | 0 <= i < |rest| ensures Precedes(m, rest[i]) {
      assert rest[i] in Elements(rest);
      BelowExactly(m, rest[i]);
    }
  }

  lemma {:induction false} ListingExists(s: set<string>)
    ensures exists xs :: IsListing(xs, s)
    decreases |s|
  {
    if s == {} {
      assert IsListing([], s);
    } else {
      LeastExists(s);
      var m :| IsLeast(m, s);
      ListingExists(s - {m});
      var rest :| IsListing(rest, s - {m});
      ConsListing(m, rest, s);
    }
  }

  /** Two names, and so any number of them, are listed smaller first. */
  lemma TwoListed(x: string, y: string)
    requires Precedes(x, y)
    ensures IsListing([x, y], {x, y}) && Listing({x, y}) == [x, y]
  {
    assert Elements([x, y]) == {x, y};
    ListingUnique(Listing({x, y}), [x, y]);
  }

  /** The sorted listing of a set, as a value. */
  ghost function Listing(s: set<string>): (xs: seq<string>)
    ensures IsListing(xs, s)
  {
    ListingExists(s);
    var xs :| IsListing(xs, s);
    xs
  }

  /** Insertion step of a sort: keeps a listing sorted while adding one new element. */
  method InsertSorted(xs: seq<string>, x: string) returns (ys: seq<string>)
    requires Ascending(xs) && x !in xs
    ensures IsListing(ys, Elements(xs) + {x})
  {
    AscendingExactly(xs);
    var i := 0;
    while i < |xs| && Below(xs[i], x)
      invariant 0 <= i <= |xs|
      invariant forall j | 0 <= j < i :: Below(xs[j], x)
    {
      i := i + 1;
    }
    forall j | i <= j < |xs| ensures Below(x, xs[j]) {
      BelowTotal(x, xs[i]);
      if i < j { BelowTransitive(x, xs[i], xs[j]); }
    }
    Inserted(xs, x, i);
    ys := xs[..i] + [x] + xs[i..];
  }

  lemma Inserted(xs: seq<string>, x: string, i: nat)
    requires Ascending(xs) && i <= |xs|
    requires forall j | 0 <= j < i :: Below(xs[j], x)
    requires forall j | i <= j < |xs| :: Below(x, xs[j])
    ensures IsListing(xs[..i] + [x] + xs[i..], Elements(xs) + {x})
  {
    var ys := xs[..i] + [x] + xs[i..];
    AscendingExactly(xs);
    AscendingExactly(ys);
    forall j, k | 0 <= j < k < |ys| ensures Below(ys[j], ys[k]) {
      assert ys[j] == if j < i then xs[j] else if j == i then x else xs[j - 1];
      assert ys[k] == if k < i then xs[k] else if k == i then x else xs[k - 1];
    }
    assert xs == xs[..i] + xs[i..];
    assert forall y :: y in ys <==> y == x || y in xs;
  }

  /** Collects a set in an arbitrary iteration order and sorts it. */
  method SortedVec(s: set<string>) returns (xs: seq<string>)
    ensures xs == Listing(s)
  {
    xs := [];
    var rest := s;
    while rest != {}
      invariant rest <= s && IsListing(xs, s - rest)
      decreases rest
    {
      var x :| x in rest;
      assert x !in Elements(xs);
      xs := InsertSorted(xs, x);
      rest := rest - {x};
    }
    ListingUnique(xs, Listing(s));
  }

  /** A finite union is bounded by the product of the two cardinalities. */
  lemma {:induction false} PairCount<A, B>(left: set<A>, right: set<B>, pairs: set<(A, B)>)
    requires forall p | p in pairs :: p.0 in left && p.1 in right
    ensures |pairs| <= |left| * |right|
    decreases |left|
  {
    if left == {} {
      assert pairs == {};
    } else {
      var a :| a in left;
      var row := set p | p in pairs && p.0 == a;
      var others := pairs - row;
      PairCount(left - {a}, right, others);
      RowCount(a, right, row);
      assert pairs == row + others && row !! others;
      assert |pairs| == |row| + |others|;
      assert |left - {a}| == |left| - 1;
      assert (|left| - 1) * |right| == |left| * |right| - |right|;
    }
  }

  lemma {:induction false} RowCount<A, B>(a: A, right: set<B>, row: set<(A, B)>)
    requires forall p | p in row :: p.0 == a && p.1 in right
    ensures |row| <= |right|
    decreases |right|
  {
    if row != {} {
      var p :| p in row;
      RowCount(a, right - {p.1}, row - {p});
    }
  }

  lemma {:induction false} SubsetCount<T>(small: set<T>, big: set<T>)
    requires small <= big
    ensures |small| <= |big|
    ensures small < big ==> |small| < |big|
    decreases |small|
  {
    assert big == small + (big - small) && small !! (big - small);
    assert |big| == |small| + |big - small|;
  }

  lemma {:induction false} LongerThan(s: set<string>) returns (k: nat)
    ensures forall x | x in s :: |x| < k
    decreases |s|
  {
    k := 1;
    if s != {} {
      var y :| y in s;
      var rest := LongerThan(s - {y});
      k := rest + |y| + 1;
    }
  }

  /** There is always another name to give. */
  lemma NewName(s: set<string>) returns (x: string)
    ensures x !in s && x != "" && '\n' !in x
  {
    var k := LongerThan(s);
    x := seq(k + 1, _ => 'a');
    assert x[0] == 'a';
  }
}
