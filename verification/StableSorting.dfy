/** The stable sort the service calls everywhere (Go's `sort.SliceStable`), as a
    function of the comparison, together with what callers may rely on: the result
    is a permutation, it is sorted, ties keep their order, and without ties it does not
    depend on the input order. */
module StableSorting {

  /** `less` is a strict weak order on the elements of `s`. */
  ghost predicate StrictWeakOn<T>(less: (T, T) -> bool, s: seq<T>) {
    && (forall a | a in s :: !less(a, a))
    && (forall a, b, c {:trigger less(a, b), less(b, c)} | a in s && b in s && c in s && less(a, b) && less(b, c) :: less(a, c))
    && (forall a, b, c {:trigger less(a, b), less(b, c)} | a in s && b in s && c in s && !less(a, b) && !less(b, c) :: !less(a, c))
  }

  ghost predicate Sorted<T>(less: (T, T) -> bool, s: seq<T>) {
    forall i, j | 0 <= i < j < |s| :: !less(s[j], s[i])
  }

  /** No two different elements of `s` are tied. */
  ghost predicate NoTies<T>(less: (T, T) -> bool, s: seq<T>) {
    forall a, b | a in s && b in s && a != b :: less(a, b) || less(b, a)
  }

  function Insert<T>(less: (T, T) -> bool, x: T, s: seq<T>): (r: seq<T>)
    ensures multiset(r) == multiset(s) + multiset{x}
    ensures |r| == |s| + 1
  {
    if s != [] && less(s[0], x) then
      assert s == [s[0]] + s[1..];
      [s[0]] + Insert(less, x, s[1..])
    else
      [x] + s
  }

  function StableSort<T>(less: (T, T) -> bool, s: seq<T>): (r: seq<T>)
    ensures multiset(r) == multiset(s)
    ensures |r| == |s|
  {
    if s == [] then [] else
      assert s == [s[0]] + s[1..];
      Insert(less, s[0], StableSort(less, s[1..]))
  }

  /** Membership is what callers use the permutation for. */
  lemma {:induction false} SameElements<T>(s: seq<T>, t: seq<T>)
    requires multiset(s) == multiset(t)
    ensures forall x | x in s :: x in t
    ensures forall x | x in t :: x in s
  {
    forall x ensures (x in s ==> x in t) && (x in t ==> x in s) {
      assert x in s <==> x in multiset(s);
      assert x in t <==> x in multiset(t);
    }
  }

  lemma {:induction false} Narrow<T>(less: (T, T) -> bool, all: seq<T>, s: seq<T>)
    requires StrictWeakOn(less, all) && forall x | x in s :: x in all
    ensures StrictWeakOn(less, s)
  {
  }

  lemma {:induction false} InsertSorts<T>(less: (T, T) -> bool, x: T, s: seq<T>)
    requires StrictWeakOn(less, [x] + s) && Sorted(less, s)
    ensures Sorted(less, Insert(less, x, s))
  {
    assert forall y :: y in [x] + s <==> y == x || y in s;
    if s != [] && less(s[0], x) {
      var tail := s[1..];
      Narrow(less, [x] + s, [x] + tail);
      InsertSorts(less, x, tail);
      var r := Insert(less, x, tail);
      SameElements(r, tail + [x]);
      forall j | 0 <= j < |r| ensures !less(r[j], s[0]) {
        assert r[j] in r;
        assert r[j] in tail + [x];
        assert s[0] in [x] + s;
        if r[j] in tail {
          var k :| 0 <= k < |tail| && tail[k] == r[j];
          assert s[k + 1] == r[j];
        } else {
          assert r[j] == x;
        }
      }
    } else if s != [] {
      forall j | 0 <= j < |s| ensures !less(s[j], x) {
        assert s[j] in [x] + s && s[0] in [x] + s && x in [x] + s;
      }
    }
  }

  /** The result is in order. */
  lemma {:induction false} SortSorts<T>(less: (T, T) -> bool, s: seq<T>)
    requires StrictWeakOn(less, s)
    ensures Sorted(less, StableSort(less, s))
  {
    if s != [] {
      Narrow(less, s, s[1..]);
      SortSorts(less, s[1..]);
      SameElements(StableSort(less, s[1..]), s[1..]);
      Narrow(less, s, [s[0]] + StableSort(less, s[1..]));
      InsertSorts(less, s[0], StableSort(less, s[1..]));
    }
  }

  // ---- stability ----

  predicate Tied<T>(less: (T, T) -> bool, x: T, y: T) {
    !less(x, y) && !less(y, x)
  }

  /** The elements of `s` that tie with `x`, in their order. */
  function TiesWith<T>(less: (T, T) -> bool, x: T, s: seq<T>): seq<T> {
    if s == [] then []
    else (if Tied(less, x, s[0]) then [s[0]] else []) + TiesWith(less, x, s[1..])
  }

  lemma {:induction false} TiesOfCons<T>(less: (T, T) -> bool, y: T, a: T, t: seq<T>)
    ensures TiesWith(less, y, [a] + t) == (if Tied(less, y, a) then [a] else []) + TiesWith(less, y, t)
  {
    assert ([a] + t)[1..] == t;
  }

  lemma {:induction false} NotBothTied<T>(less: (T, T) -> bool, all: seq<T>, a: T, x: T, y: T)
    requires StrictWeakOn(less, all) && a in all && x in all && y in all && less(a, x)
    ensures !(Tied(less, y, a) && Tied(less, y, x))
  {
  }

  lemma {:induction false} InsertKeepsTies<T>(less: (T, T) -> bool, x: T, s: seq<T>, y: T)
    requires StrictWeakOn(less, [x, y] + s)
    ensures TiesWith(less, y, Insert(less, x, s)) == TiesWith(less, y, [x] + s)
  {
    if s != [] && less(s[0], x) {
      var a, tail := s[0], s[1..];
      NotBothTied(less, [x, y] + s, a, x, y);
      Narrow(less, [x, y] + s, [x, y] + tail);
      InsertKeepsTies(less, x, tail, y);
      var ofA := if Tied(less, y, a) then [a] else [];
      var ofX := if Tied(less, y, x) then [x] else [];
      var rest := TiesWith(less, y, tail);
      calc {
        TiesWith(less, y, Insert(less, x, s));
        { TiesOfCons(less, y, a, Insert(less, x, tail)); }
        ofA + TiesWith(less, y, [x] + tail);
        { TiesOfCons(less, y, x, tail); }
        ofA + (ofX + rest);
        ofX + (ofA + rest);
        { TiesOfCons(less, y, x, s); }
        TiesWith(less, y, [x] + s);
      }
    }
  }

  /** Ties keep the order they arrived in. */
  lemma {:induction false} SortIsStable<T>(less: (T, T) -> bool, s: seq<T>, y: T)
    requires StrictWeakOn(less, s) && y in s
    ensures TiesWith(less, y, StableSort(less, s)) == TiesWith(less, y, s)
  {
    StableFrom(less, s, s, y);
  }

  lemma {:induction false} StableFrom<T>(less: (T, T) -> bool, all: seq<T>, s: seq<T>, y: T)
    requires StrictWeakOn(less, all) && y in all && (forall z | z in s :: z in all)
    ensures TiesWith(less, y, StableSort(less, s)) == TiesWith(less, y, s)
  {
    if s != [] {
      StableFrom(less, all, s[1..], y);
      var t := StableSort(less, s[1..]);
      SameElements(t, s[1..]);
      assert s[0] in all;
      Narrow(less, all, [s[0], y] + t);
      InsertKeepsTies(less, s[0], t, y);
      assert ([s[0]] + t)[1..] == t;
    }
  }

  /** Elements that tie with each other tie with the same elements. */
  lemma {:induction false} TiesAgree<T>(less: (T, T) -> bool, all: seq<T>, s: seq<T>, x: T, y: T)
    requires StrictWeakOn(less, all) && x in all && y in all && Tied(less, x, y) && (forall z | z in s :: z in all)
    ensures TiesWith(less, x, s) == TiesWith(less, y, s)
  {
    if s != [] {
      assert s[0] in all;
      TiesAgree(less, all, s[1..], x, y);
    }
  }

  /** Ties of a finer comparison are found among those of a coarser one. */
  lemma {:induction false} FinerTies<T>(finer: (T, T) -> bool, coarser: (T, T) -> bool, x: T, s: seq<T>)
    requires forall y | y in s && Tied(finer, x, y) :: Tied(coarser, x, y)
    ensures TiesWith(finer, x, TiesWith(coarser, x, s)) == TiesWith(finer, x, s)
  {
    if s != [] {
      FinerTies(finer, coarser, x, s[1..]);
      TiesOfCons(finer, x, s[0], TiesWith(coarser, x, s[1..]));
      assert !Tied(coarser, x, s[0]) ==> TiesWith(coarser, x, s) == TiesWith(coarser, x, s[1..]);
    }
  }

  // ---- no ties ----

  lemma {:induction false} SameHead<T>(less: (T, T) -> bool, s: seq<T>, t: seq<T>)
    requires s != [] && t != [] && multiset(s) == multiset(t)
    requires Sorted(less, s) && Sorted(less, t) && NoTies(less, s)
    requires StrictWeakOn(less, s)
    ensures s[0] == t[0]
  {
    assert s[0] in s && t[0] in t;
    SameElements(s, t);
    var i :| 0 <= i < |t| && t[i] == s[0];
    var j :| 0 <= j < |s| && s[j] == t[0];
  }

  lemma {:induction false} SameTails<T>(s: seq<T>, t: seq<T>)
    requires s != [] && t != [] && multiset(s) == multiset(t) && s[0] == t[0]
    ensures multiset(s[1..]) == multiset(t[1..])
  {
    assert s == [s[0]] + s[1..] && t == [t[0]] + t[1..];
    assert multiset(s[1..]) == multiset(s) - multiset{s[0]};
    assert multiset(t[1..]) == multiset(t) - multiset{t[0]};
  }

  /** Two sorted arrangements of the same tie-free elements are the same. */
  lemma {:induction false} SortedUnique<T>(less: (T, T) -> bool, s: seq<T>, t: seq<T>)
    requires Sorted(less, s) && Sorted(less, t)
    requires StrictWeakOn(less, s) && NoTies(less, s)
    requires multiset(s) == multiset(t)
    ensures s == t
  {
    assert |s| == |multiset(s)| == |multiset(t)| == |t|;
    if s != [] {
      SameHead(less, s, t);
      SameTails(s, t);
      Narrow(less, s, s[1..]);
      assert NoTies(less, s[1..]) by { assert forall y | y in s[1..] :: y in s; }
      SortedUnique(less, s[1..], t[1..]);
      assert s == [s[0]] + s[1..] && t == [t[0]] + t[1..];
    }
  }

  /** Without ties, the sorted list does not depend on the order of the input. */
  lemma {:induction false} SortIgnoresInputOrder<T>(less: (T, T) -> bool, s: seq<T>, t: seq<T>)
    requires StrictWeakOn(less, s) && NoTies(less, s)
    requires multiset(s) == multiset(t)
    ensures StableSort(less, s) == StableSort(less, t)
  {
    SameElements(s, t);
    SameElements(s, StableSort(less, s));
    Narrow(less, s, t);
    Narrow(less, s, StableSort(less, s));
    SortSorts(less, s);
    SortSorts(less, t);
    SortedUnique(less, StableSort(less, s), StableSort(less, t));
  }

  /** The first element of the result is an element of the input that no other element precedes. */
  lemma {:induction false} HeadIsLeast<T>(less: (T, T) -> bool, s: seq<T>)
    requires StrictWeakOn(less, s) && s != []
    ensures StableSort(less, s)[0] in s && forall x | x in s :: !less(x, StableSort(less, s)[0])
  {
    var r := StableSort(less, s);
    SortSorts(less, s);
    SameElements(s, r);
    assert r[0] in r;
    forall x | x in s ensures !less(x, r[0]) {
      var i :| 0 <= i < |r| && r[i] == x;
    }
  }

  // ---- sorting after forgetting part of the elements ----

  function Mapped<T, U>(f: T -> U, s: seq<T>): (r: seq<U>)
    ensures |r| == |s|
  {
    if s == [] then [] else [f(s[0])] + Mapped(f, s[1..])
  }

  lemma {:induction false} MappedAt<T, U>(f: T -> U, s: seq<T>, i: nat)
    requires i < |s|
    ensures Mapped(f, s)[i] == f(s[i])
  {
    if i > 0 { MappedAt(f, s[1..], i - 1); }
  }

  /** The comparison does not look at what `f` forgets. */
  ghost predicate Blind<T(!new)>(f: T -> T, less: (T, T) -> bool) {
    forall a, b :: less(f(a), f(b)) == less(a, b)
  }

  lemma {:induction false} MappedInsert<T(!new)>(f: T -> T, less: (T, T) -> bool, x: T, s: seq<T>)
    requires Blind(f, less)
    ensures Mapped(f, Insert(less, x, s)) == Insert(less, f(x), Mapped(f, s))
  {
    if s != [] && less(s[0], x) {
      MappedInsert(f, less, x, s[1..]);
      var r := Insert(less, x, s[1..]);
      assert ([s[0]] + r)[1..] == r;
    } else {
      assert ([x] + s)[1..] == s;
    }
  }

  /** Forgetting and sorting commute. */
  lemma {:induction false} MappedSort<T(!new)>(f: T -> T, less: (T, T) -> bool, s: seq<T>)
    requires Blind(f, less)
    ensures Mapped(f, StableSort(less, s)) == StableSort(less, Mapped(f, s))
  {
    if s != [] {
      MappedSort(f, less, s[1..]);
      MappedInsert(f, less, s[0], StableSort(less, s[1..]));
    }
  }

  lemma {:induction false} MappedLast<T, U>(f: T -> U, s: seq<T>, x: T)
    ensures Mapped(f, s + [x]) == Mapped(f, s) + [f(x)]
  {
    if s == [] {
      assert [] + [x] == [x];
    } else {
      MappedLast(f, s[1..], x);
      assert (s + [x])[1..] == s[1..] + [x];
    }
  }

  lemma {:induction false} MappedFront<T, U>(f: T -> U, s: seq<T>)
    requires s != []
    ensures Mapped(f, s)[..|s| - 1] == Mapped(f, s[..|s| - 1]) && Mapped(f, s)[|s| - 1] == f(s[|s| - 1])
  {
    MappedParts(f, s, s[..|s| - 1], s[|s| - 1]);
  }

  lemma {:induction false} MappedParts<T, U>(f: T -> U, s: seq<T>, front: seq<T>, last: T)
    requires s == front + [last]
    ensures Mapped(f, s)[..|front|] == Mapped(f, front) && Mapped(f, s)[|front|] == f(last)
  {
    MappedLast(f, front, last);
  }

  lemma {:induction false} MappedMembers<T(!new), U(!new)>(f: T -> U, s: seq<T>)
    ensures forall y :: y in Mapped(f, s) <==> exists x | x in s :: f(x) == y
  {
    if s != [] {
      MappedMembers(f, s[1..]);
      assert s == [s[0]] + s[1..];
    }
  }
}
