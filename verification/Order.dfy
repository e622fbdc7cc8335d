/** Strict total orders, the lexicographic order on sequences, and sorting. */
module Order {
  ghost predicate Total<T(!new)>(less: (T, T) -> bool) {
    && (forall a :: !less(a, a))
    && (forall a, b :: less(a, b) || a == b || less(b, a))
    && (forall a, b, c :: less(a, b) && less(b, c) ==> less(a, c))
  }

  /** The derived order of a Rust slice, string or byte string. */
  predicate Lex<T(==)>(less: (T, T) -> bool, a: seq<T>, b: seq<T>) {
    b != [] && (a == [] || less(a[0], b[0]) || (a[0] == b[0] && Lex(less, a[1..], b[1..])))
  }

  lemma {:induction false} LexIrreflexive<T(!new)>(less: (T, T) -> bool, a: seq<T>)
    requires Total(less)
    ensures !Lex(less, a, a)
  {
    if a != [] { LexIrreflexive(less, a[1..]); }
  }

  lemma {:induction false} LexConnected<T(!new)>(less: (T, T) -> bool, a: seq<T>, b: seq<T>)
    requires Total(less)
    ensures Lex(less, a, b) || a == b || Lex(less, b, a)
  {
    if a != [] && b != [] {
      LexConnected(less, a[1..], b[1..]);
      assert a == [a[0]] + a[1..] && b == [b[0]] + b[1..];
    }
  }

  lemma {:induction false} LexTransitive<T(!new)>(less: (T, T) -> bool, a: seq<T>, b: seq<T>, c: seq<T>)
    requires Total(less) && Lex(less, a, b) && Lex(less, b, c)
    ensures Lex(less, a, c)
  {
    if a != [] && a[0] == b[0] && b[0] == c[0] && Lex(less, a[1..], b[1..]) && Lex(less, b[1..], c[1..]) {
      LexTransitive(less, a[1..], b[1..], c[1..]);
    }
  }

  lemma LexTotal<T(!new)>(less: (T, T) -> bool, lex: (seq<T>, seq<T>) -> bool)
    requires Total(less) && forall a, b :: lex(a, b) == Lex(less, a, b)
    ensures Total(lex)
  {
    forall a ensures !lex(a, a) { LexIrreflexive(less, a); }
    forall a, b ensures lex(a, b) || a == b || lex(b, a) { LexConnected(less, a, b); }
    forall a, b, c | lex(a, b) && lex(b, c) ensures lex(a, c) { LexTransitive(less, a, b, c); }
  }

  // ---------------------------------------------------------------- sorting

  ghost predicate Ascending<T(!new)>(less: (T, T) -> bool, s: seq<T>) {
    forall i, j :: 0 <= i < j < |s| ==> less(s[i], s[j])
  }

  function InsertSorted<T>(less: (T, T) -> bool, x: T, s: seq<T>): seq<T> {
    if s == [] || less(x, s[0]) then [x] + s else [s[0]] + InsertSorted(less, x, s[1..])
  }

  function Sort<T>(less: (T, T) -> bool, s: seq<T>): seq<T> {
    if s == [] then [] else InsertSorted(less, s[0], Sort(less, s[1..]))
  }

  ghost function Elements<T>(s: seq<T>): set<T> { set x | x in s }

  ghost predicate Distinct<T(!new)>(s: seq<T>) {
    forall i, j :: 0 <= i < j < |s| ==> s[i] != s[j]
  }

  lemma {:induction false} InsertAscends<T(!new)>(less: (T, T) -> bool, x: T, s: seq<T>)
    requires Total(less) && Ascending(less, s) && x !in s
    ensures Ascending(less, InsertSorted(less, x, s))
    ensures Elements(InsertSorted(less, x, s)) == Elements(s) + {x}
    ensures |InsertSorted(less, x, s)| == |s| + 1
  {
    var r := InsertSorted(less, x, s);
    if s != [] && !less(x, s[0]) {
      InsertAscends(less, x, s[1..]);
      var t := InsertSorted(less, x, s[1..]);
      forall y | y in t ensures less(s[0], y) {
        assert y in Elements(t);
      }
      assert forall y :: y in r <==> y == s[0] || y in Elements(t);
    }
    assert forall y :: y in s <==> (s != [] && y == s[0]) || (s != [] && y in s[1..]);
  }

  lemma {:induction false} SortAscends<T(!new)>(less: (T, T) -> bool, s: seq<T>)
    requires Total(less) && Distinct(s)
    ensures Ascending(less, Sort(less, s)) && Elements(Sort(less, s)) == Elements(s)
    ensures |Sort(less, s)| == |s|
  {
    if s != [] {
      SortAscends(less, s[1..]);
      assert s[0] !in Elements(s[1..]);
      assert s[0] !in Sort(less, s[1..]) by { assert s[0] !in Elements(Sort(less, s[1..])); }
      InsertAscends(less, s[0], Sort(less, s[1..]));
      assert Elements(s) == Elements(s[1..]) + {s[0]};
    }
  }

  lemma HasElement<T(!new)>(s: seq<T>)
    requires s != []
    ensures Elements(s) != {}
  {
    assert s[0] in Elements(s);
  }

  /** A set has only one ascending enumeration. */
  lemma {:induction false} AscendingUnique<T(!new)>(less: (T, T) -> bool, a: seq<T>, b: seq<T>)
    requires Total(less) && Ascending(less, a) && Ascending(less, b) && Elements(a) == Elements(b)
    ensures a == b
  {
    if a == [] {
      if b != [] { HasElement(b); }
    } else {
      assert a[0] in Elements(b);
      assert b[0] in Elements(a);
      assert a[0] == b[0];
      assert Elements(a[1..]) == Elements(a) - {a[0]};
      assert Elements(b[1..]) == Elements(b) - {b[0]};
      AscendingUnique(less, a[1..], b[1..]);
      assert a == [a[0]] + a[1..] && b == [b[0]] + b[1..];
    }
  }

  lemma {:induction false} CanList<T(!new)>(s: set<T>) returns (r: seq<T>)
    ensures Distinct(r) && Elements(r) == s
    decreases |s|
  {
    if s == {} {
      r := [];
    } else {
      var x :| x in s;
      var rest := CanList(s - {x});
      assert forall y :: y in rest <==> y in Elements(rest);
      r := [x] + rest;
      assert Elements(r) == Elements(rest) + {x};
    }
  }

  lemma CanSort<T(!new)>(less: (T, T) -> bool, s: set<T>)
    requires Total(less)
    ensures exists r :: Ascending(less, r) && Elements(r) == s
  {
    var l := CanList(s);
    SortAscends(less, l);
    assert Elements(Sort(less, l)) == s;
  }

  /** The ascending enumeration of a set. */
  ghost function Sorted<T(!new)>(less: (T, T) -> bool, s: set<T>): (r: seq<T>)
    requires Total(less)
    ensures Ascending(less, r) && Elements(r) == s
  {
    CanSort(less, s);
    var r :| Ascending(less, r) && Elements(r) == s;
    r
  }

  lemma SortedIsSort<T(!new)>(less: (T, T) -> bool, s: seq<T>)
    requires Total(less) && Distinct(s)
    ensures Sort(less, s) == Sorted(less, Elements(s))
  {
    SortAscends(less, s);
    AscendingUnique(less, Sort(less, s), Sorted(less, Elements(s)));
  }
}
