/** List operations the application builds from `Array.from(new Set(xs))`
    (deduplication in insertion order) and `xs.slice(0, n)`. */
module Lists {

  predicate NoDuplicates<T(==)>(s: seq<T>) {
    forall i, j :: 0 <= i < j < |s| ==> s[i] != s[j]
  }

  /** `Array.from(new Set(s))`: a `Set` keeps the first insertion of each
      element, in insertion order. */
  function Dedup<T(==)>(s: seq<T>): (r: seq<T>)
    ensures |r| <= |s|
  {
    if |s| == 0 then []
    else
      var d := Dedup(s[..|s| - 1]);
      if s[|s| - 1] in d then d else d + [s[|s| - 1]]
  }

  /** `s.slice(0, n)`. */
  function Take<T>(s: seq<T>, n: nat): (r: seq<T>)
    ensures |r| <= n && |r| <= |s|
    ensures r == s[..|r|]
    ensures |s| <= n ==> r == s
    ensures n <= |s| ==> |r| == n
  {
    if |s| <= n then s else s[..n]
  }

  /** The position of the first occurrence of `x` in `s`. */
  function FirstIndex<T(==)>(s: seq<T>, x: T): (k: nat)
    requires x in s
    ensures k < |s| && s[k] == x && x !in s[..k]
  {
    if s[0] == x then 0 else 1 + FirstIndex(s[1..], x)
  }

  lemma {:induction false} DedupMembers<T>(s: seq<T>)
    ensures forall x :: x in Dedup(s) <==> x in s
  {
    if |s| > 0 {
      var p := s[..|s| - 1];
      DedupMembers(p);
      assert s == p + [s[|s| - 1]];
    }
  }

  lemma {:induction false} DedupNoDuplicates<T>(s: seq<T>)
    ensures NoDuplicates(Dedup(s))
  {
    if |s| > 0 {
      DedupNoDuplicates(s[..|s| - 1]);
    }
  }

  /** Deduplicating a list that has no duplicates changes nothing. */
  lemma {:induction false} DedupOfDistinct<T>(s: seq<T>)
    requires NoDuplicates(s)
    ensures Dedup(s) == s
  {
    if |s| > 0 {
      var p := s[..|s| - 1];
      DedupOfDistinct(p);
      assert s[|s| - 1] !in p;
      assert s == p + [s[|s| - 1]];
    }
  }

  /** What is inserted first comes first: `Dedup(a)` is a prefix of
      `Dedup(a + b)`. */
  lemma {:induction false} DedupPrefix<T>(a: seq<T>, b: seq<T>)
    ensures |Dedup(a)| <= |Dedup(a + b)|
    ensures Dedup(a + b)[..|Dedup(a)|] == Dedup(a)
  {
    if |b| == 0 {
      assert a + b == a;
    } else {
      var b' := b[..|b| - 1];
      DedupPrefix(a, b');
      assert (a + b)[..|a + b| - 1] == a + b';
    }
  }

  /** Elements of `Dedup(s)` appear in the order of their first occurrences
      in `s`. */
  lemma {:induction false} DedupFirstOccurrenceOrder<T>(s: seq<T>, i: nat, j: nat)
    requires i < j < |Dedup(s)|
    ensures Dedup(s)[i] in s && Dedup(s)[j] in s
    ensures FirstIndex(s, Dedup(s)[i]) < FirstIndex(s, Dedup(s)[j])
  {
    DedupMembers(s);
    assert Dedup(s)[i] in Dedup(s) && Dedup(s)[j] in Dedup(s);
    var p := s[..|s| - 1];
    var d := Dedup(p);
    FirstIndexOfPrefix(s, p);
    if j < |d| {
      DedupFirstOccurrenceOrder(p, i, j);
    } else {
      DedupLastIsNew(s, i);
    }
  }

  /** When `Dedup(s)` ends with the last element of `s`, every earlier
      element of `Dedup(s)` occurs before it. */
  lemma DedupLastIsNew<T>(s: seq<T>, i: nat)
    requires |s| > 0 && i < |Dedup(s[..|s| - 1])| < |Dedup(s)|
    ensures Dedup(s)[i] in s[..|s| - 1]
    ensures Dedup(s)[|Dedup(s)| - 1] == s[|s| - 1] && s[|s| - 1] !in s[..|s| - 1]
  {
    var p := s[..|s| - 1];
    var d := Dedup(p);
    DedupMembers(p);
    assert Dedup(s) == d + [s[|s| - 1]];
    DedupElement(p, i);
  }

  lemma DedupElement<T>(p: seq<T>, i: nat)
    requires i < |Dedup(p)|
    ensures Dedup(p)[i] in p
  {
    DedupMembers(p);
    assert Dedup(p)[i] in Dedup(p);
  }

  lemma FirstIndexOfPrefix<T>(s: seq<T>, p: seq<T>)
    requires p <= s
    ensures forall x :: x in p ==> FirstIndex(s, x) == FirstIndex(p, x)
    ensures |p| < |s| && s[|p|] !in p ==> FirstIndex(s, s[|p|]) == |p|
  {
    forall x | x in p ensures FirstIndex(s, x) == FirstIndex(p, x) {
      var m := FirstIndex(p, x);
      assert s[m] == x;
    }
  }

  /** `Array.from(new Set(s)).slice(0, n)`: the `uniq` pattern. */
  function UniqTake<T(==)>(s: seq<T>, n: nat): (r: seq<T>)
    ensures |r| <= n
    ensures NoDuplicates(r)
    ensures forall x :: x in r ==> x in s
    ensures |r| <= |Dedup(s)| && r == Dedup(s)[..|r|]
    ensures |r| == if |Dedup(s)| < n then |Dedup(s)| else n
  {
    DedupNoDuplicates(s);
    DedupMembers(s);
    Take(Dedup(s), n)
  }
}
