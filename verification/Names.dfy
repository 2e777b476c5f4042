/** Names, and the order sort.Strings puts them in. */
module Names {
  /** A Go string used as a name, a key or a text value. */
  datatype Name = Name(text: string)

  const EMPTY := Name("")

  ghost predicate NoDuplicates<T>(s: seq<T>) {
    forall i, j | 0 <= i < j < |s| :: s[i] != s[j]
  }

  /** Counting a subset tells whether it is the whole set. */
  lemma SubsetOfSameSize<T>(a: set<T>, b: set<T>)
    requires a <= b
    ensures |a| == |b| <==> a == b
  {
    assert b == a + (b - a);
  }

  // ----- Byte order -----

  predicate LessText(a: string, b: string) {
    b != [] && (a == [] || a[0] < b[0] || (a[0] == b[0] && LessText(a[1..], b[1..])))
  }

  predicate Less(a: Name, b: Name) {
    LessText(a.text, b.text)
  }

  /** a comes before b when it has the smaller character at the first difference, or ends there. */
  ghost predicate FirstDifference(a: string, b: string, i: nat) {
    i <= |a| && i < |b| && a[..i] == b[..i] && (i == |a| || a[i] < b[i])
  }

  lemma SameHead(a: string, b: string, i: nat)
    ensures FirstDifference(a, b, i) && i > 0 ==> a[0] == b[0]
  {
    if FirstDifference(a, b, i) && i > 0 {
      assert a[..i][0] == b[..i][0];
    }
  }

  lemma {:induction false} LessAtFirstDifference(a: string, b: string)
    ensures LessText(a, b) <==> exists i: nat :: FirstDifference(a, b, i)
  {
    if a != [] && b != [] && a[0] == b[0] {
      LessAtFirstDifference(a[1..], b[1..]);
      if LessText(a, b) {
        var i: nat :| FirstDifference(a[1..], b[1..], i);
        assert a[..i + 1] == [a[0]] + a[1..][..i] && b[..i + 1] == [b[0]] + b[1..][..i];
        assert FirstDifference(a, b, i + 1);
      }
      if i: nat :| FirstDifference(a, b, i) {
        assert i > 0;
        assert a[1..][..i - 1] == a[..i][1..] && b[1..][..i - 1] == b[..i][1..];
        assert FirstDifference(a[1..], b[1..], i - 1);
      }
    } else if LessText(a, b) {
      assert FirstDifference(a, b, 0);
    } else {
      forall i: nat | FirstDifference(a, b, i) ensures i == 0 {
        SameHead(a, b, i);
      }
    }
  }

  lemma {:induction false} LessTextTransitive(a: string, b: string, c: string)
    requires LessText(a, b) && LessText(b, c)
    ensures LessText(a, c)
  {
    if a != [] && a[0] == b[0] && b[0] == c[0] {
      LessTextTransitive(a[1..], b[1..], c[1..]);
    }
  }

  lemma {:induction false} LessTextTotal(a: string, b: string)
    ensures LessText(a, b) || a == b || LessText(b, a)
    ensures !(LessText(a, b) && LessText(b, a)) && !LessText(a, a)
  {
    if a != [] {
      LessTextTotal(a[1..], a[1..]);
    }
    if a != [] && b != [] && a[0] == b[0] {
      LessTextTotal(a[1..], b[1..]);
      assert a == [a[0]] + a[1..] && b == [b[0]] + b[1..];
    }
  }

  lemma LessIsStrictOrder(a: Name, b: Name)
    ensures Less(a, b) || a == b || Less(b, a)
    ensures !(Less(a, b) && Less(b, a)) && !Less(a, a)
    ensures forall c :: Less(a, b) && Less(b, c) ==> Less(a, c)
  {
    LessTextTotal(a.text, b.text);
    forall c | Less(a, b) && Less(b, c) ensures Less(a, c) {
      LessTextTransitive(a.text, b.text, c.text);
    }
  }

  // ----- Sorted listings -----

  ghost predicate Ascending(names: seq<Name>) {
    forall i, j | 0 <= i < j < |names| :: Less(names[i], names[j])
  }

  /** names lists exactly the members of keys, in order. */
  ghost predicate IsListing(names: seq<Name>, keys: set<Name>) {
    Ascending(names) && forall n :: n in names <==> n in keys
  }

  lemma {:induction false} ListingLength(names: seq<Name>, keys: set<Name>)
    requires IsListing(names, keys)
    ensures |names| == |keys|
  {
    if names == [] {
      assert keys == {};
    } else {
      var last := names[|names| - 1];
      LessIsStrictOrder(last, last);
      var front := names[..|names| - 1];
      assert last !in front;
      ListingLength(front, keys - {last});
    }
  }

  /** There is only one listing, so the order in which a map is iterated cannot be seen in it. */
  lemma {:induction false} OneListing(a: seq<Name>, b: seq<Name>, keys: set<Name>)
    requires IsListing(a, keys) && IsListing(b, keys)
    ensures a == b
  {
    ListingLength(a, keys);
    ListingLength(b, keys);
    if a != [] {
      LastIsGreatest(a, b, keys);
      var last := a[|a| - 1];
      LessIsStrictOrder(last, last);
      OneListing(a[..|a| - 1], b[..|b| - 1], keys - {last});
      assert a == a[..|a| - 1] + [last] && b == b[..|b| - 1] + [last];
    }
  }

  lemma LastIsGreatest(a: seq<Name>, b: seq<Name>, keys: set<Name>)
    requires IsListing(a, keys) && IsListing(b, keys) && a != [] && b != []
    ensures a[|a| - 1] == b[|b| - 1]
  {
    var x, y := a[|a| - 1], b[|b| - 1];
    assert x in b && y in a;
    LessIsStrictOrder(x, y);
  }

  /** sortedFactNames, and the same loop over any other map: collect the keys in whatever order
      the map yields them, then sort. */
  method SortedNames(keys: set<Name>) returns (names: seq<Name>)
    ensures IsListing(names, keys)
  {
    var collected := [];
    var left := keys;
    while left != {}
      invariant left <= keys
      invariant NoDuplicates(collected)
      invariant forall n :: n in collected <==> n in keys && n !in left
      decreases |left|
    {
      var n :| n in left;
      collected := collected + [n];
      left := left - {n};
    }
    names := SortStrings(collected);
  }

  /** sort.Strings on distinct names. */
  method SortStrings(names: seq<Name>) returns (sorted: seq<Name>)
    requires NoDuplicates(names)
    ensures Ascending(sorted) && forall n :: n in sorted <==> n in names
  {
    sorted := [];
    for i := 0 to |names|
      invariant Ascending(sorted) && forall n :: n in sorted <==> n in names[..i]
    {
      var at := 0;
      while at < |sorted| && Less(sorted[at], names[i])
        invariant at <= |sorted| && forall j | 0 <= j < at :: Less(sorted[j], names[i])
      {
        at := at + 1;
      }
      InsertKeepsOrder(sorted, at, names[i]);
      sorted := sorted[..at] + [names[i]] + sorted[at..];
      assert names[..i + 1] == names[..i] + [names[i]];
    }
  }

  lemma InsertKeepsOrder(sorted: seq<Name>, at: nat, n: Name)
    requires Ascending(sorted) && at <= |sorted| && n !in sorted
    requires forall j | 0 <= j < at :: Less(sorted[j], n)
    requires at < |sorted| ==> !Less(sorted[at], n)
    ensures Ascending(sorted[..at] + [n] + sorted[at..])
    ensures forall m :: m in sorted[..at] + [n] + sorted[at..] <==> m in sorted || m == n
  {
    hide Less;
    assert sorted == sorted[..at] + sorted[at..];
    forall j | at <= j < |sorted| ensures Less(n, sorted[j]) {
      LessIsStrictOrder(n, sorted[at]);
    }
  }
}
