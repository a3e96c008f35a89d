/** The order Go's `sort` package uses on strings, and why a sorted permutation is unique. */
module Sorting {

  predicate Less(a: string, b: string) {
    b != "" && (a == "" || a[0] < b[0] || (a[0] == b[0] && Less(a[1..], b[1..])))
  }

  predicate Sorted(keys: seq<string>) {
    forall i, j :: 0 <= i < j < |keys| ==> !Less(keys[j], keys[i])
  }

  lemma {:induction false} LessTotal(a: string, b: string)
    ensures Less(a, b) || Less(b, a) || a == b
    ensures !(Less(a, b) && Less(b, a))
  {
    if a != "" && b != "" && a[0] == b[0] {
      LessTotal(a[1..], b[1..]);
      assert a == [a[0]] + a[1..] && b == [b[0]] + b[1..];
    }
  }

  lemma {:induction false} NotLessTransitive(a: string, b: string, c: string)
    requires !Less(b, a) && !Less(c, b)
    ensures !Less(c, a)
  {
    if a != "" && b != "" && c != "" && a[0] == b[0] == c[0] {
      NotLessTransitive(a[1..], b[1..], c[1..]);
    }
  }

  /** Insertion of one key into a sorted list; it is what shows that a sort can always be met. */
  function Place(k: string, s: seq<string>): nat
    ensures Place(k, s) <= |s|
    ensures forall i :: 0 <= i < Place(k, s) ==> Less(s[i], k)
    ensures Place(k, s) < |s| ==> !Less(s[Place(k, s)], k)
  {
    if s == [] || !Less(s[0], k) then 0 else 1 + Place(k, s[1..])
  }

  lemma {:induction false} PlacedIsSorted(k: string, s: seq<string>)
    requires Sorted(s)
    ensures var p := Place(k, s); Sorted(s[..p] + [k] + s[p..])
  {
    var p := Place(k, s);
    var r := s[..p] + [k] + s[p..];
    forall i, j | 0 <= i < j < |r| ensures !Less(r[j], r[i]) {
      if j == p {
        LessTotal(r[i], k);
      } else if i == p {
        LessTotal(s[p], s[p]);
        NotLessTransitive(k, s[p], r[j]);
      }
    }
  }

  lemma PlacedAdds(k: string, s: seq<string>)
    ensures var p := Place(k, s); multiset(s[..p] + [k] + s[p..]) == multiset(s) + multiset{k}
  {
    var p := Place(k, s);
    assert s == s[..p] + s[p..];
  }

  /** One way to sort; callers know only that it is a sort. */
  function SortedOf(s: seq<string>): (r: seq<string>)
    ensures multiset(r) == multiset(s) && Sorted(r)
  {
    if s == [] then []
    else
      var rest := SortedOf(s[1..]);
      var p := Place(s[0], rest);
      PlacedIsSorted(s[0], rest);
      PlacedAdds(s[0], rest);
      assert s == [s[0]] + s[1..];
      rest[..p] + [s[0]] + rest[p..]
  }

  /** Sorted lists with the same elements, counted, are the same list. */
  lemma {:induction false} SortedUnique(a: seq<string>, b: seq<string>)
    requires Sorted(a) && Sorted(b) && multiset(a) == multiset(b)
    ensures a == b
  {
    if a == [] {
      assert |multiset(b)| == 0;
    } else {
      assert a[0] in multiset(b) && b != [];
      assert b[0] in multiset(a);
      LeastFirst(a, b[0]);
      LeastFirst(b, a[0]);
      LessTotal(a[0], b[0]);
      assert a == [a[0]] + a[1..] && b == [b[0]] + b[1..];
      assert multiset(a[1..]) == multiset(a) - multiset{a[0]};
      assert multiset(b[1..]) == multiset(b) - multiset{b[0]};
      SortedUnique(a[1..], b[1..]);
    }
  }

  lemma LeastFirst(a: seq<string>, x: string)
    requires Sorted(a) && x in a
    ensures !Less(x, a[0])
  {
    LessTotal(a[0], a[0]);
  }
}
