/** Optional values, results with an error text, and the few list operations the
    channel operators share: append-if-absent, filtering, and first-match lookup. */
module Collections {

  datatype Option<+T> = None | Some(value: T)

  /** A Go `(value, error)` pair: exactly one of the two is meaningful. */
  datatype Result<+T> = Ok(value: T) | Err(error: string)

  function ToSet<T>(s: seq<T>): set<T> {
    set x | x in s
  }

  ghost predicate Distinct<T>(s: seq<T>) {
    forall i, j :: 0 <= i < j < |s| ==> s[i] != s[j]
  }

  /** Appends `x` unless an equal element is present. */
  function AddIfAbsent<T(==)>(s: seq<T>, x: T): seq<T> {
    if x in s then s else s + [x]
  }

  function AddAll<T(==)>(s: seq<T>, xs: seq<T>): seq<T>
    decreases |xs|
  {
    if xs == [] then s else AddAll(AddIfAbsent(s, xs[0]), xs[1..])
  }

  /** The elements of `s` outside `drop`, in their order. */
  function Without<T(==)>(s: seq<T>, drop: set<T>): seq<T> {
    if s == [] then []
    else if s[0] in drop then Without(s[1..], drop)
    else [s[0]] + Without(s[1..], drop)
  }

  lemma {:induction false} AddAllSplit<T>(s: seq<T>, xs: seq<T>, ys: seq<T>)
    ensures AddAll(s, xs + ys) == AddAll(AddAll(s, xs), ys)
    decreases |xs|
  {
    if xs == [] {
      assert xs + ys == ys;
    } else {
      assert (xs + ys)[1..] == xs[1..] + ys;
      AddAllSplit(AddIfAbsent(s, xs[0]), xs[1..], ys);
    }
  }

  lemma AddAllSnoc<T>(s: seq<T>, xs: seq<T>, x: T)
    ensures AddAll(s, xs + [x]) == AddIfAbsent(AddAll(s, xs), x)
  {
    AddAllSplit(s, xs, [x]);
  }

  lemma {:induction false} AddAllMembers<T>(s: seq<T>, xs: seq<T>)
    ensures forall x :: x in AddAll(s, xs) <==> x in s || x in xs
    ensures Distinct(s) ==> Distinct(AddAll(s, xs))
    decreases |xs|
  {
    if xs != [] {
      AddAllMembers(AddIfAbsent(s, xs[0]), xs[1..]);
      assert xs == [xs[0]] + xs[1..];
    }
  }

  lemma AddAllMember<T>(s: seq<T>, xs: seq<T>, x: T)
    ensures x in AddAll(s, xs) <==> x in s || x in xs
  {
    AddAllMembers(s, xs);
  }

  lemma {:induction false} AddAllPresent<T>(s: seq<T>, xs: seq<T>)
    requires forall x :: x in xs ==> x in s
    ensures AddAll(s, xs) == s
    decreases |xs|
  {
    if xs != [] {
      AddAllPresent(s, xs[1..]);
    }
  }

  /** Adding to a list that shares nothing with the additions leaves it as a prefix. */
  lemma {:induction false} AddAllDisjoint<T>(base: seq<T>, s: seq<T>, xs: seq<T>)
    requires forall x :: x in xs ==> x !in base
    ensures AddAll(base + s, xs) == base + AddAll(s, xs)
    decreases |xs|
  {
    if xs != [] {
      var x := xs[0];
      assert x in xs;
      assert x in base + s <==> x in s;
      assert base + s + [x] == base + (s + [x]);
      AddAllDisjoint(base, AddIfAbsent(s, x), xs[1..]);
    }
  }

  lemma {:induction false} AddAllOfDistinct<T>(s: seq<T>, xs: seq<T>)
    requires Distinct(s + xs)
    ensures AddAll(s, xs) == s + xs
    decreases |xs|
  {
    if xs == [] {
      assert s + xs == s;
    } else {
      assert (s + xs)[|s|] == xs[0];
      assert forall i :: 0 <= i < |s| ==> (s + xs)[i] == s[i];
      assert (s + [xs[0]]) + xs[1..] == s + xs;
      AddAllOfDistinct(s + [xs[0]], xs[1..]);
    }
  }

  lemma {:induction false} WithoutMembers<T>(s: seq<T>, drop: set<T>)
    ensures forall x :: x in Without(s, drop) <==> x in s && x !in drop
    ensures Distinct(s) ==> Distinct(Without(s, drop))
  {
    if s != [] {
      WithoutMembers(s[1..], drop);
      assert s == [s[0]] + s[1..];
    }
  }

  lemma {:induction false} WithoutTwice<T>(s: seq<T>, a: set<T>, b: set<T>)
    ensures Without(Without(s, a), b) == Without(s, a + b)
  {
    if s != [] {
      WithoutTwice(s[1..], a, b);
      var rest := Without(s[1..], a);
      if s[0] !in a {
        assert ([s[0]] + rest)[1..] == rest;
      }
    }
  }

  lemma ToSetSnoc<T>(s: seq<T>, x: T)
    ensures ToSet(s + [x]) == ToSet(s) + {x}
  {
  }

  lemma {:induction false} WithoutNone<T>(s: seq<T>, drop: set<T>)
    requires forall x :: x in s ==> x !in drop
    ensures Without(s, drop) == s
  {
    if s != [] {
      WithoutNone(s[1..], drop);
    }
  }

  lemma {:induction false} WithoutAll<T>(s: seq<T>, drop: set<T>)
    requires forall x :: x in s ==> x in drop
    ensures Without(s, drop) == []
  {
    if s != [] {
      WithoutAll(s[1..], drop);
    }
  }

  lemma {:induction false} WithoutSuffix<T>(s: seq<T>, t: seq<T>, drop: set<T>)
    requires forall x :: x in s ==> x !in drop
    requires forall x :: x in t ==> x in drop
    ensures Without(s + t, drop) == s
  {
    if s == [] {
      assert s + t == t;
      WithoutAll(t, drop);
    } else {
      assert (s + t)[1..] == s[1..] + t;
      WithoutSuffix(s[1..], t, drop);
    }
  }

  /** Filtering out what was added, and nothing else, recovers the list added to. */
  lemma {:induction false} WithoutAdded<T>(kept: seq<T>, added: seq<T>, drop: set<T>)
    requires forall x :: x in kept ==> x !in added && x !in drop
    requires forall x :: x in added ==> x in drop
    ensures Without(AddAll(kept, added), drop) == kept
  {
    var none: seq<T> := [];
    AddAllDisjoint(kept, none, added);
    assert kept + none == kept;
    forall x | x in AddAll(none, added)
      ensures x in drop
    {
      AddAllMember(none, added, x);
    }
    WithoutSuffix(kept, AddAll(none, added), drop);
  }

  /** Two duplicate-free lists with the same elements are permutations of one another. */
  lemma {:induction false} DistinctSameMembers<T>(s: seq<T>, t: seq<T>)
    requires Distinct(s) && Distinct(t)
    requires forall x :: x in s <==> x in t
    ensures multiset(s) == multiset(t)
  {
    forall x
      ensures multiset(s)[x] == multiset(t)[x]
    {
      DistinctCount(s, x);
      DistinctCount(t, x);
    }
  }

  lemma {:induction false} DistinctCount<T>(s: seq<T>, x: T)
    requires Distinct(s)
    ensures multiset(s)[x] == if x in s then 1 else 0
  {
    if s != [] {
      DistinctCount(s[1..], x);
      assert s == [s[0]] + s[1..];
    }
  }
}
