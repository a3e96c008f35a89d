/** The status condition set: a list that stands for a map from condition type to condition.
    Times are clock readings, passed to the calls that read the clock. */
module StatusConditions {
  import opened Collections
  import opened Sorting

  datatype Condition = Condition(kind: string, status: string, reason: string, message: string, transition: int)

  const ZERO_CONDITION := Condition("", "", "", "", 0)

  // ----- The list operations -----

  function Kinds(s: seq<Condition>): (r: seq<string>)
    ensures |r| == |s| && forall i :: 0 <= i < |s| ==> r[i] == s[i].kind
  {
    seq(|s|, i requires 0 <= i < |s| => s[i].kind)
  }

  ghost predicate DistinctKinds(s: seq<Condition>) {
    Distinct(Kinds(s))
  }

  /** Where the first condition of the type stands; the length when there is none. */
  function IndexOf(s: seq<Condition>, kind: string): (i: nat)
    ensures i <= |s| && (i < |s| ==> s[i].kind == kind)
    ensures forall j :: 0 <= j < i ==> s[j].kind != kind
  {
    if s == [] || s[0].kind == kind then 0 else 1 + IndexOf(s[1..], kind)
  }

  function Find(s: seq<Condition>, kind: string): Option<Condition> {
    var i := IndexOf(s, kind);
    if i < |s| then Some(s[i]) else None
  }

  /** What is stored for `c` when `prior` was there before: the time moves only with the status. */
  function Stamped(prior: Option<Condition>, c: Condition, now: int): Condition {
    if prior.Some? && prior.value.status == c.status then c.(transition := prior.value.transition)
    else c.(transition := now)
  }

  ghost predicate Changes(prior: Option<Condition>, c: Condition) {
    prior.None? || prior.value.status != c.status || prior.value.reason != c.reason || prior.value.message != c.message
  }

  function SetIn(s: seq<Condition>, c: Condition, now: int): seq<Condition> {
    var i := IndexOf(s, c.kind);
    var stored := Stamped(Find(s, c.kind), c, now);
    if i < |s| then s[i := stored] else s + [stored]
  }

  function Removed(s: seq<Condition>, kind: string): seq<Condition> {
    var i := IndexOf(s, kind);
    if i < |s| then s[..i] + s[i + 1..] else s
  }

  function Built(conds: seq<Condition>, nows: seq<int>): seq<Condition>
    requires |conds| == |nows|
  {
    if conds == [] then []
    else
      var n := |conds| - 1;
      SetIn(Built(conds[..n], nows[..n]), conds[n], nows[n])
  }

  /** What sorting by type promises: nothing is said about equal types. */
  ghost predicate SortOf(s: seq<Condition>, r: seq<Condition>) {
    multiset(r) == multiset(s) && Sorted(Kinds(r))
  }

  function Insert(c: Condition, s: seq<Condition>): seq<Condition> {
    var p := Place(c.kind, Kinds(s));
    s[..p] + [c] + s[p..]
  }

  lemma InsertSorts(c: Condition, s: seq<Condition>)
    requires Sorted(Kinds(s))
    ensures Sorted(Kinds(Insert(c, s)))
  {
    var p := Place(c.kind, Kinds(s));
    PlacedIsSorted(c.kind, Kinds(s));
    assert Kinds(Insert(c, s)) == Kinds(s)[..p] + [c.kind] + Kinds(s)[p..];
  }

  lemma InsertAdds(c: Condition, s: seq<Condition>)
    ensures multiset(Insert(c, s)) == multiset(s) + multiset{c}
  {
    var p := Place(c.kind, Kinds(s));
    assert s == s[..p] + s[p..];
  }

  /** One way to sort; callers know only that it is a sort. */
  function ByKind(s: seq<Condition>): (r: seq<Condition>)
    ensures SortOf(s, r)
  {
    if s == [] then [] else
      var rest := ByKind(s[1..]);
      InsertSorts(s[0], rest);
      InsertAdds(s[0], rest);
      assert s == [s[0]] + s[1..];
      Insert(s[0], rest)
  }

  lemma SetIsFound(s: seq<Condition>, c: Condition, now: int)
    ensures Find(SetIn(s, c, now), c.kind) == Some(Stamped(Find(s, c.kind), c, now))
  {
    var r, i := SetIn(s, c, now), IndexOf(s, c.kind);
    assert forall j :: 0 <= j < i ==> r[j] == s[j];
    assert r[i].kind == c.kind && IndexOf(r, c.kind) == i;
  }

  // ----- The set itself: a slice over an array that other slices may share -----

  class Conditions {
    var cells: array<Condition>
    var len: nat

    ghost predicate Valid()
      reads this
    {
      len <= cells.Length
    }

    ghost function Contents(): seq<Condition>
      reads this, cells
      requires Valid()
    {
      cells[..len]
    }

    constructor ()
      ensures Valid() && fresh(cells) && Contents() == []
    {
      cells := new Condition[0];
      len := 0;
    }

    static method NewConditions(conds: seq<Condition>, nows: seq<int>) returns (c: Conditions)
      requires |conds| == |nows|
      ensures fresh(c) && c.Valid() && fresh(c.cells) && c.Contents() == Built(conds, nows)
    {
      c := new Conditions();
      for k := 0 to |conds|
        invariant fresh(c) && c.Valid() && fresh(c.cells)
        invariant c.Contents() == Built(conds[..k], nows[..k])
      {
        assert conds[..k + 1][..k] == conds[..k] && nows[..k + 1][..k] == nows[..k];
        var _ := c.SetCondition(conds[k], nows[k]);
      }
      assert conds[..|conds|] == conds && nows[..|nows|] == nows;
    }

    method IsTrueFor(kind: string) returns (r: bool)
      requires Valid()
      ensures r == match Find(Contents(), kind) case Some(c) => c.status == "True" case None => false
    {
      for i := 0 to len
        invariant forall j :: 0 <= j < i ==> Contents()[j].kind != kind
      {
        if cells[i].kind == kind { return cells[i].status == "True"; }
      }
      return false;
    }

    method IsFalseFor(kind: string) returns (r: bool)
      requires Valid()
      ensures r == match Find(Contents(), kind) case Some(c) => c.status == "False" case None => false
    {
      for i := 0 to len
        invariant forall j :: 0 <= j < i ==> Contents()[j].kind != kind
      {
        if cells[i].kind == kind { return cells[i].status == "False"; }
      }
      return false;
    }

    method IsUnknownFor(kind: string) returns (r: bool)
      requires Valid()
      ensures r == match Find(Contents(), kind) case Some(c) => c.status == "Unknown" case None => true
    {
      for i := 0 to len
        invariant forall j :: 0 <= j < i ==> Contents()[j].kind != kind
      {
        if cells[i].kind == kind { return cells[i].status == "Unknown"; }
      }
      return true;
    }

    method GetCondition(kind: string) returns (r: Option<Condition>)
      requires Valid()
      ensures r == Find(Contents(), kind)
    {
      for i := 0 to len
        invariant forall j :: 0 <= j < i ==> Contents()[j].kind != kind
      {
        if cells[i].kind == kind { return Some(cells[i]); }
      }
      return None;
    }

    /** Overwrites in place, or appends: into the spare capacity of the array when there is some,
        else into a larger copy that no other slice shares. */
    method SetCondition(newCond: Condition, now: int) returns (changed: bool)
      requires Valid()
      modifies this, cells
      ensures Valid() && (cells == old(cells) || fresh(cells))
      ensures Contents() == SetIn(old(Contents()), newCond, now)
      ensures changed <==> Changes(old(Find(Contents(), newCond.kind)), newCond)
      ensures Find(Contents(), newCond.kind).Some?
      ensures var before, after := old(Find(Contents(), newCond.kind)), Find(Contents(), newCond.kind).value;
        && after.(transition := 0) == newCond.(transition := 0)
        && (changed <==> before.None? || before.value.(transition := 0) != after.(transition := 0))
      ensures forall k :: 0 <= k < old(cells.Length) && k != IndexOf(old(Contents()), newCond.kind) ==>
        old(cells)[k] == old(cells[k])
    {
      var stored := newCond.(transition := now);
      ghost var was := Contents();
      for i := 0 to len
        invariant cells == old(cells) && len == old(len) && cells[..] == old(cells[..])
        invariant stored == newCond.(transition := now)
        invariant forall j :: 0 <= j < i ==> was[j].kind != newCond.kind
      {
        var condition := cells[i];
        if condition.kind == newCond.kind {
          assert IndexOf(was, newCond.kind) == i;
          if condition.status == newCond.status {
            stored := stored.(transition := condition.transition);
          }
          changed := condition.status != newCond.status
            || condition.reason != newCond.reason
            || condition.message != newCond.message;
          cells[i] := stored;
          assert Contents() == was[i := stored];
          SetIsFound(was, newCond, now);
          return changed;
        }
      }
      assert IndexOf(was, newCond.kind) == len;
      if len == cells.Length {
        Grow();
      }
      cells[len] := stored;
      len := len + 1;
      assert Contents() == was + [stored];
      SetIsFound(was, newCond, now);
      return true;
    }

    method Grow()
      requires Valid()
      modifies this`cells
      ensures Valid() && fresh(cells) && cells.Length > len && Contents() == old(Contents())
    {
      var from := cells;
      cells := new Condition[2 * len + 1](
        i requires 0 <= i reads this, from => if i < len <= from.Length then from[i] else ZERO_CONDITION);
    }

    method ShiftLeft(i: nat)
      requires Valid() && i < len
      modifies cells
      ensures cells[..len - 1] == old(Contents())[..i] + old(Contents())[i + 1..]
      ensures forall k :: len - 1 <= k < cells.Length ==> cells[k] == old(cells[k])
    {
      forall k | i <= k < len - 1 {
        cells[k] := cells[k + 1];
      }
    }

    /** Shifts the later conditions left in the shared array; its last used cell keeps its value. */
    method RemoveCondition(kind: string) returns (found: bool)
      requires Valid()
      modifies this`len, cells
      ensures Valid() && cells == old(cells)
      ensures Contents() == Removed(old(Contents()), kind)
      ensures found <==> old(Find(Contents(), kind)).Some?
      ensures forall k :: 0 <= k < cells.Length && k >= old(len) - 1 ==> cells[k] == old(cells[k])
    {
      for i := 0 to len
        invariant len == old(len) && forall k :: 0 <= k < cells.Length ==> cells[k] == old(cells[k])
        invariant forall j :: 0 <= j < i ==> Contents()[j].kind != kind
      {
        if cells[i].kind == kind {
          assert IndexOf(Contents(), kind) == i;
          ShiftLeft(i);
          len := len - 1;
          return true;
        }
      }
      return false;
    }

    /** Sorts the shared array in place and returns what is then encoded, element by element. */
    method MarshalJSON() returns (encoded: seq<Condition>)
      requires Valid()
      modifies cells
      ensures Valid()
      ensures SortOf(old(Contents()), encoded) && Contents() == encoded
      ensures forall k :: len <= k < cells.Length ==> cells[k] == old(cells[k])
    {
      var sorted := ByKind(cells[..len]);
      assert |sorted| == |multiset(sorted)| == |multiset(cells[..len])| == len;
      forall k | 0 <= k < len {
        cells[k] := sorted[k];
      }
      assert cells[..len] == sorted;
      return sorted;
    }
  }
}
