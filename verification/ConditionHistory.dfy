/** What the condition list means: a map from type to condition, a rule for the transition time
    over whole histories of calls, and an encoding that depends on the map alone. */
module ConditionHistory {
  import opened Collections
  import opened Sorting
  import opened StatusConditions

  // ----- The map the list stands for -----

  ghost function AsMap(s: seq<Condition>): (m: map<string, Condition>)
    ensures forall t :: (t in m <==> Find(s, t).Some?) && (t in m ==> m[t] == Find(s, t).value)
  {
    if s == [] then map[] else AsMap(s[1..])[s[0].kind := s[0]]
  }

  function Lookup(m: map<string, Condition>, t: string): Option<Condition> {
    if t in m then Some(m[t]) else None
  }

  function Forget(m: map<string, Condition>, t: string): map<string, Condition> {
    m - {t}
  }

  lemma {:induction false} FindInSet(s: seq<Condition>, c: Condition, now: int, t: string)
    ensures Find(SetIn(s, c, now), t) == if t == c.kind then Some(Stamped(Find(s, t), c, now)) else Find(s, t)
  {
    var r := SetIn(s, c, now);
    var i, j := IndexOf(s, t), IndexOf(r, t);
    assert forall x :: 0 <= x < |s| ==> r[x].kind == s[x].kind;
    assert |s| < |r| ==> r[|s|].kind == c.kind;
    if i < |s| {
      assert j == i;
    } else {
      assert t == c.kind ==> j == |s|;
      assert t != c.kind ==> j == |r|;
    }
  }

  lemma {:induction false} MapIs(s: seq<Condition>, m: map<string, Condition>)
    requires forall t :: Find(s, t) == Lookup(m, t)
    ensures AsMap(s) == m
  {
    forall t ensures (t in AsMap(s) <==> t in m) && (t in m ==> AsMap(s)[t] == m[t]) {
      assert Find(s, t) == Lookup(m, t);
    }
  }

  /** Setting a condition is a map update, for every list. */
  lemma {:induction false} SetIsUpdate(s: seq<Condition>, c: Condition, now: int)
    ensures AsMap(SetIn(s, c, now)) == AsMap(s)[c.kind := Stamped(Lookup(AsMap(s), c.kind), c, now)]
  {
    var m := AsMap(s)[c.kind := Stamped(Lookup(AsMap(s), c.kind), c, now)];
    forall t ensures Find(SetIn(s, c, now), t) == Lookup(m, t) {
      FindInSet(s, c, now, t);
    }
    MapIs(SetIn(s, c, now), m);
  }

  lemma SetKeepsDistinct(s: seq<Condition>, c: Condition, now: int)
    requires DistinctKinds(s)
    ensures DistinctKinds(SetIn(s, c, now))
  {
    var r := SetIn(s, c, now);
    forall i, j | 0 <= i < j < |r| ensures Kinds(r)[i] != Kinds(r)[j] {
      assert j < |s| ==> Kinds(s)[i] != Kinds(s)[j];
    }
  }

  ghost predicate AtMostOnce(s: seq<Condition>, t: string) {
    forall i, j :: 0 <= i < j < |s| ==> s[i].kind != t || s[j].kind != t
  }

  lemma {:induction false} FindInRemoved(s: seq<Condition>, t: string, u: string)
    requires u != t || AtMostOnce(s, t)
    ensures Find(Removed(s, t), u) == if u == t then None else Find(s, u)
  {
    var r := Removed(s, t);
    var k := IndexOf(s, t);
    var i, j := IndexOf(s, u), IndexOf(r, u);
    if k < |s| {
      assert forall x :: 0 <= x < |r| ==> r[x] == s[if x < k then x else x + 1];
      if u == t {
        assert forall x :: 0 <= x < |r| ==> r[x].kind != t;
      } else if i < |s| {
        var i' := if i < k then i else i - 1;
        assert r[i'] == s[i];
        assert forall x :: 0 <= x < i' ==> r[x].kind != u;
      } else {
        assert j == |r|;
      }
    }
  }

  lemma RemoveDeletes(s: seq<Condition>, t: string)
    requires AtMostOnce(s, t)
    ensures AsMap(Removed(s, t)) == Forget(AsMap(s), t)
  {
    forall u ensures Find(Removed(s, t), u) == Lookup(Forget(AsMap(s), t), u) {
      FindInRemoved(s, t, u);
    }
    MapIs(Removed(s, t), Forget(AsMap(s), t));
  }

  lemma RemoveUncovers(s: seq<Condition>, t: string)
    requires !AtMostOnce(s, t)
    ensures t in AsMap(Removed(s, t))
  {
    var i, j :| 0 <= i < j < |s| && s[i].kind == t && s[j].kind == t;
    var r := Removed(s, t);
    assert IndexOf(s, t) <= i;
    assert r[j - 1] == s[j];
    assert IndexOf(r, t) < |r|;
  }

  /** Removing a type deletes it from the map exactly when the list holds it at most once; that
      is why the lists must have distinct types. */
  lemma {:induction false} RemoveIsDelete(s: seq<Condition>, t: string)
    ensures AsMap(Removed(s, t)) == Forget(AsMap(s), t) <==> AtMostOnce(s, t)
  {
    if AtMostOnce(s, t) {
      RemoveDeletes(s, t);
    } else {
      RemoveUncovers(s, t);
    }
  }

  lemma RemoveKeepsDistinct(s: seq<Condition>, t: string)
    requires DistinctKinds(s)
    ensures DistinctKinds(Removed(s, t)) && AtMostOnce(s, t)
  {
    var r, k := Removed(s, t), IndexOf(s, t);
    forall i, j | 0 <= i < j < |r| ensures Kinds(r)[i] != Kinds(r)[j] {
      assert Kinds(r)[i] == Kinds(s)[if k < |s| && i >= k then i + 1 else i];
      assert Kinds(r)[j] == Kinds(s)[if k < |s| && j >= k then j + 1 else j];
    }
    forall i, j | 0 <= i < j < |s| ensures s[i].kind != t || s[j].kind != t {
      assert Kinds(s)[i] != Kinds(s)[j];
    }
  }

  // ----- Encoding -----

  lemma DistinctFind(s: seq<Condition>, i: nat)
    requires DistinctKinds(s) && i < |s|
    ensures Find(s, s[i].kind) == Some(s[i])
  {
    var j := IndexOf(s, s[i].kind);
    assert Kinds(s)[j] == Kinds(s)[i];
  }

  lemma KindsWithout(r: seq<Condition>, c: Condition) returns (rest: seq<Condition>)
    requires c in multiset(r)
    ensures |rest| < |r| && multiset(rest) == multiset(r) - multiset{c}
    ensures multiset(Kinds(r)) == multiset(Kinds(rest)) + multiset{c.kind}
  {
    var k :| 0 <= k < |r| && r[k] == c;
    rest := r[..k] + r[k + 1..];
    assert r == r[..k] + [c] + r[k + 1..];
    var kinds := Kinds(r);
    assert kinds == kinds[..k] + [kinds[k]] + kinds[k + 1..];
    assert Kinds(rest) == kinds[..k] + kinds[k + 1..];
  }

  lemma {:induction false} KindsMultiset(s: seq<Condition>, r: seq<Condition>)
    requires multiset(s) == multiset(r)
    ensures multiset(Kinds(s)) == multiset(Kinds(r))
    decreases |s|
  {
    if s == [] {
      assert |multiset(r)| == 0;
    } else {
      var c := s[0];
      assert c in multiset(s);
      var s' := KindsWithout(s, c);
      var r' := KindsWithout(r, c);
      assert multiset(s') == multiset(r');
      KindsMultiset(s', r');
    }
  }

  lemma {:induction false} DistinctCounts(keys: seq<string>)
    ensures Distinct(keys) <==> forall k :: multiset(keys)[k] <= 1
  {
    if keys != [] {
      var rest := keys[1..];
      DistinctCounts(rest);
      assert keys == [keys[0]] + rest;
      if Distinct(keys) {
        forall k ensures multiset(keys)[k] <= 1 {
          assert k in multiset(rest) <==> k in rest;
        }
      } else if Distinct(rest) {
        assert keys[0] in rest;
        assert multiset(keys)[keys[0]] > 1;
      } else {
        var k :| multiset(rest)[k] > 1;
        assert multiset(keys)[k] > 1;
      }
    }
  }

  /** The in-place sort keeps types distinct and answers every lookup as before. */
  lemma {:induction false} SortKeepsMap(s: seq<Condition>, r: seq<Condition>)
    requires DistinctKinds(s) && SortOf(s, r)
    ensures DistinctKinds(r) && AsMap(r) == AsMap(s)
  {
    KindsMultiset(s, r);
    DistinctCounts(Kinds(s));
    DistinctCounts(Kinds(r));
    forall t ensures Find(s, t) == Find(r, t) {
      var i, j := IndexOf(s, t), IndexOf(r, t);
      if i < |s| {
        assert s[i] in multiset(r);
        var k :| 0 <= k < |r| && r[k] == s[i];
        DistinctFind(r, k);
      }
      if j < |r| {
        assert r[j] in multiset(s);
        var k :| 0 <= k < |s| && s[k] == r[j];
        DistinctFind(s, k);
      }
    }
  }

  lemma {:induction false} SameKindsMultiset(s: seq<Condition>, r: seq<Condition>)
    requires DistinctKinds(s) && DistinctKinds(r) && AsMap(s) == AsMap(r)
    ensures multiset(Kinds(s)) == multiset(Kinds(r))
  {
    DistinctCounts(Kinds(s));
    DistinctCounts(Kinds(r));
    forall t ensures t in multiset(Kinds(s)) <==> t in multiset(Kinds(r)) {
      assert t in Kinds(s) <==> t in AsMap(s) by { KindInMap(s, t); }
      assert t in Kinds(r) <==> t in AsMap(r) by { KindInMap(r, t); }
    }
    forall t ensures multiset(Kinds(s))[t] == multiset(Kinds(r))[t] {
      assert multiset(Kinds(s))[t] <= 1 && multiset(Kinds(r))[t] <= 1;
      assert t in multiset(Kinds(s)) <==> t in multiset(Kinds(r));
    }
  }

  lemma KindInMap(s: seq<Condition>, t: string)
    ensures t in Kinds(s) <==> t in AsMap(s)
  {
    var i := IndexOf(s, t);
    if i < |s| { assert Kinds(s)[i] == t; }
    if t in Kinds(s) {
      var k :| 0 <= k < |s| && Kinds(s)[k] == t;
    }
  }

  /** Two lists that stand for the same map are encoded alike, whatever order they were built in
      and however the sort treats them. */
  lemma {:induction false} SameMapSameEncoding(s: seq<Condition>, r: seq<Condition>,
                                               s': seq<Condition>, r': seq<Condition>)
    requires DistinctKinds(s) && DistinctKinds(r) && AsMap(s) == AsMap(r)
    requires SortOf(s, s') && SortOf(r, r')
    ensures s' == r'
  {
    SortKeepsMap(s, s');
    SortKeepsMap(r, r');
    SameKindsMultiset(s', r');
    SortedUnique(Kinds(s'), Kinds(r'));
    assert |s'| == |Kinds(s')| == |Kinds(r')| == |r'|;
    forall i | 0 <= i < |s'| ensures s'[i] == r'[i] {
      assert Kinds(s')[i] == Kinds(r')[i];
      DistinctFind(s', i);
      DistinctFind(r', i);
    }
  }

  // ----- Histories -----

  datatype Call =
    | Set(cond: Condition, now: int)
    | Remove(kind: string)
    | Marshal

  ghost predicate ListStep(s: seq<Condition>, call: Call, r: seq<Condition>) {
    match call
    case Set(c, now) => r == SetIn(s, c, now)
    case Remove(t) => r == Removed(s, t)
    case Marshal => SortOf(s, r)
  }

  /** The lists a slice goes through, from the empty one; a sort may choose. */
  ghost predicate ListRun(states: seq<seq<Condition>>, calls: seq<Call>) {
    && |states| == |calls| + 1
    && states[0] == []
    && forall k :: 0 <= k < |calls| ==> ListStep(states[k], calls[k], states[k + 1])
  }

  function MapStep(m: map<string, Condition>, call: Call): map<string, Condition> {
    match call
    case Set(c, now) => m[c.kind := Stamped(Lookup(m, c.kind), c, now)]
    case Remove(t) => Forget(m, t)
    case Marshal => m
  }

  function MapRun(calls: seq<Call>): map<string, Condition> {
    if calls == [] then map[] else MapStep(MapRun(calls[..|calls| - 1]), calls[|calls| - 1])
  }

  /** Over every history the list has distinct types and is the map the same calls make. */
  lemma {:induction false} ListRefinesMap(states: seq<seq<Condition>>, calls: seq<Call>)
    requires ListRun(states, calls)
    ensures DistinctKinds(states[|calls|]) && AsMap(states[|calls|]) == MapRun(calls)
  {
    var n := |calls|;
    if n > 0 {
      ListRefinesMap(states[..n], calls[..n - 1]);
      var s, r := states[n - 1], states[n];
      assert ListStep(s, calls[n - 1], r);
      match calls[n - 1] {
        case Set(c, now) =>
          SetIsUpdate(s, c, now);
          SetKeepsDistinct(s, c, now);
        case Remove(t) =>
          RemoveKeepsDistinct(s, t);
          RemoveIsDelete(s, t);
        case Marshal =>
          SortKeepsMap(s, r);
      }
    }
  }

  // ----- The transition time -----

  predicate Touches(call: Call, t: string) {
    match call
    case Set(c, _) => c.kind == t
    case Remove(u) => u == t
    case Marshal => false
  }

  predicate Sets(call: Call, t: string, status: string) {
    call.Set? && call.cond.kind == t && call.cond.status == status
  }

  /** Call `k` opens the latest unbroken run of calls that set `t` to `status`: every later call
      for `t` sets that status too, and the call for `t` before it, if any, does not. */
  ghost predicate OpensRun(calls: seq<Call>, t: string, status: string, k: int) {
    && 0 <= k < |calls| && Sets(calls[k], t, status)
    && (forall j :: k < j < |calls| && Touches(calls[j], t) ==> Sets(calls[j], t, status))
    && (forall j :: 0 <= j < k && Sets(calls[j], t, status) ==>
          exists i :: j < i < k && Touches(calls[i], t) && !Sets(calls[i], t, status))
  }

  /** A type is present exactly when its last call sets it. */
  ghost predicate LastSets(calls: seq<Call>, t: string, k: int) {
    && 0 <= k < |calls| && calls[k].Set? && calls[k].cond.kind == t
    && forall j :: k < j < |calls| ==> !Touches(calls[j], t)
  }

  lemma {:induction false} PresentIff(calls: seq<Call>, t: string)
    ensures t in MapRun(calls) <==> exists k :: LastSets(calls, t, k)
    ensures forall k :: LastSets(calls, t, k) ==>
      MapRun(calls)[t] == calls[k].cond.(transition := MapRun(calls)[t].transition)
  {
    var n := |calls|;
    if n > 0 {
      var before, last := calls[..n - 1], calls[n - 1];
      PresentIff(before, t);
      if Touches(last, t) {
        forall k | LastSets(calls, t, k) ensures k == n - 1 {
          if k < n - 1 { assert false; }
        }
        if last.Set? { assert LastSets(calls, t, n - 1); }
      } else {
        forall k ensures LastSets(calls, t, k) <==> LastSets(before, t, k) {
          if LastSets(before, t, k) {
            forall j | k < j < n ensures !Touches(calls[j], t) {
              assert j < n - 1 ==> !Touches(before[j], t);
            }
          }
          if LastSets(calls, t, k) {
            forall j | k < j < n - 1 ensures !Touches(before[j], t) {
              assert !Touches(calls[j], t);
            }
          }
        }
      }
    }
  }

  lemma OpensUnique(calls: seq<Call>, t: string, status: string, k: int, l: int)
    requires OpensRun(calls, t, status, k) && OpensRun(calls, t, status, l)
    ensures k == l
  {
  }

  /** The opening call stays the same while later calls only repeat the status. */
  lemma {:induction false} OpensExtended(before: seq<Call>, last: Call, t: string, status: string, k: int)
    requires OpensRun(before, t, status, k)
    requires Touches(last, t) ==> Sets(last, t, status)
    ensures OpensRun(before + [last], t, status, k)
  {
    var calls := before + [last];
    forall j | 0 <= j < k && Sets(calls[j], t, status)
      ensures exists i :: j < i < k && Touches(calls[i], t) && !Sets(calls[i], t, status)
    {
      assert Sets(before[j], t, status);
      var i :| j < i < k && Touches(before[i], t) && !Sets(before[i], t, status);
      assert Touches(calls[i], t) && !Sets(calls[i], t, status);
    }
  }

  lemma {:induction false} OpensFresh(before: seq<Call>, last: Call, t: string)
    requires last.Set? && last.cond.kind == t
    requires t in MapRun(before) ==> MapRun(before)[t].status != last.cond.status
    ensures OpensRun(before + [last], t, last.cond.status, |before|)
  {
    var calls, status := before + [last], last.cond.status;
    forall j | 0 <= j < |before| && Sets(calls[j], t, status)
      ensures exists i :: j < i < |before| && Touches(calls[i], t) && !Sets(calls[i], t, status)
    {
      var l := LastTouch(before, t, j);
      PresentIff(before, t);
      if before[l].Set? {
        assert LastSets(before, t, l);
      }
      assert Touches(calls[l], t) && !Sets(calls[l], t, status);
    }
  }

  ghost function LastTouch(calls: seq<Call>, t: string, j: nat): (l: nat)
    requires j < |calls| && Touches(calls[j], t)
    ensures j <= l < |calls| && Touches(calls[l], t)
    ensures forall i :: l < i < |calls| ==> !Touches(calls[i], t)
    decreases |calls| - j
  {
    if i :| j < i < |calls| && Touches(calls[i], t) then LastTouch(calls, t, i) else j
  }

  /** After every history, the transition time of a present type is the clock reading of the call
      that opened its current run; there is exactly one such call. */
  lemma {:induction false} TransitionTimeOpensRun(calls: seq<Call>, t: string)
    requires t in MapRun(calls)
    ensures exists k :: OpensRun(calls, t, MapRun(calls)[t].status, k)
    ensures forall k :: OpensRun(calls, t, MapRun(calls)[t].status, k) ==> calls[k].now == MapRun(calls)[t].transition
  {
    var k := Opening(calls, t);
    forall l | OpensRun(calls, t, MapRun(calls)[t].status, l) ensures l == k {
      OpensUnique(calls, t, MapRun(calls)[t].status, k, l);
    }
  }

  lemma {:induction false} Opening(calls: seq<Call>, t: string) returns (k: nat)
    requires t in MapRun(calls)
    ensures OpensRun(calls, t, MapRun(calls)[t].status, k) && calls[k].now == MapRun(calls)[t].transition
  {
    var n := |calls|;
    var before, last := calls[..n - 1], calls[n - 1];
    assert calls == before + [last];
    var now, was := MapRun(calls), MapRun(before);
    if t in was && was[t].status == now[t].status && !(last.Remove? && last.kind == t) {
      k := Opening(before, t);
      OpensExtended(before, last, t, was[t].status, k);
    } else {
      OpensFresh(before, last, t);
      k := n - 1;
    }
  }

  // ----- A clock that never runs backwards -----

  ghost predicate ClockRuns(calls: seq<Call>) {
    forall i, j :: 0 <= i < j < |calls| && calls[i].Set? && calls[j].Set? ==> calls[i].now <= calls[j].now
  }

  /** While a type stays present its transition time never decreases, over every history. */
  lemma {:induction false} TransitionNeverDecreases(calls: seq<Call>, i: nat, j: nat, t: string)
    requires ClockRuns(calls) && i <= j <= |calls|
    requires forall k :: i <= k <= j ==> t in MapRun(calls[..k])
    ensures MapRun(calls[..i])[t].transition <= MapRun(calls[..j])[t].transition
    decreases j - i
  {
    if i < j {
      TransitionNeverDecreases(calls, i, j - 1, t);
      var before, last := calls[..j - 1], calls[j - 1];
      assert calls[..j][..j - 1] == before && calls[..j][j - 1] == last;
      assert t in MapRun(before);
      var k := Opening(before, t);
      assert before[k] == calls[k];
      assert MapRun(calls[..j]) == MapStep(MapRun(before), last);
    }
  }

  // ----- NewConditions -----

  /** Building a list from conditions is the history of setting them, so the rules above hold. */
  lemma {:induction false} BuiltIsHistory(conds: seq<Condition>, nows: seq<int>)
    requires |conds| == |nows|
    ensures DistinctKinds(Built(conds, nows))
    ensures AsMap(Built(conds, nows)) == MapRun(SetAll(conds, nows))
  {
    if conds != [] {
      var n := |conds| - 1;
      BuiltIsHistory(conds[..n], nows[..n]);
      SetIsUpdate(Built(conds[..n], nows[..n]), conds[n], nows[n]);
      SetKeepsDistinct(Built(conds[..n], nows[..n]), conds[n], nows[n]);
      assert SetAll(conds, nows)[..n] == SetAll(conds[..n], nows[..n]);
    }
  }

  function SetAll(conds: seq<Condition>, nows: seq<int>): seq<Call>
    requires |conds| == |nows|
  {
    seq(|conds|, i requires 0 <= i < |conds| => Set(conds[i], nows[i]))
  }

  /** The last condition given for a type wins, but for its time. */
  lemma {:induction false} LastGivenWins(conds: seq<Condition>, nows: seq<int>, k: nat)
    requires |conds| == |nows| && k < |conds|
    requires forall j :: k < j < |conds| ==> conds[j].kind != conds[k].kind
    ensures var m := AsMap(Built(conds, nows));
      conds[k].kind in m && m[conds[k].kind] == conds[k].(transition := m[conds[k].kind].transition)
  {
    var calls := SetAll(conds, nows);
    BuiltIsHistory(conds, nows);
    PresentIff(calls, conds[k].kind);
    assert LastSets(calls, conds[k].kind, k);
  }
}
