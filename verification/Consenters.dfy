/** The raft consenter reconciliation as a plan: which single edits the three loops issue, and
    what a list of consenters becomes when they are applied one after another. */
module Consenters {
  import opened Collections
  import opened HostPort
  import opened ChannelModel

  /** One call on the live configuration. */
  datatype Edit = Remove(consenter: Consenter) | Add(consenter: Consenter)

  function Apply(live: seq<Consenter>, e: Edit): seq<Consenter> {
    match e
    case Remove(c) => Without(live, {c})
    case Add(c) => AddIfAbsent(live, c)
  }

  function ApplyAll(live: seq<Consenter>, edits: seq<Edit>): seq<Consenter>
    decreases |edits|
  {
    if edits == [] then live else ApplyAll(Apply(live, edits[0]), edits[1..])
  }

  function Addresses(consenters: seq<Consenter>): set<Address> {
    set c | c in consenters :: c.address
  }

  /** The first wanted consenter at an address, which is the one the inner loop stops at. */
  function FirstAt(wanted: seq<Consenter>, a: Address): Option<Consenter> {
    if wanted == [] then None
    else if wanted[0].address == a then Some(wanted[0])
    else FirstAt(wanted[1..], a)
  }

  /** Edits for one stored consenter: none, a removal, or a replacement. */
  function EditsFor(c: Consenter, wanted: seq<Consenter>): seq<Edit> {
    match FirstAt(wanted, c.address)
    case None => [Remove(c)]
    case Some(m) => if m == c then [] else [Remove(c), Add(m)]
  }

  function RemovalPlan(stored: seq<Consenter>, wanted: seq<Consenter>): seq<Edit> {
    if stored == [] then [] else EditsFor(stored[0], wanted) + RemovalPlan(stored[1..], wanted)
  }

  function AdditionPlan(stored: seq<Consenter>, wanted: seq<Consenter>): seq<Edit> {
    if wanted == [] then []
    else
      (if wanted[0].address in Addresses(stored) then [] else [Add(wanted[0])])
      + AdditionPlan(stored, wanted[1..])
  }

  /** Every edit of one reconcile, decided from the snapshot alone. */
  function Plan(stored: seq<Consenter>, wanted: seq<Consenter>): seq<Edit> {
    RemovalPlan(stored, wanted) + AdditionPlan(stored, wanted)
  }

  function Reconciled(stored: seq<Consenter>, wanted: seq<Consenter>): seq<Consenter> {
    ApplyAll(stored, Plan(stored, wanted))
  }

  // ----- Applying edits -----

  lemma {:induction false} ApplySplit(live: seq<Consenter>, a: seq<Edit>, b: seq<Edit>)
    ensures ApplyAll(live, a + b) == ApplyAll(ApplyAll(live, a), b)
    decreases |a|
  {
    if a == [] {
      assert a + b == b;
    } else {
      assert (a + b)[1..] == a[1..] + b;
      ApplySplit(Apply(live, a[0]), a[1..], b);
    }
  }

  lemma ApplyMembers(live: seq<Consenter>, e: Edit)
    ensures forall x :: x in Apply(live, e) <==> ((x in live && e != Remove(x)) || e == Add(x))
  {
    if e.Remove? {
      WithoutMembers(live, {e.consenter});
    }
  }

  /** An edit list that does not both drop and add `x` acts on `x` as a set operation. */
  lemma {:induction false} ApplyAllMember(live: seq<Consenter>, edits: seq<Edit>, x: Consenter)
    requires !(Remove(x) in edits && Add(x) in edits)
    ensures x in ApplyAll(live, edits) <==> (x in live && Remove(x) !in edits) || Add(x) in edits
    decreases |edits|
  {
    if edits != [] {
      var next := Apply(live, edits[0]);
      ApplyMembers(live, edits[0]);
      assert edits == [edits[0]] + edits[1..];
      ApplyAllMember(next, edits[1..], x);
    }
  }

  // ----- What the plan contains -----

  lemma {:induction false} FirstAtProperties(wanted: seq<Consenter>, a: Address)
    ensures FirstAt(wanted, a).None? <==> a !in Addresses(wanted)
    ensures FirstAt(wanted, a).Some? ==>
      FirstAt(wanted, a).value in wanted && FirstAt(wanted, a).value.address == a
  {
    if wanted != [] {
      FirstAtProperties(wanted[1..], a);
      assert wanted == [wanted[0]] + wanted[1..];
    }
  }

  lemma {:induction false} RemovalPlanEdits(stored: seq<Consenter>, wanted: seq<Consenter>, x: Consenter)
    ensures Remove(x) in RemovalPlan(stored, wanted)
      <==> x in stored && FirstAt(wanted, x.address) != Some(x)
    ensures Add(x) in RemovalPlan(stored, wanted)
      <==> FirstAt(wanted, x.address) == Some(x) && exists c :: c in stored && c.address == x.address && c != x
  {
    if stored != [] {
      var c := stored[0];
      RemovalPlanEdits(stored[1..], wanted, x);
      FirstAtProperties(wanted, c.address);
      assert stored == [c] + stored[1..];
      assert c in stored;
    }
  }

  lemma {:induction false} AdditionPlanEdits(stored: seq<Consenter>, wanted: seq<Consenter>, x: Consenter)
    ensures Remove(x) !in AdditionPlan(stored, wanted)
    ensures Add(x) in AdditionPlan(stored, wanted) <==> x in wanted && x.address !in Addresses(stored)
  {
    if wanted != [] {
      AdditionPlanEdits(stored, wanted[1..], x);
      assert wanted == [wanted[0]] + wanted[1..];
    }
  }

  /** Exactly who is left after a reconcile, for any stored and any wanted list: at an address
      that was stored, the first wanted consenter; at a new address, every wanted one. */
  lemma {:induction false} ReconciledMember(stored: seq<Consenter>, wanted: seq<Consenter>, x: Consenter)
    ensures x in Reconciled(stored, wanted)
      <==> if x.address in Addresses(stored) then FirstAt(wanted, x.address) == Some(x) else x in wanted
  {
    RemovalPlanEdits(stored, wanted, x);
    AdditionPlanEdits(stored, wanted, x);
    ApplyAllMember(stored, Plan(stored, wanted), x);
    FirstAtProperties(wanted, x.address);
    assert x in stored ==> x.address in Addresses(stored);
    if x.address in Addresses(stored) {
      var c :| c in stored && c.address == x.address;
    }
  }

  // ----- Distinct addresses -----

  lemma {:induction false} FirstAtDistinct(wanted: seq<Consenter>, x: Consenter)
    requires DistinctAddresses(wanted) && x in wanted
    ensures FirstAt(wanted, x.address) == Some(x)
  {
    if wanted[0] != x {
      assert wanted == [wanted[0]] + wanted[1..];
      var i :| 0 <= i < |wanted| && wanted[i] == x;
      assert wanted[0].address != wanted[i].address;
      FirstAtDistinct(wanted[1..], x);
    }
  }

  /** Every list passed through, the first and the last included, has distinct addresses. */
  ghost predicate DistinctThroughout(live: seq<Consenter>, edits: seq<Edit>)
    decreases |edits|
  {
    DistinctAddresses(live)
    && (edits != [] ==> DistinctThroughout(Apply(live, edits[0]), edits[1..]))
  }

  lemma {:induction false} ThroughoutSplit(live: seq<Consenter>, a: seq<Edit>, b: seq<Edit>)
    requires DistinctThroughout(live, a) && DistinctThroughout(ApplyAll(live, a), b)
    ensures DistinctThroughout(live, a + b)
    decreases |a|
  {
    if a == [] {
      assert a + b == b;
    } else {
      assert (a + b)[1..] == a[1..] + b;
      ThroughoutSplit(Apply(live, a[0]), a[1..], b);
    }
  }

  lemma {:induction false} ThroughoutPrefix(live: seq<Consenter>, edits: seq<Edit>, k: nat)
    requires DistinctThroughout(live, edits) && k <= |edits|
    ensures DistinctAddresses(ApplyAll(live, edits[..k]))
    decreases |edits|
  {
    if k > 0 {
      assert edits[..k][1..] == edits[1..][..k - 1];
      ThroughoutPrefix(Apply(live, edits[0]), edits[1..], k - 1);
    }
  }

  lemma {:induction false} WithoutAddresses(live: seq<Consenter>, drop: set<Consenter>)
    requires DistinctAddresses(live)
    ensures DistinctAddresses(Without(live, drop))
  {
    if live != [] {
      WithoutAddresses(live[1..], drop);
      WithoutMembers(live[1..], drop);
      var rest := Without(live[1..], drop);
      forall c | c in rest
        ensures c.address != live[0].address
      {
        var i :| 0 <= i < |live[1..]| && live[1..][i] == c;
        assert live[i + 1] == c;
      }
    }
  }

  lemma AddAddress(live: seq<Consenter>, c: Consenter)
    requires DistinctAddresses(live) && c.address !in Addresses(live)
    ensures DistinctAddresses(live + [c])
  {
    assert forall x :: x in live ==> x.address in Addresses(live);
  }

  lemma {:induction false} SameAddressSame(live: seq<Consenter>, c: Consenter, d: Consenter)
    requires DistinctAddresses(live) && c in live && d in live && c.address == d.address
    ensures c == d
  {
    var i :| 0 <= i < |live| && live[i] == c;
    var j :| 0 <= j < |live| && live[j] == d;
  }

  lemma {:induction false} TwoEdits(live: seq<Consenter>, e: Edit, f: Edit)
    ensures ApplyAll(live, [e, f]) == Apply(Apply(live, e), f)
    ensures forall d :: d in [e, f][1..] <==> d == f
    ensures [e, f][1..] == [f] && [f][1..] == []
  {
    assert [e, f][1..] == [f] && [f][1..] == [];
    assert ApplyAll(Apply(live, e), [f]) == ApplyAll(Apply(Apply(live, e), f), []);
  }

  /** The removal and replacement loop: `live` still holds every snapshot entry not yet visited,
      and holds an address only if the snapshot does. */
  lemma {:induction false} RemovalThroughout(live: seq<Consenter>, rest: seq<Consenter>, wanted: seq<Consenter>)
    requires DistinctAddresses(live) && DistinctAddresses(rest)
    requires forall c :: c in rest ==> c in live
    ensures DistinctThroughout(live, RemovalPlan(rest, wanted))
    ensures Addresses(ApplyAll(live, RemovalPlan(rest, wanted))) <= Addresses(live)
    decreases |rest|
  {
    if rest != [] {
      var c := rest[0];
      assert c in rest;
      var edits := EditsFor(c, wanted);
      var next := ApplyAll(live, edits);
      var without := Without(live, {c});
      WithoutAddresses(live, {c});
      WithoutMembers(live, {c});
      FirstAtProperties(wanted, c.address);
      forall d | d in without
        ensures d.address != c.address
      {
        if d.address == c.address { SameAddressSame(live, c, d); }
      }
      match FirstAt(wanted, c.address) {
        case None =>
          assert edits[1..] == [] && ApplyAll(without, []) == without;
          assert next == without;
        case Some(m) =>
          if m != c {
            TwoEdits(live, Remove(c), Add(m));
            assert m !in without;
            AddAddress(without, m);
            assert next == without + [m];
          }
      }
      assert DistinctThroughout(live, edits) && DistinctAddresses(next);
      assert rest == [c] + rest[1..];
      forall d | d in rest[1..]
        ensures d in next
      {
        var i :| 0 <= i < |rest[1..]| && rest[1..][i] == d;
        assert rest[i + 1] == d && d.address != c.address;
      }
      assert forall d :: d in next ==> d.address in Addresses(live) by {
        assert c in live;
      }
      RemovalThroughout(next, rest[1..], wanted);
      ApplySplit(live, edits, RemovalPlan(rest[1..], wanted));
      ThroughoutSplit(live, edits, RemovalPlan(rest[1..], wanted));
    }
  }

  /** The addition loop: nothing it adds shares an address with what is live. */
  lemma {:induction false} AdditionThroughout(live: seq<Consenter>, stored: seq<Consenter>, rest: seq<Consenter>)
    requires DistinctAddresses(live) && DistinctAddresses(rest)
    requires forall c :: c in rest && c.address !in Addresses(stored) ==> c.address !in Addresses(live)
    ensures DistinctThroughout(live, AdditionPlan(stored, rest))
    decreases |rest|
  {
    if rest != [] {
      var c := rest[0];
      assert c in rest;
      var next := if c.address in Addresses(stored) then live else live + [c];
      if c.address !in Addresses(stored) {
        assert c !in live;
        AddAddress(live, c);
      }
      forall d | d in rest[1..] && d.address !in Addresses(stored)
        ensures d.address !in Addresses(next)
      {
        var i :| 0 <= i < |rest[1..]| && rest[1..][i] == d;
        assert rest[i + 1] == d && d in rest && d.address != c.address;
      }
      AdditionThroughout(next, stored, rest[1..]);
      if c.address !in Addresses(stored) {
        assert AdditionPlan(stored, rest)[1..] == AdditionPlan(stored, rest[1..]);
      } else {
        assert AdditionPlan(stored, rest) == AdditionPlan(stored, rest[1..]);
      }
    }
  }

  /** With a host and port named once on either side, the loops leave exactly the wanted
      consenters, certificates included, and no edit ever duplicates an address. */
  lemma {:induction false} ReconciledIsWanted(stored: seq<Consenter>, wanted: seq<Consenter>)
    requires DistinctAddresses(stored) && DistinctAddresses(wanted)
    ensures multiset(Reconciled(stored, wanted)) == multiset(wanted)
    ensures DistinctAddresses(Reconciled(stored, wanted))
    ensures forall k :: 0 <= k <= |Plan(stored, wanted)| ==>
      DistinctAddresses(ApplyAll(stored, Plan(stored, wanted)[..k]))
  {
    var plan := Plan(stored, wanted);
    var middle := ApplyAll(stored, RemovalPlan(stored, wanted));
    RemovalThroughout(stored, stored, wanted);
    ThroughoutPrefix(stored, RemovalPlan(stored, wanted), |RemovalPlan(stored, wanted)|);
    assert RemovalPlan(stored, wanted)[..|RemovalPlan(stored, wanted)|] == RemovalPlan(stored, wanted);
    AdditionThroughout(middle, stored, wanted);
    ThroughoutSplit(stored, RemovalPlan(stored, wanted), AdditionPlan(stored, wanted));
    forall k | 0 <= k <= |plan|
      ensures DistinctAddresses(ApplyAll(stored, plan[..k]))
    {
      ThroughoutPrefix(stored, plan, k);
    }
    assert plan[..|plan|] == plan;
    var left := Reconciled(stored, wanted);
    forall x
      ensures x in left <==> x in wanted
    {
      ReconciledMember(stored, wanted, x);
      FirstAtProperties(wanted, x.address);
      if x in wanted { FirstAtDistinct(wanted, x); }
    }
    DistinctAddressesDistinct(left);
    DistinctAddressesDistinct(wanted);
    DistinctSameMembers(left, wanted);
  }

  lemma DistinctAddressesDistinct(s: seq<Consenter>)
    requires DistinctAddresses(s)
    ensures Distinct(s)
  {
    forall i, j | 0 <= i < j < |s|
      ensures s[i] != s[j]
    {
      assert s[i].address != s[j].address;
    }
  }

  /** The loops reach the wanted set exactly when each wanted consenter at an address stored before
      is the first wanted one there. */
  lemma {:induction false} ReconciledSetIff(stored: seq<Consenter>, wanted: seq<Consenter>)
    ensures ToSet(Reconciled(stored, wanted)) == ToSet(wanted) <==>
            forall x :: x in wanted && x.address in Addresses(stored) ==> FirstAt(wanted, x.address) == Some(x)
  {
    var left := Reconciled(stored, wanted);
    forall x
      ensures x in left <==>
        x in wanted && (x.address in Addresses(stored) ==> FirstAt(wanted, x.address) == Some(x))
    {
      ReconciledMember(stored, wanted, x);
      FirstAtProperties(wanted, x.address);
    }
    if ToSet(left) == ToSet(wanted) {
      forall x | x in wanted && x.address in Addresses(stored)
        ensures FirstAt(wanted, x.address) == Some(x)
      {
        assert x in ToSet(wanted);
      }
    }
  }

  /** A wanted list naming an address twice loses its second entry when the address was stored:
      the distinctness of the wanted list cannot be dropped. */
  lemma DuplicateAddressLosesConsenter(a: Address)
    ensures var x, y, z := Consenter(a, "x", "x"), Consenter(a, "y", "y"), Consenter(a, "z", "z");
      Reconciled([x], [y, z]) == [y]
  {
    var x, y, z := Consenter(a, "x", "x"), Consenter(a, "y", "y"), Consenter(a, "z", "z");
    assert x.clientTlsCert[0] != y.clientTlsCert[0];
    assert FirstAt([y, z], a) == Some(y);
    assert RemovalPlan([x][1..], [y, z]) == [];
    assert RemovalPlan([x], [y, z]) == [Remove(x), Add(y)];
    assert x in [x];
    assert [y, z][1..] == [z];
    assert AdditionPlan([x], [z][1..]) == [];
    assert AdditionPlan([x], [z]) == [];
    assert AdditionPlan([x], [y, z]) == [];
    assert Plan([x], [y, z]) == [Remove(x), Add(y)];
    TwoEdits([x], Remove(x), Add(y));
    assert Without([x], {x}) == [] by { assert [x][1..] == []; }
  }

  // ----- Convergence -----

  lemma {:induction false} NoEditsWhenSettled(stored: seq<Consenter>, wanted: seq<Consenter>)
    requires forall c :: c in stored ==> FirstAt(wanted, c.address) == Some(c)
    requires Addresses(wanted) <= Addresses(stored)
    ensures Reconciled(stored, wanted) == stored
  {
    NoRemovals(stored, wanted);
    NoAdditions(stored, wanted);
  }

  lemma {:induction false} NoRemovals(rest: seq<Consenter>, wanted: seq<Consenter>)
    requires forall c :: c in rest ==> FirstAt(wanted, c.address) == Some(c)
    ensures RemovalPlan(rest, wanted) == []
  {
    if rest != [] {
      assert rest[0] in rest;
      NoRemovals(rest[1..], wanted);
    }
  }

  lemma {:induction false} NoAdditions(stored: seq<Consenter>, rest: seq<Consenter>)
    requires Addresses(rest) <= Addresses(stored)
    ensures AdditionPlan(stored, rest) == []
  {
    if rest != [] {
      assert rest[0].address in Addresses(rest);
      assert forall c :: c in rest[1..] ==> c in rest && c.address in Addresses(rest);
      NoAdditions(stored, rest[1..]);
    }
  }

  /** Two reconciles towards any list reach a list that a third leaves untouched. */
  lemma {:induction false} ReconciledTwiceSettles(stored: seq<Consenter>, wanted: seq<Consenter>)
    ensures var second := Reconciled(Reconciled(stored, wanted), wanted);
      Reconciled(second, wanted) == second
  {
    var first := Reconciled(stored, wanted);
    var second := Reconciled(first, wanted);
    SameAddresses(stored, wanted);
    SameAddresses(first, wanted);
    forall c | c in second
      ensures FirstAt(wanted, c.address) == Some(c)
    {
      ReconciledMember(first, wanted, c);
      assert c.address in Addresses(second);
    }
    NoEditsWhenSettled(second, wanted);
  }

  lemma {:induction false} SameAddresses(stored: seq<Consenter>, wanted: seq<Consenter>)
    ensures Addresses(Reconciled(stored, wanted)) == Addresses(wanted)
  {
    var left := Reconciled(stored, wanted);
    forall a
      ensures a in Addresses(left) <==> a in Addresses(wanted)
    {
      FirstAtProperties(wanted, a);
      if a in Addresses(left) {
        var x :| x in left && x.address == a;
        ReconciledMember(stored, wanted, x);
      }
      if a in Addresses(wanted) {
        ReconciledMember(stored, wanted, FirstAt(wanted, a).value);
      }
    }
  }
}
