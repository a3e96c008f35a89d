/** Resetting an orderer organisation's endpoints: every stored endpoint is parsed and its
    printed form removed, then every wanted one is parsed and its printed form added. */
module Endpoints {
  import opened Collections
  import opened HostPort

  predicate AllParse(endpoints: seq<string>) {
    forall e :: e in endpoints ==> ParseEndpoint(e).Ok?
  }

  predicate AllCanonical(endpoints: seq<string>) {
    forall e :: e in endpoints ==> Canonical(e)
  }

  function Printed(e: string): string
    requires ParseEndpoint(e).Ok?
  {
    PrintAddress(ParseEndpoint(e).value)
  }

  function PrintedAll(endpoints: seq<string>): (r: seq<string>)
    requires AllParse(endpoints)
    ensures |r| == |endpoints| && forall i :: 0 <= i < |r| ==> r[i] == Printed(endpoints[i])
  {
    if endpoints == [] then []
    else
      assert endpoints[0] in endpoints;
      assert forall e :: e in endpoints[1..] ==> e in endpoints;
      [Printed(endpoints[0])] + PrintedAll(endpoints[1..])
  }

  /** Stored texts that no removal reaches. */
  function Leftover(endpoints: seq<string>): seq<string>
    requires AllParse(endpoints)
  {
    Without(endpoints, ToSet(PrintedAll(endpoints)))
  }

  function Reset(stored: seq<string>, wanted: seq<string>): Result<seq<string>> {
    if !AllParse(stored) || !AllParse(wanted) then Err("failed to parse endpoint")
    else Ok(AddAll(Leftover(stored), PrintedAll(wanted)))
  }

  lemma {:induction false} PrintedMember(endpoints: seq<string>, e: string)
    requires AllParse(endpoints) && ParseEndpoint(e).Ok?
    ensures e in PrintedAll(endpoints) ==> Canonical(e)
    ensures Canonical(e) && e in endpoints ==> e in PrintedAll(endpoints)
  {
    var printed := PrintedAll(endpoints);
    if e in printed {
      var i :| 0 <= i < |printed| && printed[i] == e;
      assert endpoints[i] in endpoints;
      PrintedIsCanonical(endpoints[i]);
    }
    if Canonical(e) && e in endpoints {
      var i :| 0 <= i < |endpoints| && endpoints[i] == e;
      assert printed[i] == e;
    }
  }

  /** Exactly what a reset leaves: the stored texts that were not canonical, and the printed
      form of every wanted one. */
  lemma {:induction false} ResetMembers(stored: seq<string>, wanted: seq<string>, e: string)
    requires AllParse(stored) && AllParse(wanted)
    ensures e in Reset(stored, wanted).value
      <==> (e in stored && !Canonical(e)) || e in PrintedAll(wanted)
    ensures e in Leftover(stored) <==> e in stored && !Canonical(e)
  {
    WithoutMembers(stored, ToSet(PrintedAll(stored)));
    AddAllMembers(Leftover(stored), PrintedAll(wanted));
    if e in stored {
      PrintedMember(stored, e);
    }
  }

  lemma {:induction false} PrintedAllCanonical(endpoints: seq<string>)
    requires AllCanonical(endpoints)
    ensures AllParse(endpoints) && PrintedAll(endpoints) == endpoints
  {
    if endpoints != [] {
      assert endpoints[0] in endpoints;
      assert forall e :: e in endpoints[1..] ==> e in endpoints;
      PrintedAllCanonical(endpoints[1..]);
    }
  }

  /** With canonical endpoints on both sides the wanted list is what remains, each once. */
  lemma {:induction false} ResetCanonical(stored: seq<string>, wanted: seq<string>)
    requires AllCanonical(stored) && AllCanonical(wanted)
    ensures Reset(stored, wanted) == Ok(AddAll([], wanted))
    ensures Distinct(AddAll([], wanted)) && ToSet(AddAll([], wanted)) == ToSet(wanted)
    ensures Distinct(wanted) ==> AddAll([], wanted) == wanted
  {
    PrintedAllCanonical(stored);
    PrintedAllCanonical(wanted);
    WithoutAll(stored, ToSet(stored));
    EachOnce(wanted);
  }

  lemma EachOnce<T>(s: seq<T>)
    ensures Distinct(AddAll([], s)) && ToSet(AddAll([], s)) == ToSet(s)
    ensures Distinct(s) ==> AddAll([], s) == s
  {
    var r := AddAll([], s);
    AddAllMembers([], s);
    assert ToSet(r) == ToSet(s);
    assert [] + s == s;
    if Distinct(s) { AddAllOfDistinct([], s); }
  }

  /** A text that is not canonical outlives every reset. */
  lemma {:induction false} NonCanonicalSurvives(stored: seq<string>, wanted: seq<string>, e: string)
    requires AllParse(stored) && AllParse(wanted) && e in stored && !Canonical(e)
    ensures e in Reset(stored, wanted).value
  {
    ResetMembers(stored, wanted, e);
  }

  /** As long as the result still parses, what no removal reaches stays what it was, so a second
      reset towards any list starts from the same leftovers. */
  lemma {:induction false} LeftoverStable(stored: seq<string>, wanted: seq<string>)
    requires Reset(stored, wanted).Ok? && AllParse(Reset(stored, wanted).value)
    ensures Leftover(Reset(stored, wanted).value) == Leftover(stored)
  {
    var kept := Leftover(stored);
    var printed := PrintedAll(wanted);
    var after := Reset(stored, wanted).value;
    forall e | e in kept
      ensures e !in printed && e !in ToSet(PrintedAll(after))
    {
      KeptIsNotPrinted(stored, wanted, e);
    }
    forall e | e in printed
      ensures e in ToSet(PrintedAll(after))
    {
      AddedIsPrinted(stored, wanted, e);
    }
    WithoutAdded(kept, printed, ToSet(PrintedAll(after)));
  }

  lemma {:induction false} KeptIsNotPrinted(stored: seq<string>, wanted: seq<string>, e: string)
    requires Reset(stored, wanted).Ok? && AllParse(Reset(stored, wanted).value)
    requires e in Leftover(stored)
    ensures e !in PrintedAll(wanted) && e !in PrintedAll(Reset(stored, wanted).value)
  {
    ResetMembers(stored, wanted, e);
    PrintedMember(wanted, e);
    PrintedMember(Reset(stored, wanted).value, e);
  }

  lemma {:induction false} AddedIsPrinted(stored: seq<string>, wanted: seq<string>, e: string)
    requires Reset(stored, wanted).Ok? && AllParse(Reset(stored, wanted).value)
    requires e in PrintedAll(wanted)
    ensures e in PrintedAll(Reset(stored, wanted).value)
  {
    var after := Reset(stored, wanted).value;
    ResetMembers(stored, wanted, e);
    assert ParseEndpoint(e).Ok?;
    PrintedMember(wanted, e);
    PrintedMember(after, e);
  }

  /** A second reset towards the same list changes nothing, unless it fails to parse. */
  lemma {:induction false} ResetSettles(stored: seq<string>, wanted: seq<string>)
    requires Reset(stored, wanted).Ok? && AllParse(Reset(stored, wanted).value)
    ensures Reset(Reset(stored, wanted).value, wanted) == Reset(stored, wanted)
  {
    LeftoverStable(stored, wanted);
  }

  /** The result parses again exactly when no wanted host holds a colon. */
  lemma {:induction false} ResetParses(stored: seq<string>, wanted: seq<string>)
    requires AllParse(stored) && AllParse(wanted)
    ensures AllParse(Reset(stored, wanted).value)
      <==> forall e :: e in wanted ==> ':' !in ParseEndpoint(e).value.host
  {
    var after := Reset(stored, wanted).value;
    var printed := PrintedAll(wanted);
    forall e
      ensures e in after <==> (e in stored && !Canonical(e)) || e in printed
    {
      ResetMembers(stored, wanted, e);
    }
    forall i | 0 <= i < |wanted|
      ensures printed[i] in after
      ensures ParseEndpoint(printed[i]).Ok? == (':' !in ParseEndpoint(wanted[i]).value.host)
    {
      assert wanted[i] in wanted && printed[i] in printed;
      PrintedIsCanonical(wanted[i]);
    }
    if forall e :: e in wanted ==> ':' !in ParseEndpoint(e).value.host {
      forall e | e in after
        ensures ParseEndpoint(e).Ok?
      {
        if e in printed {
          var i :| 0 <= i < |printed| && printed[i] == e;
          assert wanted[i] in wanted;
        }
      }
    }
    if AllParse(after) {
      forall e | e in wanted
        ensures ':' !in ParseEndpoint(e).value.host
      {
        var i :| 0 <= i < |wanted| && wanted[i] == e;
        assert ParseEndpoint(printed[i]).Ok?;
      }
    }
  }
}
