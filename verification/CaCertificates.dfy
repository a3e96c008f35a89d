/** When a certificate authority's TLS certificate is renewed: its DNS names are sorted and compared
    with the hosts of the specification. Addresses are what `ParseIp` makes of a host. */
module CaCertificates {
  import opened Collections
  import opened Sorting

  type Ip = seq<int>

  /** `net.ParseIP` on the hosts in play: no entry is a name it does not read as an address. */
  type Parser = map<string, Ip>

  datatype Certificate = Certificate(dnsNames: seq<string>, ipAddresses: seq<Ip>, serial: int)

  function NamesAmong(hosts: seq<string>, ips: Parser): seq<string> {
    if hosts == [] then []
    else
      var h := hosts[|hosts| - 1];
      NamesAmong(hosts[..|hosts| - 1], ips) + (if h in ips then [] else [h])
  }

  function AddressesAmong(hosts: seq<string>, ips: Parser): seq<Ip> {
    if hosts == [] then []
    else
      var h := hosts[|hosts| - 1];
      AddressesAmong(hosts[..|hosts| - 1], ips) + (if h in ips then [ips[h]] else [])
  }

  method GetDnsNames(hosts: seq<string>, ips: Parser) returns (dnsNames: seq<string>)
    ensures dnsNames == NamesAmong(hosts, ips)
    ensures forall h :: multiset(dnsNames)[h] == if h in ips then 0 else multiset(hosts)[h]
  {
    dnsNames := [];
    for i := 0 to |hosts|
      invariant dnsNames == NamesAmong(hosts[..i], ips)
    {
      assert hosts[..i + 1][..i] == hosts[..i];
      if hosts[i] !in ips { dnsNames := dnsNames + [hosts[i]]; }
    }
    assert hosts[..|hosts|] == hosts;
    forall h ensures multiset(dnsNames)[h] == if h in ips then 0 else multiset(hosts)[h] { NamesCounted(hosts, ips, h); }
  }

  /** Where a host stands for the address. */
  function Positions(hosts: seq<string>, ips: Parser, a: Ip): set<nat> {
    set i: nat | i < |hosts| && hosts[i] in ips && ips[hosts[i]] == a
  }

  /** One more host adds its own position, if it stands for the address. */
  lemma PositionsGrow(front: seq<string>, h: string, ips: Parser, a: Ip)
    ensures |Positions(front + [h], ips, a)| == |Positions(front, ips, a)| + if h in ips && ips[h] == a then 1 else 0
  {
    var n := |front|;
    var before, after := Positions(front, ips, a), Positions(front + [h], ips, a);
    assert n !in before;
    if h in ips && ips[h] == a {
      assert after == before + {n};
    } else {
      assert after == before;
    }
  }

  lemma AddressesGrow(front: seq<string>, h: string, ips: Parser, a: Ip)
    ensures multiset(AddressesAmong(front + [h], ips))[a] ==
            multiset(AddressesAmong(front, ips))[a] + if h in ips && ips[h] == a then 1 else 0
  {
    assert (front + [h])[..|front|] == front;
  }

  lemma {:induction false} AddressesCounted(hosts: seq<string>, ips: Parser, a: Ip)
    ensures multiset(AddressesAmong(hosts, ips))[a] == |Positions(hosts, ips, a)|
  {
    if hosts != [] {
      var front, h := hosts[..|hosts| - 1], hosts[|hosts| - 1];
      assert hosts == front + [h];
      AddressesCounted(front, ips, a);
      PositionsGrow(front, h, ips, a);
      AddressesGrow(front, h, ips, a);
    }
  }

  /** Every address as often as hosts stand for it, and the loopback address once more. */
  ghost predicate Counted(addresses: seq<Ip>, hosts: seq<string>, ips: Parser, loopback: Ip) {
    forall a :: multiset(addresses)[a] == |Positions(hosts, ips, a)| + if a == loopback then 1 else 0
  }

  lemma AllCounted(hosts: seq<string>, ips: Parser, loopback: Ip)
    ensures Counted([loopback] + AddressesAmong(hosts, ips), hosts, ips, loopback)
  {
    var addresses := AddressesAmong(hosts, ips);
    assert multiset([loopback] + addresses) == multiset{loopback} + multiset(addresses);
    forall a
      ensures multiset([loopback] + addresses)[a] == |Positions(hosts, ips, a)| + if a == loopback then 1 else 0
    {
      AddressesCounted(hosts, ips, a);
    }
  }

  /** The loopback address first, and every address as often as hosts stand for it. */
  method GetIpAddresses(hosts: seq<string>, ips: Parser, loopback: Ip) returns (ipAddresses: seq<Ip>)
    ensures ipAddresses == [loopback] + AddressesAmong(hosts, ips)
    ensures Counted(ipAddresses, hosts, ips, loopback)
  {
    ipAddresses := [loopback];
    for i := 0 to |hosts|
      invariant ipAddresses == [loopback] + AddressesAmong(hosts[..i], ips)
    {
      assert hosts[..i + 1][..i] == hosts[..i];
      if hosts[i] in ips { ipAddresses := ipAddresses + [ips[hosts[i]]]; }
    }
    assert hosts[..|hosts|] == hosts;
    AllCounted(hosts, ips, loopback);
  }

  lemma {:induction false} NamesCounted(hosts: seq<string>, ips: Parser, h: string)
    ensures multiset(NamesAmong(hosts, ips))[h] == if h in ips then 0 else multiset(hosts)[h]
  {
    if hosts != [] {
      var front, last := hosts[..|hosts| - 1], hosts[|hosts| - 1];
      NamesCounted(front, ips, h);
      assert hosts == front + [last];
      assert multiset(hosts)[h] == multiset(front)[h] + if last == h then 1 else 0;
    }
  }

  /** `sort.Strings`, in place: the array becomes a sorted permutation of itself. */
  method SortStrings(a: array<string>)
    modifies a
    ensures multiset(a[..]) == multiset(old(a[..])) && Sorted(a[..])
  {
    var sorted := SortedOf(a[..]);
    assert |sorted| == |multiset(sorted)| == |multiset(a[..])| == a.Length;
    forall i | 0 <= i < a.Length {
      a[i] := sorted[i];
    }
    assert a[..] == sorted;
  }

  /** The test sorts the names of the certificate in place and asks for renewal exactly when they
      differ, counted, from the hosts that are no addresses. The addresses do not matter. */
  method DoesCertNeedToBeRenewed(certNames: array<string>, hosts: seq<string>, ips: Parser) returns (renew: bool)
    modifies certNames
    ensures renew <==> multiset(old(certNames[..])) != multiset(NamesAmong(hosts, ips))
    ensures multiset(certNames[..]) == multiset(old(certNames[..])) && Sorted(certNames[..])
  {
    var names := GetDnsNames(hosts, ips);
    var expected := new string[|names|](i requires 0 <= i < |names| => names[i]);
    assert expected[..] == names;
    SortStrings(certNames);
    SortStrings(expected);
    renew := certNames[..] != expected[..];
    if !renew {
      assert certNames[..] == expected[..];
    } else if multiset(certNames[..]) == multiset(expected[..]) {
      SortedUnique(certNames[..], expected[..]);
    }
  }

  // ----- The TLS certificate the chart gets -----

  predicate AsksForRenewal(cert: Certificate, hosts: seq<string>, ips: Parser) {
    multiset(cert.dnsNames) != multiset(NamesAmong(hosts, ips))
  }

  /** The names are the hosts that are no addresses, each as often. */
  ghost predicate SameNames(names: seq<string>, hosts: seq<string>, ips: Parser) {
    forall h :: multiset(names)[h] == if h in ips then 0 else multiset(hosts)[h]
  }

  lemma NamesAreSame(hosts: seq<string>, ips: Parser)
    ensures SameNames(NamesAmong(hosts, ips), hosts, ips)
  {
    forall h ensures multiset(NamesAmong(hosts, ips))[h] == if h in ips then 0 else multiset(hosts)[h] {
      NamesCounted(hosts, ips, h);
    }
  }

  lemma SameNamesAsIff(names: seq<string>, hosts: seq<string>, ips: Parser)
    ensures SameNames(names, hosts, ips) <==> multiset(names) == multiset(NamesAmong(hosts, ips))
  {
    NamesAreSame(hosts, ips);
    if SameNames(names, hosts, ips) {
      forall h ensures multiset(names)[h] == multiset(NamesAmong(hosts, ips))[h] {
        NamesCounted(hosts, ips, h);
      }
    }
  }

  function Issued(hosts: seq<string>, ips: Parser, loopback: Ip, serial: int): Certificate {
    Certificate(NamesAmong(hosts, ips), [loopback] + AddressesAmong(hosts, ips), serial)
  }

  function TlsCertificate(existing: Option<Certificate>, hosts: seq<string>, ips: Parser, loopback: Ip,
                          serial: Option<int>): Result<Certificate>
  {
    if existing.Some? && !AsksForRenewal(existing.value, hosts, ips) then Ok(existing.value)
    else if serial.None? then Err("cannot generate certificate")
    else Ok(Issued(hosts, ips, loopback, serial.value))
  }

  /** An existing certificate with the right names is kept. Otherwise one is issued, if it can be, with the
      random serial number, the right names, and the addresses of the hosts besides the loopback one. */
  ghost predicate IsWanted(existing: Option<Certificate>, hosts: seq<string>, ips: Parser, loopback: Ip,
                           serial: Option<int>, r: Result<Certificate>)
  {
    if existing.Some? && SameNames(existing.value.dnsNames, hosts, ips) then r == Ok(existing.value)
    else
      && (r.Ok? <==> serial.Some?)
      && (r.Ok? ==> r.value.serial == serial.value && SameNames(r.value.dnsNames, hosts, ips)
                    && Counted(r.value.ipAddresses, hosts, ips, loopback))
  }

  lemma {:induction false} TlsCertificateIsWanted(existing: Option<Certificate>, hosts: seq<string>, ips: Parser,
                                                  loopback: Ip, serial: Option<int>)
    ensures IsWanted(existing, hosts, ips, loopback, serial, TlsCertificate(existing, hosts, ips, loopback, serial))
  {
    AllCounted(hosts, ips, loopback);
    NamesAreSame(hosts, ips);
    if existing.Some? { SameNamesAsIff(existing.value.dnsNames, hosts, ips); }
  }

  /** Keeps the existing certificate, or issues one from the specification; `serial` is the random
      serial number, `None` when no key or certificate can be generated. */
  method GetTlsCertificate(existing: Option<Certificate>, hosts: seq<string>, ips: Parser, loopback: Ip,
                           serial: Option<int>) returns (r: Result<Certificate>)
    ensures r == TlsCertificate(existing, hosts, ips, loopback, serial)
    ensures IsWanted(existing, hosts, ips, loopback, serial, r)
  {
    TlsCertificateIsWanted(existing, hosts, ips, loopback, serial);
    if existing.Some? {
      var cert := existing.value;
      var names := new string[|cert.dnsNames|](i requires 0 <= i < |cert.dnsNames| => cert.dnsNames[i]);
      assert names[..] == cert.dnsNames;
      var renew := DoesCertNeedToBeRenewed(names, hosts, ips);
      if !renew { return Ok(cert); }
    }
    if serial.None? { return Err("cannot generate certificate"); }
    var dnsNames := GetDnsNames(hosts, ips);
    var addresses := GetIpAddresses(hosts, ips, loopback);
    return Ok(Certificate(dnsNames, addresses, serial.value));
  }

  /** The certificate after a series of reconciles of one specification; `serials` are the random
      numbers they would use. */
  function Run(existing: Option<Certificate>, hosts: seq<string>, ips: Parser, loopback: Ip,
               serials: seq<Option<int>>): Option<Certificate>
  {
    if serials == [] then existing
    else
      var before := Run(existing, hosts, ips, loopback, serials[..|serials| - 1]);
      match TlsCertificate(before, hosts, ips, loopback, serials[|serials| - 1])
      case Ok(cert) => Some(cert)
      case Err(_) => before
  }

  /** Once a reconcile has succeeded the certificate is never issued again for the specification. */
  lemma {:induction false} IssuedAtMostOnce(existing: Option<Certificate>, hosts: seq<string>, ips: Parser,
                                            loopback: Ip, serials: seq<Option<int>>, i: nat)
    requires i < |serials|
    requires TlsCertificate(Run(existing, hosts, ips, loopback, serials[..i]), hosts, ips, loopback, serials[i]).Ok?
    ensures Run(existing, hosts, ips, loopback, serials) == Run(existing, hosts, ips, loopback, serials[..i + 1])
    ensures var c := Run(existing, hosts, ips, loopback, serials);
      c.Some? && !AsksForRenewal(c.value, hosts, ips)
    decreases |serials|
  {
    var front := serials[..|serials| - 1];
    if i == |front| {
      assert serials[..i + 1] == serials && serials[..i] == front;
    } else {
      assert front[..i] == serials[..i] && front[..i + 1] == serials[..i + 1];
      IssuedAtMostOnce(existing, hosts, ips, loopback, front, i);
    }
  }

  /** A host list that is changed keeps the certificate exactly when every host that is no address
      occurs as often as before; a change of addresses alone is never carried out. */
  lemma {:induction false} ChangedHostsKeepIff(hosts: seq<string>, changed: seq<string>, ips: Parser, loopback: Ip,
                                               serial: int, other: Option<int>)
    requires other != Some(serial)
    ensures TlsCertificate(Some(Issued(hosts, ips, loopback, serial)), changed, ips, loopback, other) ==
            Ok(Issued(hosts, ips, loopback, serial)) <==>
            forall h :: h !in ips ==> multiset(hosts)[h] == multiset(changed)[h]
  {
    SameNamesIff(hosts, changed, ips);
  }

  lemma {:induction false} SameNamesIff(a: seq<string>, b: seq<string>, ips: Parser)
    ensures multiset(NamesAmong(a, ips)) == multiset(NamesAmong(b, ips)) <==>
            forall h :: h !in ips ==> multiset(a)[h] == multiset(b)[h]
  {
    var x, y := multiset(NamesAmong(a, ips)), multiset(NamesAmong(b, ips));
    if forall h :: h !in ips ==> multiset(a)[h] == multiset(b)[h] {
      forall h ensures x[h] == y[h] {
        NamesCounted(a, ips, h);
        NamesCounted(b, ips, h);
      }
    } else {
      var h :| h !in ips && multiset(a)[h] != multiset(b)[h];
      NamesCounted(a, ips, h);
      NamesCounted(b, ips, h);
    }
  }
}
