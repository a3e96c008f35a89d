/** When the order in which the per-organisation map is iterated shows in the network configuration,
    and when every peer it names under an organisation is also listed. */
module NetworkOrder {
  import opened NetworkConfig
  import opened Collections

  // ----- Runs of turns -----

  function KeysOf(order: Entries): set<string> {
    set e | e in order :: e.0
  }

  /** All entries come from the map, each key at most once. */
  ghost predicate Part(order: Entries, config: Config) {
    DistinctKeys(order) && forall e :: e in order ==> e.0 in config && config[e.0] == e.1
  }

  lemma FrontPart(order: Entries, config: Config)
    requires order != [] && Part(order, config)
    ensures Part(order[..|order| - 1], config)
    ensures var last := order[|order| - 1];
      && last.0 in config && config[last.0] == last.1
      && last.0 !in KeysOf(order[..|order| - 1]) && KeysOf(order) == KeysOf(order[..|order| - 1]) + {last.0}
  {
    var front, last := order[..|order| - 1], order[|order| - 1];
    assert order == front + [last];
    assert last in order;
    forall e | e in front ensures e in order && e.0 != last.0 {
      var i :| 0 <= i < |front| && front[i] == e;
      assert order[i].0 != order[|order| - 1].0;
    }
  }

  lemma {:induction false} TurnsSome(peers: seq<Peer>, orgs: Orgs, order: Entries, config: Config)
    requires Part(order, config) && KeysPresent(orgs, config)
    ensures Turns(peers, orgs, order).Some? && Turns(peers, orgs, order).value.1.Keys == orgs.Keys
  {
    if order != [] {
      FrontPart(order, config);
      TurnsSome(peers, orgs, order[..|order| - 1], config);
    }
  }

  lemma {:induction false} TurnsConcat(peers: seq<Peer>, orgs: Orgs, a: Entries, b: Entries)
    requires Turns(peers, orgs, a).Some?
    ensures Turns(peers, orgs, a + b) == Turns(Turns(peers, orgs, a).value.0, Turns(peers, orgs, a).value.1, b)
    decreases |b|
  {
    if b == [] {
      assert a + b == a;
    } else {
      assert (a + b)[..|a + b| - 1] == a + b[..|b| - 1];
      TurnsConcat(peers, orgs, a, b[..|b| - 1]);
    }
  }

  /** Later turns leave an organisation that is not theirs. */
  lemma {:induction false} LaterTurnsKeep(peers: seq<Peer>, orgs: Orgs, order: Entries, m: string)
    requires Turns(peers, orgs, order).Some? && m in orgs && m !in KeysOf(order)
    ensures m in Turns(peers, orgs, order).value.1 && Turns(peers, orgs, order).value.1[m] == orgs[m]
  {
    if order != [] {
      var front, last := order[..|order| - 1], order[|order| - 1];
      assert order == front + [last];
      assert last in order && forall e :: e in front ==> e in order;
      LaterTurnsKeep(peers, orgs, front, m);
    }
  }

  lemma {:induction false} SomeOrder(config: Config) returns (order: Entries)
    ensures Iterates(order, config)
    decreases |config|
  {
    if config == map[] { return []; }
    var m :| m in config;
    assert |config - {m}| < |config| by { assert config.Keys == (config - {m}).Keys + {m}; }
    order := SomeOrder(config - {m});
    order := FirstThen(m, config, order);
  }

  lemma FirstThen(m: string, config: Config, rest: Entries) returns (order: Entries)
    requires m in config && Iterates(rest, config - {m})
    ensures order == [(m, config[m])] + rest && Iterates(order, config)
  {
    order := [(m, config[m])] + rest;
    forall i, j | 0 <= i < j < |order| ensures order[i].0 != order[j].0 {
      assert order[j] == rest[j - 1] && rest[j - 1] in rest;
      if i > 0 { assert order[i] == rest[i - 1]; }
    }
  }

  lemma IteratesParts(order: Entries, config: Config)
    requires Iterates(order, config)
    ensures Part(order, config) && KeysOf(order) == config.Keys
  {
    forall m | m in config ensures m in KeysOf(order) {
      assert (m, config[m]) in order;
    }
  }

  // ----- Counting -----

  lemma {:induction false} FilterCount(s: seq<Peer>, keep: Peer -> bool, p: Peer)
    ensures multiset(Filter(s, keep))[p] == if keep(p) then multiset(s)[p] else 0
  {
    if s != [] {
      FilterCount(s[..|s| - 1], keep, p);
      assert s == s[..|s| - 1] + [s[|s| - 1]];
    }
  }

  lemma ConcatCount(a: seq<Peer>, b: seq<Peer>, p: Peer)
    ensures multiset(a + b)[p] == multiset(a)[p] + multiset(b)[p]
  {
  }

  lemma RefsGrow(refs: seq<PeerRef>, r: PeerRef)
    requires refs != []
    ensures multiset(refs)[r] == multiset(refs[..|refs| - 1])[r] + if refs[|refs| - 1] == r then 1 else 0
  {
    assert refs == refs[..|refs| - 1] + [refs[|refs| - 1]];
  }

  /** How often a list names a peer, times how often the peer is there. */
  function Picked(refs: seq<PeerRef>, peers: seq<Peer>, p: Peer): nat {
    if p.replicas > 0 then multiset(refs)[RefOf(p)] * multiset(peers)[p] else 0
  }

  lemma PickedGrows(refs: seq<PeerRef>, peers: seq<Peer>, p: Peer)
    requires refs != []
    ensures Picked(refs, peers, p) ==
            Picked(refs[..|refs| - 1], peers, p) + if Named(refs[|refs| - 1])(p) then multiset(peers)[p] else 0
  {
    RefsGrow(refs, RefOf(p));
    Distribute(multiset(refs[..|refs| - 1])[RefOf(p)], 1, multiset(peers)[p]);
  }

  lemma {:induction false} SelectCount(peers: seq<Peer>, refs: seq<PeerRef>, p: Peer)
    ensures multiset(Select(peers, refs))[p] == Picked(refs, peers, p)
  {
    if refs != [] {
      var front, last := refs[..|refs| - 1], refs[|refs| - 1];
      SelectCount(peers, front, p);
      ConcatCount(Select(peers, front), Filter(peers, Named(last)), p);
      FilterCount(peers, Named(last), p);
      PickedGrows(refs, peers, p);
    }
  }

  lemma Distribute(a: nat, b: nat, c: nat)
    ensures (a + b) * c == a * c + b * c == c * (a + b)
  {
  }

  lemma Swap(a: nat, b: nat, c: nat)
    ensures a * b * c == a * c * b
  {
  }

  /** By how much the turn of an entry multiplies a peer in the top-level list. */
  function Weight(e: (string, seq<PeerRef>), p: Peer): nat {
    if e.1 == [] then 1
    else if p.replicas <= 0 then 0
    else (if p.mspId == e.0 then 0 else 1) + multiset(e.1)[RefOf(p)]
  }

  lemma WeightOnce(c: nat, e: (string, seq<PeerRef>), p: Peer, peers: seq<Peer>)
    requires e.1 != [] && c == multiset(peers)[p]
    ensures (if Elsewhere(e.0)(p) then c else 0) + Picked(e.1, peers, p) == c * Weight(e, p)
  {
    Distribute(if p.mspId == e.0 then 0 else 1, multiset(e.1)[RefOf(p)], c);
  }

  lemma TurnCount(peers: seq<Peer>, m: string, refs: seq<PeerRef>, p: Peer)
    requires refs != []
    ensures multiset(Filter(peers, Elsewhere(m)) + Select(peers, refs))[p] == multiset(peers)[p] * Weight((m, refs), p)
  {
    ConcatCount(Filter(peers, Elsewhere(m)), Select(peers, refs), p);
    FilterCount(peers, Elsewhere(m), p);
    SelectCount(peers, refs, p);
    WeightOnce(multiset(peers)[p], (m, refs), p, peers);
  }

  function Product(order: Entries, p: Peer): nat {
    if order == [] then 1 else Product(order[..|order| - 1], p) * Weight(order[|order| - 1], p)
  }

  lemma TurnsGrow(peers: seq<Peer>, orgs: Orgs, order: Entries, p: Peer)
    requires order != [] && Turns(peers, orgs, order).Some?
    ensures Turns(peers, orgs, order[..|order| - 1]).Some?
    ensures multiset(Turns(peers, orgs, order).value.0)[p] ==
            multiset(Turns(peers, orgs, order[..|order| - 1]).value.0)[p] * Weight(order[|order| - 1], p)
  {
    var last := order[|order| - 1];
    if last.1 != [] {
      TurnCount(Turns(peers, orgs, order[..|order| - 1]).value.0, last.0, last.1, p);
      assert last == (last.0, last.1);
    }
  }

  lemma {:induction false} TurnsCount(peers: seq<Peer>, orgs: Orgs, order: Entries, p: Peer)
    requires Turns(peers, orgs, order).Some?
    ensures multiset(Turns(peers, orgs, order).value.0)[p] == multiset(peers)[p] * Product(order, p)
  {
    if order != [] {
      var front := order[..|order| - 1];
      TurnsGrow(peers, orgs, order, p);
      TurnsCount(peers, orgs, front, p);
      Associate(multiset(peers)[p], Product(front, p), Weight(order[|order| - 1], p));
    }
  }

  lemma Associate(a: nat, b: nat, c: nat)
    ensures a * b * c == a * (b * c)
  {
  }

  function Drop(order: Entries, i: nat): Entries
    requires i < |order|
  {
    order[..i] + order[i + 1..]
  }

  lemma DropFront(order: Entries, i: nat)
    requires i < |order| - 1
    ensures var n := |order| - 1;
      var rest := Drop(order, i);
      |rest| == n && rest[..n - 1] == Drop(order[..n], i) && rest[n - 1] == order[n] && order[..n][i] == order[i]
  {
  }

  lemma {:induction false} ProductDrop(order: Entries, i: nat, p: Peer)
    requires i < |order|
    ensures Product(order, p) == Product(Drop(order, i), p) * Weight(order[i], p)
    decreases |order|
  {
    var n := |order| - 1;
    if i == n {
      assert Drop(order, i) == order[..n];
    } else {
      var front := order[..n];
      ProductDrop(front, i, p);
      DropFront(order, i);
      Swap(Product(Drop(front, i), p), Weight(order[i], p), Weight(order[n], p));
    }
  }

  lemma DropIterates(order: Entries, i: nat, config: Config)
    requires i < |order| && Iterates(order, config)
    ensures order[i].0 in config && Iterates(Drop(order, i), config - {order[i].0})
  {
    assert order[i] in order;
    var rest := Drop(order, i);
    forall j, k | 0 <= j < k < |rest| ensures rest[j].0 != rest[k].0 {
      assert rest[j] == order[if j < i then j else j + 1] && rest[k] == order[if k < i then k else k + 1];
    }
    forall e ensures e in rest <==> e in order && e.0 != order[i].0 {
      if e in rest {
        var j :| 0 <= j < |rest| && rest[j] == e;
        var k := if j < i then j else j + 1;
        assert order[k] == e && k != i;
        assert order[if k < i then k else i].0 != order[if k < i then i else k].0;
      }
      if e in order && e.0 != order[i].0 {
        var k :| 0 <= k < |order| && order[k] == e;
        assert rest[if k < i then k else k - 1] == e;
      }
    }
  }

  lemma HeadIn(b: Entries)
    ensures b == [] || b[0] in b
  {
  }

  lemma {:induction false} ProductSame(a: Entries, b: Entries, config: Config, p: Peer)
    requires Iterates(a, config) && Iterates(b, config)
    ensures Product(a, p) == Product(b, p)
    decreases |a|
  {
    if a == [] {
      HeadIn(b);
    } else {
      var e := a[0];
      assert e in a;
      assert e in b;
      var i :| 0 <= i < |b| && b[i] == e;
      ProductDrop(a, 0, p);
      ProductDrop(b, i, p);
      DropIterates(a, 0, config);
      DropIterates(b, i, config);
      ProductSame(Drop(a, 0), Drop(b, i), config - {e.0}, p);
    }
  }

  /** The top-level list never depends on the order: whatever is listed where, every iteration order
      gives the same peers, counted. */
  lemma {:induction false} PeersNeverDependOnOrder(peers: seq<Peer>, orgs: Orgs, config: Config, a: Entries, b: Entries)
    requires Iterates(a, config) && Iterates(b, config) && KeysPresent(orgs, config)
    ensures Turns(peers, orgs, a).Some? && Turns(peers, orgs, b).Some?
    ensures multiset(Turns(peers, orgs, a).value.0) == multiset(Turns(peers, orgs, b).value.0)
  {
    IteratesParts(a, config);
    IteratesParts(b, config);
    TurnsSome(peers, orgs, a, config);
    TurnsSome(peers, orgs, b, config);
    var x, y := multiset(Turns(peers, orgs, a).value.0), multiset(Turns(peers, orgs, b).value.0);
    forall p ensures x[p] == y[p] {
      TurnsCount(peers, orgs, a, p);
      TurnsCount(peers, orgs, b, p);
      ProductSame(a, b, config, p);
    }
  }

  // ----- In which order -----

  lemma FilterOne(p: Peer, keep: Peer -> bool)
    ensures Filter([p], keep) == if keep(p) then [p] else []
  {
    var none: seq<Peer> := [];
    assert [p][..0] == none && Filter(none, keep) == none;
    assert none + [p] == [p] && none + none == none;
  }

  lemma SelectOne(peers: seq<Peer>, ref: PeerRef)
    ensures Select(peers, [ref]) == Filter(peers, Named(ref))
  {
    assert [ref][..0] == [];
    assert Select(peers, []) + Filter(peers, Named(ref)) == Filter(peers, Named(ref));
  }

  /** The selected peers come in the order of the list, */
  lemma {:induction false} SelectInOrder(peers: seq<Peer>, a: seq<PeerRef>, b: seq<PeerRef>)
    ensures Select(peers, a + b) == Select(peers, a) + Select(peers, b)
    decreases |b|
  {
    if b == [] {
      assert a + b == a && Select(peers, a) + [] == Select(peers, a);
    } else {
      assert (a + b)[..|a + b| - 1] == a + b[..|b| - 1];
      SelectInOrder(peers, a, b[..|b| - 1]);
    }
  }

  /** and those of one reference in their own order. */
  lemma {:induction false} SelectOneInOrder(peers: seq<Peer>, more: seq<Peer>, p: Peer, ref: PeerRef)
    ensures Select(peers + more, [ref]) == Select(peers, [ref]) + Select(more, [ref])
    ensures Select([p], [ref]) == if p.name == ref.name && p.namespace == ref.namespace && p.replicas > 0 then [p] else []
  {
    SelectOne(peers + more, ref);
    SelectOne(peers, ref);
    SelectOne(more, ref);
    SelectOne([p], ref);
    FilterConcat(peers, more, Named(ref));
    FilterOne(p, Named(ref));
  }

  /** The turn of an organisation lists its selected peers last, and the others before them in their
      order. */
  lemma {:induction false} TurnInOrder(peers: seq<Peer>, orgs: Orgs, m: string, refs: seq<PeerRef>)
    requires refs != [] && m in orgs
    ensures var r := Turn(peers, orgs, m, refs);
      && r.Some? && m in r.value.1
      && (var (ps, selected) := (r.value.0, r.value.1[m].peers);
          |selected| <= |ps| && ps[|ps| - |selected|..] == selected && ps[..|ps| - |selected|] == Others(peers, m))
  {
  }

  lemma {:induction false} OthersInOrder(peers: seq<Peer>, more: seq<Peer>, p: Peer, m: string)
    ensures Others(peers + more, m) == Others(peers, m) + Others(more, m)
    ensures Others([p], m) == if p.mspId != m && p.replicas > 0 then [p] else []
  {
    FilterConcat(peers, more, Elsewhere(m));
    FilterOne(p, Elsewhere(m));
  }

  /** The scaled-up peers of other organisations. */
  function Others(peers: seq<Peer>, m: string): seq<Peer> {
    Filter(peers, Elsewhere(m))
  }

  // ----- What the filters pass -----

  /** The top-level list before the turns, peer by peer: in a listed namespace if any is listed, and, if
      any organisation is listed, of a listed one and scaled up. */
  lemma ListedCount(spec: Spec, clusterPeers: seq<Peer>, p: Peer)
    ensures multiset(Listed(spec, clusterPeers))[p] ==
            if (spec.namespaces != [] ==> p.namespace in spec.namespaces)
               && (spec.organizations != [] ==> p.mspId in spec.organizations && p.replicas > 0)
            then multiset(clusterPeers)[p] else 0
  {
    FilterCount(clusterPeers, TopLevel(spec), p);
  }

  /** The organisation's peers of the cluster in a listed namespace, scaled up or not. */
  ghost predicate HoldsPeers(held: seq<Peer>, spec: Spec, clusterPeers: seq<Peer>, m: string) {
    forall p :: multiset(held)[p] ==
      (if p.mspId == m && (spec.namespaces != [] ==> p.namespace in spec.namespaces) then multiset(clusterPeers)[p] else 0)
  }

  /** Its orderer nodes in a listed namespace. */
  ghost predicate HoldsNodes(held: seq<OrdererNode>, spec: Spec, nodes: seq<OrdererNode>, m: string) {
    forall o :: multiset(held)[o] ==
      (if o.mspId == m && (spec.namespaces != [] ==> o.namespace in spec.namespaces) then multiset(nodes)[o] else 0)
  }

  lemma {:induction false} FilteredHold(spec: Spec, clusterPeers: seq<Peer>, m: string)
    requires m in Grouped(clusterPeers) && InOrganizations(spec, m)
    ensures HoldsPeers(Filter(Grouped(clusterPeers)[m], UnderOrg(spec)), spec, clusterPeers, m)
  {
    GroupedAt(clusterPeers, m);
    var peers := Grouped(clusterPeers)[m];
    forall p: Peer
      ensures multiset(Filter(peers, UnderOrg(spec)))[p] ==
        (if p.mspId == m && (spec.namespaces != [] ==> p.namespace in spec.namespaces) then multiset(clusterPeers)[p] else 0)
    {
      FilterCount(clusterPeers, OfOrg(m), p);
      FilterCount(peers, UnderOrg(spec), p);
    }
  }

  lemma {:induction false} NodesHold(spec: Spec, nodes: seq<OrdererNode>, m: string)
    requires InOrganizations(spec, m)
    ensures HoldsNodes(NodesOf(spec, nodes, m), spec, nodes, m)
  {
    forall o: OrdererNode
      ensures multiset(NodesOf(spec, nodes, m))[o] ==
        (if o.mspId == m && (spec.namespaces != [] ==> o.namespace in spec.namespaces) then multiset(nodes)[o] else 0)
    {
      NodesCount(spec, nodes, m, o);
    }
  }

  /** The organisations before the turns: the listed ones with a peer in the cluster or an orderer node in
      a listed namespace. */
  lemma {:induction false} OrganizationsThere(spec: Spec, clusterPeers: seq<Peer>, nodes: seq<OrdererNode>, m: string)
    ensures m in Organizations(spec, Grouped(clusterPeers), nodes) <==>
      && (spec.organizations != [] ==> m in spec.organizations)
      && (|| (exists p :: p in clusterPeers && p.mspId == m)
          || (exists o :: && o in nodes && o.mspId == m
                          && (spec.namespaces != [] ==> o.namespace in spec.namespaces)))
  {
    AddedOrderers(spec, FilteredOrgs(spec, Grouped(clusterPeers)), nodes, m);
    GroupedOnly(clusterPeers, m);
    NodesMembers(spec, nodes, m);
  }

  lemma {:induction false} OrganizationPeersHold(spec: Spec, clusterPeers: seq<Peer>, nodes: seq<OrdererNode>, m: string)
    requires m in Organizations(spec, Grouped(clusterPeers), nodes)
    ensures HoldsPeers(Organizations(spec, Grouped(clusterPeers), nodes)[m].peers, spec, clusterPeers, m)
  {
    var filtered := FilteredOrgs(spec, Grouped(clusterPeers));
    AddOrderersPeers(spec, filtered, nodes);
    if m in filtered {
      FilteredHold(spec, clusterPeers, m);
    } else {
      OrganizationsThere(spec, clusterPeers, nodes, m);
      NoneHold(spec, clusterPeers, m);
    }
  }

  lemma {:induction false} OrganizationNodesHold(spec: Spec, clusterPeers: seq<Peer>, nodes: seq<OrdererNode>, m: string)
    requires m in Organizations(spec, Grouped(clusterPeers), nodes)
    ensures var org := Organizations(spec, Grouped(clusterPeers), nodes)[m];
      org.mspId == m && HoldsNodes(org.ordererNodes, spec, nodes, m)
  {
    var kept := NodesOf(spec, nodes, m);
    AddedOrderers(spec, FilteredOrgs(spec, Grouped(clusterPeers)), nodes, m);
    OrganizationsThere(spec, clusterPeers, nodes, m);
    NodesHold(spec, nodes, m);
    assert [] + kept == kept;
  }

  /** And what they hold. */
  lemma OrganizationHolds(spec: Spec, clusterPeers: seq<Peer>, nodes: seq<OrdererNode>, m: string)
    requires m in Organizations(spec, Grouped(clusterPeers), nodes)
    ensures var org := Organizations(spec, Grouped(clusterPeers), nodes)[m];
      && org.mspId == m && HoldsPeers(org.peers, spec, clusterPeers, m) && HoldsNodes(org.ordererNodes, spec, nodes, m)
  {
    OrganizationPeersHold(spec, clusterPeers, nodes, m);
    OrganizationNodesHold(spec, clusterPeers, nodes, m);
  }

  lemma NoneHold(spec: Spec, clusterPeers: seq<Peer>, m: string)
    requires m !in Grouped(clusterPeers)
    ensures HoldsPeers([], spec, clusterPeers, m)
  {
    GroupedOnly(clusterPeers, m);
  }

  lemma {:induction false} GroupedOnly(peers: seq<Peer>, m: string)
    ensures m in Grouped(peers) <==> exists p :: p in peers && p.mspId == m
  {
    if peers != [] {
      var front, last := peers[..|peers| - 1], peers[|peers| - 1];
      assert peers == front + [last];
      GroupedOnly(front, m);
      if last.mspId == m { assert last in peers; }
    }
  }

  lemma {:induction false} NodesMembers(spec: Spec, nodes: seq<OrdererNode>, m: string)
    ensures forall o :: o in NodesOf(spec, nodes, m) <==>
      o in nodes && o.mspId == m && InNamespaces(spec, o.namespace) && InOrganizations(spec, m)
    ensures NodesOf(spec, nodes, m) != [] <==> exists o :: o in NodesOf(spec, nodes, m)
  {
    if nodes != [] {
      NodesMembers(spec, nodes[..|nodes| - 1], m);
      assert nodes == nodes[..|nodes| - 1] + [nodes[|nodes| - 1]];
    }
    if NodesOf(spec, nodes, m) != [] { assert NodesOf(spec, nodes, m)[0] in NodesOf(spec, nodes, m); }
  }

  lemma {:induction false} NodesCount(spec: Spec, nodes: seq<OrdererNode>, m: string, o: OrdererNode)
    ensures multiset(NodesOf(spec, nodes, m))[o] ==
            if o.mspId == m && InNamespaces(spec, o.namespace) && InOrganizations(spec, m) then multiset(nodes)[o] else 0
  {
    if nodes != [] {
      NodesCount(spec, nodes[..|nodes| - 1], m, o);
      assert nodes == nodes[..|nodes| - 1] + [nodes[|nodes| - 1]];
    }
  }

  // ----- Who acts on whom -----

  /** An entry acts on the peers of its organisation, which it drops unless it names them, and on the
      peers it names. */
  predicate Acts(config: Config, m: string, p: Peer) {
    m in config && config[m] != [] && (m == p.mspId || RefOf(p) in config[m])
  }

  function ActedBy(config: Config, m: string): Peer -> bool {
    (p: Peer) => p.replicas > 0 && Acts(config, m, p)
  }

  /** No scaled-up peer is acted on by two entries. */
  ghost predicate ActedOnOnce(peers: seq<Peer>, config: Config) {
    forall p, m, n :: p in peers && p.replicas > 0 && Acts(config, m, p) && Acts(config, n, p) ==> m == n
  }

  lemma {:induction false} SelectActed(peers: seq<Peer>, config: Config, m: string, refs: seq<PeerRef>)
    requires m in config && forall r :: r in refs ==> r in config[m]
    ensures Select(Filter(peers, ActedBy(config, m)), refs) == Select(peers, refs)
  {
    if refs != [] {
      var front, last := refs[..|refs| - 1], refs[|refs| - 1];
      assert last in refs && forall r :: r in front ==> r in refs;
      SelectActed(peers, config, m, front);
      FilterFilter(peers, ActedBy(config, m), Named(last), Named(last));
    }
  }

  lemma OtherTurnActed(peers: seq<Peer>, config: Config, n: string, m: string)
    requires m != n && n in config && config[n] != [] && ActedOnOnce(peers, config)
    ensures Filter(Filter(peers, Elsewhere(n)) + Select(peers, config[n]), ActedBy(config, m)) ==
            Filter(peers, ActedBy(config, m))
  {
    FilterConcat(Filter(peers, Elsewhere(n)), Select(peers, config[n]), ActedBy(config, m));
    forall p | p in peers ensures ActedBy(config, m)(p) <==> Elsewhere(n)(p) && ActedBy(config, m)(p) {
      assert ActedBy(config, m)(p) ==> !Acts(config, n, p);
    }
    FilterFilter(peers, Elsewhere(n), ActedBy(config, m), ActedBy(config, m));
    SelectMembers(peers, config[n]);
    forall p | p in Select(peers, config[n]) ensures !ActedBy(config, m)(p) {
      assert Acts(config, n, p);
    }
    FilterNothing(Select(peers, config[n]), ActedBy(config, m));
  }

  lemma TurnMembers(peers: seq<Peer>, m: string, refs: seq<PeerRef>, p: Peer)
    ensures p in Filter(peers, Elsewhere(m)) + Select(peers, refs) <==>
            p in peers && p.replicas > 0 && (p.mspId != m || RefOf(p) in refs)
  {
    FilterMembers(peers, Elsewhere(m));
    SelectMembers(peers, refs);
  }

  /** What the turns so far leave when no peer is acted on twice: the peers of the entries to come are
      as they were, and each organisation that had its turn holds what its list selects from the start. */
  ghost predicate Undisturbed(peers: seq<Peer>, config: Config, done: set<string>, ps: seq<Peer>) {
    && (forall p :: p in ps ==> p in peers)
    && (forall m :: m in config && m !in done ==> Filter(ps, ActedBy(config, m)) == Filter(peers, ActedBy(config, m)))
  }

  ghost predicate Selected(peers: seq<Peer>, orgs: Orgs, config: Config, done: set<string>, os: Orgs) {
    && os.Keys == orgs.Keys
    && forall m :: m in orgs ==>
         os[m] == if m in done && m in config && config[m] != [] then orgs[m].(peers := Select(peers, config[m])) else orgs[m]
  }

  lemma {:induction false} TurnUndisturbed(peers: seq<Peer>, config: Config, done: set<string>, ps: seq<Peer>, n: string)
    requires n in config && config[n] != [] && n !in done && ActedOnOnce(peers, config)
    requires Undisturbed(peers, config, done, ps)
    ensures Undisturbed(peers, config, done + {n}, Filter(ps, Elsewhere(n)) + Select(ps, config[n]))
    ensures Select(ps, config[n]) == Select(peers, config[n])
  {
    var ps' := Filter(ps, Elsewhere(n)) + Select(ps, config[n]);
    forall p | p in ps' ensures p in peers {
      TurnMembers(ps, n, config[n], p);
    }
    forall m | m in config && m !in done + {n}
      ensures Filter(ps', ActedBy(config, m)) == Filter(peers, ActedBy(config, m))
    {
      OtherTurnActed(ps, config, n, m);
    }
    SelectActed(ps, config, n, config[n]);
    SelectActed(peers, config, n, config[n]);
  }

  lemma {:induction false} TurnsUndisturbed(peers: seq<Peer>, orgs: Orgs, order: Entries, config: Config)
    requires Part(order, config) && KeysPresent(orgs, config) && ActedOnOnce(peers, config)
    ensures var r := Turns(peers, orgs, order);
      && r.Some? && Undisturbed(peers, config, KeysOf(order), r.value.0)
      && Selected(peers, orgs, config, KeysOf(order), r.value.1)
  {
    if order != [] {
      var front, last := order[..|order| - 1], order[|order| - 1];
      FrontPart(order, config);
      TurnsUndisturbed(peers, orgs, front, config);
      if last.1 != [] {
        TurnUndisturbed(peers, config, KeysOf(front), Turns(peers, orgs, front).value.0, last.0);
      }
    }
  }

  // ----- When the order matters -----

  ghost predicate SameResult(peers: seq<Peer>, orgs: Orgs, a: Entries, b: Entries) {
    var x, y := Turns(peers, orgs, a), Turns(peers, orgs, b);
    x.Some? && y.Some? && multiset(x.value.0) == multiset(y.value.0) && x.value.1 == y.value.1
  }

  lemma {:induction false} ActedOnOnceSame(peers: seq<Peer>, orgs: Orgs, config: Config, a: Entries, b: Entries)
    requires Iterates(a, config) && Iterates(b, config) && KeysPresent(orgs, config) && ActedOnOnce(peers, config)
    ensures SameResult(peers, orgs, a, b)
  {
    PeersNeverDependOnOrder(peers, orgs, config, a, b);
    IteratesParts(a, config);
    IteratesParts(b, config);
    TurnsUndisturbed(peers, orgs, a, config);
    TurnsUndisturbed(peers, orgs, b, config);
    var x, y := Turns(peers, orgs, a).value.1, Turns(peers, orgs, b).value.1;
    forall m | m in orgs ensures x[m] == y[m] {
    }
    assert x == y;
  }

  function Times(refs: seq<PeerRef>, p: Peer): nat {
    multiset(refs)[RefOf(p)]
  }

  /** Two turns at the start, and what they leave for their organisations at the end. */
  lemma {:induction false} TwoFirst(
    peers: seq<Peer>, orgs: Orgs, config: Config, m: string, n: string, rest: Entries, p: Peer) returns (order: Entries)
    requires m in config && n in config && m != n && config[m] != [] && config[n] != []
    requires KeysPresent(orgs, config) && Iterates(rest, config - {m, n}) && p.replicas > 0
    ensures Iterates(order, config)
    ensures var r := Turns(peers, orgs, order);
      && r.Some? && m in r.value.1 && n in r.value.1
      && multiset(r.value.1[m].peers)[p] == Times(config[m], p) * multiset(peers)[p]
      && multiset(r.value.1[n].peers)[p] == Times(config[n], p) * (multiset(peers)[p] * Weight((m, config[m]), p))
  {
    assert config - {m} - {n} == config - {m, n};
    var tail := FirstThen(n, config - {m}, rest);
    order := FirstThen(m, config, tail);
    var em, en := (m, config[m]), (n, config[n]);
    assert order == [em, en] + rest;
    IteratesParts(order, config);
    IteratesParts(rest, config - {m, n});
    TurnsSome(peers, orgs, order, config);
    TwoTurns(peers, orgs, em, en, p);
    TurnsConcat(peers, orgs, [em, en], rest);
    var two := Turns(peers, orgs, [em, en]).value;
    LaterTurnsKeep(two.0, two.1, rest, m);
    LaterTurnsKeep(two.0, two.1, rest, n);
  }

  lemma TwoTurns(peers: seq<Peer>, orgs: Orgs, a: (string, seq<PeerRef>), b: (string, seq<PeerRef>), p: Peer)
    requires a.0 in orgs && b.0 in orgs && a.0 != b.0 && a.1 != [] && b.1 != [] && p.replicas > 0
    ensures var r := Turns(peers, orgs, [a, b]);
      && r.Some? && a.0 in r.value.1 && b.0 in r.value.1
      && multiset(r.value.1[a.0].peers)[p] == Times(a.1, p) * multiset(peers)[p]
      && multiset(r.value.1[b.0].peers)[p] == Times(b.1, p) * (multiset(peers)[p] * Weight(a, p))
  {
    assert [a, b][..1] == [a] && [a][..0] == [];
    var ps := Filter(peers, Elsewhere(a.0)) + Select(peers, a.1);
    assert Turns(peers, orgs, [a]) == Some((ps, SetPeers(orgs, a.0, Select(peers, a.1))));
    SelectCount(peers, a.1, p);
    TurnCount(peers, a.0, a.1, p);
    SelectCount(ps, b.1, p);
  }

  /** The counts `x` of one order and `y` of the other cannot agree for both organisations. */
  lemma BothOrdersDiffer(c: nat, km: nat, kn: nat, wm: nat, wn: nat, xm: nat, xn: nat, ym: nat, yn: nat)
    requires c > 0 && km <= wm <= km + 1 && kn <= wn <= kn + 1
    requires (wm == km ==> wn > kn) && (wm > km ==> km > 0) && (wn > kn ==> kn > 0)
    requires xm == km * c && xn == kn * (c * wm) && yn == kn * c && ym == km * (c * wn)
    ensures xm != ym || xn != yn
  {
    if km == 0 {
      assert kn * c > 0 && c * wm == 0;
    } else if kn == 0 {
      assert km * c > 0 && c * wn == 0;
    } else if wn > kn {
      Larger(km, c, wn);
    } else {
      Larger(kn, c, wm);
    }
  }

  lemma Larger(k: nat, c: nat, f: nat)
    requires k > 0 && c > 0 && f > 1
    ensures k * (c * f) > k * c
  {
    assert c * f > c;
    assert k * (c * f - c) > 0;
  }

  lemma ActsWeighs(config: Config, m: string, p: Peer)
    requires Acts(config, m, p) && p.replicas > 0
    ensures Weight((m, config[m]), p) == (if p.mspId == m then 0 else 1) + Times(config[m], p)
    ensures p.mspId != m ==> Times(config[m], p) > 0
  {
    if p.mspId != m { assert RefOf(p) in multiset(config[m]); }
  }

  /** A scaled-up peer on which two entries act shows the order, in the organisations of the two. */
  lemma {:induction false} MisfiledPeerDependsOnOrder(peers: seq<Peer>, orgs: Orgs, config: Config, p: Peer, m: string, n: string)
    returns (a: Entries, b: Entries)
    requires KeysPresent(orgs, config) && p in peers && p.replicas > 0
    requires Acts(config, m, p) && Acts(config, n, p) && m != n
    ensures Iterates(a, config) && Iterates(b, config)
    ensures var x, y := Turns(peers, orgs, a), Turns(peers, orgs, b);
      && x.Some? && y.Some? && m in x.value.1 && n in x.value.1 && m in y.value.1 && n in y.value.1
      && (multiset(x.value.1[m].peers)[p] != multiset(y.value.1[m].peers)[p]
          || multiset(x.value.1[n].peers)[p] != multiset(y.value.1[n].peers)[p])
  {
    var rest := SomeOrder(config - {m, n});
    assert {n, m} == {m, n};
    a := TwoFirst(peers, orgs, config, m, n, rest, p);
    b := TwoFirst(peers, orgs, config, n, m, rest, p);
    ActsWeighs(config, m, p);
    ActsWeighs(config, n, p);
    assert p in multiset(peers);
    var x, y := Turns(peers, orgs, a).value.1, Turns(peers, orgs, b).value.1;
    BothOrdersDiffer(multiset(peers)[p], Times(config[m], p), Times(config[n], p),
                     Weight((m, config[m]), p), Weight((n, config[n]), p),
                     multiset(x[m].peers)[p], multiset(x[n].peers)[p], multiset(y[m].peers)[p], multiset(y[n].peers)[p]);
  }

  /** Exactly when the order cannot be seen: every iteration order gives the same peers, counted, and
      the same organisations, if and only if no scaled-up peer is acted on by two entries. */
  lemma {:induction false} OrderIrrelevantIff(peers: seq<Peer>, orgs: Orgs, config: Config)
    requires KeysPresent(orgs, config)
    ensures (forall a, b :: Iterates(a, config) && Iterates(b, config) ==> SameResult(peers, orgs, a, b)) <==>
            ActedOnOnce(peers, config)
  {
    if ActedOnOnce(peers, config) {
      forall a, b | Iterates(a, config) && Iterates(b, config) ensures SameResult(peers, orgs, a, b) {
        ActedOnOnceSame(peers, orgs, config, a, b);
      }
    } else {
      var p, m, n :| p in peers && p.replicas > 0 && Acts(config, m, p) && Acts(config, n, p) && m != n;
      var a, b := MisfiledPeerDependsOnOrder(peers, orgs, config, p, m, n);
      assert !SameResult(peers, orgs, a, b);
    }
  }

  /** In particular the order does not matter when lists name peers of their own organisation only. */
  lemma OrderDoesNotMatter(peers: seq<Peer>, orgs: Orgs, config: Config, a: Entries, b: Entries)
    requires Iterates(a, config) && Iterates(b, config) && KeysPresent(orgs, config)
    requires forall p, m :: p in peers && p.replicas > 0 && m in config && RefOf(p) in config[m] ==> p.mspId == m
    ensures SameResult(peers, orgs, a, b)
  {
    ActedOnOnceSame(peers, orgs, config, a, b);
  }

  // ----- Which named peers are listed -----

  predicate HasList(config: Config, m: string) {
    m in config && config[m] != []
  }

  ghost predicate Survives(order: Entries, p: Peer) {
    forall e :: e in order && e.1 != [] ==> p.replicas > 0 && (p.mspId != e.0 || RefOf(p) in e.1)
  }

  ghost predicate Spares(e: (string, seq<PeerRef>), p: Peer) {
    e.1 != [] ==> p.replicas > 0 && (p.mspId != e.0 || RefOf(p) in e.1)
  }

  lemma SurvivesNext(front: Entries, last: (string, seq<PeerRef>), p: Peer)
    ensures Survives(front + [last], p) <==> Survives(front, p) && Spares(last, p)
  {
    assert forall e :: e in front + [last] <==> e in front || e == last;
  }

  lemma TurnSpares(peers: seq<Peer>, orgs: Orgs, e: (string, seq<PeerRef>), p: Peer)
    requires Turn(peers, orgs, e.0, e.1).Some?
    ensures p in Turn(peers, orgs, e.0, e.1).value.0 <==> p in peers && Spares(e, p)
  {
    if e.1 != [] { TurnMembers(peers, e.0, e.1, p); }
  }

  lemma {:induction false} TurnsMember(peers: seq<Peer>, orgs: Orgs, order: Entries, p: Peer)
    requires Turns(peers, orgs, order).Some?
    ensures p in Turns(peers, orgs, order).value.0 <==> p in peers && Survives(order, p)
  {
    if order != [] {
      var front, last := order[..|order| - 1], order[|order| - 1];
      assert order == front + [last];
      var before := Turns(peers, orgs, front).value;
      TurnsMember(peers, orgs, front, p);
      SurvivesNext(front, last, p);
      TurnSpares(before.0, before.1, last, p);
    }
  }

  /** A peer an organisation ends with was there from the start, or stands in its list. */
  lemma {:induction false} OrgMember(peers: seq<Peer>, orgs: Orgs, order: Entries, config: Config, m: string, p: Peer)
    requires Part(order, config) && Turns(peers, orgs, order).Some?
    requires m in Turns(peers, orgs, order).value.1 && p in Turns(peers, orgs, order).value.1[m].peers
    ensures if m in KeysOf(order) && HasList(config, m) then p in peers && p.replicas > 0 && RefOf(p) in config[m]
            else m in orgs && p in orgs[m].peers
  {
    if order != [] {
      var front, last := order[..|order| - 1], order[|order| - 1];
      FrontPart(order, config);
      if last.0 == m && last.1 != [] {
        var ps := Turns(peers, orgs, front).value.0;
        SelectMembers(ps, last.1);
        TurnsMember(peers, orgs, front, p);
      } else {
        OrgMember(peers, orgs, front, config, m, p);
      }
    }
  }

  ghost predicate AllAppear(r: Option<(seq<Peer>, Orgs)>) {
    r.Some? && forall m, p :: m in r.value.1 && p in r.value.1[m].peers ==> p in r.value.0
  }

  /** A peer of an organisation without a list is scaled up, or nothing is filtered by organisation or
      replicas; and a peer that some list names is named by the list of its own organisation too, if
      that has one. */
  ghost predicate Coherent(spec: Spec, clusterPeers: seq<Peer>) {
    var config := spec.organizationConfig;
    && (forall p :: p in clusterPeers && UnderOrg(spec)(p) && !HasList(config, p.mspId) ==>
          p.replicas > 0 || (spec.organizations == [] && forall m :: !HasList(config, m)))
    && (forall p, m ::
          p in Listed(spec, clusterPeers) && p.replicas > 0 && HasList(config, p.mspId) && m in config && RefOf(p) in config[m] ==>
            RefOf(p) in config[p.mspId])
  }

  lemma StartingPeers(spec: Spec, clusterPeers: seq<Peer>, nodes: seq<OrdererNode>, m: string, p: Peer)
    ensures var orgs := Organizations(spec, Grouped(clusterPeers), nodes);
      m in orgs && p in orgs[m].peers <==> p in clusterPeers && p.mspId == m && UnderOrg(spec)(p)
  {
    AddOrderersPeers(spec, FilteredOrgs(spec, Grouped(clusterPeers)), nodes);
    GroupedAt(clusterPeers, m);
    FilterMembers(clusterPeers, OfOrg(m));
    if m in Grouped(clusterPeers) { FilterMembers(Grouped(clusterPeers)[m], UnderOrg(spec)); }
  }

  lemma {:induction false} CoherentAppear(
    spec: Spec, clusterPeers: seq<Peer>, nodes: seq<OrdererNode>, order: Entries, m: string, p: Peer)
    requires Coherent(spec, clusterPeers) && Iterates(order, spec.organizationConfig)
    requires Turns(Listed(spec, clusterPeers), Organizations(spec, Grouped(clusterPeers), nodes), order).Some?
    requires var os := Turns(Listed(spec, clusterPeers), Organizations(spec, Grouped(clusterPeers), nodes), order).value.1;
      m in os && p in os[m].peers
    ensures p in Turns(Listed(spec, clusterPeers), Organizations(spec, Grouped(clusterPeers), nodes), order).value.0
  {
    var config, peers := spec.organizationConfig, Listed(spec, clusterPeers);
    var orgs := Organizations(spec, Grouped(clusterPeers), nodes);
    IteratesParts(order, config);
    OrgMember(peers, orgs, order, config, m, p);
    StartingPeers(spec, clusterPeers, nodes, m, p);
    FilterMembers(clusterPeers, TopLevel(spec));
    TurnsMember(peers, orgs, order, p);
    if !HasList(config, m) {
      assert p in clusterPeers && p.mspId == m && UnderOrg(spec)(p);
    }
    forall e | e in order && e.1 != []
      ensures p.replicas > 0 && (p.mspId != e.0 || RefOf(p) in e.1)
    {
      assert HasList(config, e.0);
    }
  }

  /** A list without the peer under its own organisation breaks the claim in some order. */
  lemma {:induction false} IncoherentHides(spec: Spec, clusterPeers: seq<Peer>, nodes: seq<OrdererNode>) returns (order: Entries)
    requires !Coherent(spec, clusterPeers)
    requires KeysPresent(Organizations(spec, Grouped(clusterPeers), nodes), spec.organizationConfig)
    ensures Iterates(order, spec.organizationConfig)
    ensures !AllAppear(Turns(Listed(spec, clusterPeers), Organizations(spec, Grouped(clusterPeers), nodes), order))
  {
    var config, peers := spec.organizationConfig, Listed(spec, clusterPeers);
    var orgs := Organizations(spec, Grouped(clusterPeers), nodes);
    FilterMembers(clusterPeers, TopLevel(spec));
    if p :| p in clusterPeers && UnderOrg(spec)(p) && !HasList(config, p.mspId)
            && !(p.replicas > 0 || (spec.organizations == [] && forall m :: !HasList(config, m)))
    {
      order := SomeOrder(config);
      HiddenUnlisted(spec, clusterPeers, nodes, order, p);
    } else {
      var p, m :| p in peers && p.replicas > 0 && m in config && RefOf(p) in config[m]
        && HasList(config, p.mspId) && RefOf(p) !in config[p.mspId];
      var rest := SomeOrder(config - {m});
      order := FirstThen(m, config, rest);
      HiddenMisfiled(peers, orgs, config, order, rest, m, p);
    }
  }

  lemma {:induction false} HiddenUnlisted(spec: Spec, clusterPeers: seq<Peer>, nodes: seq<OrdererNode>, order: Entries, p: Peer)
    requires Iterates(order, spec.organizationConfig)
    requires KeysPresent(Organizations(spec, Grouped(clusterPeers), nodes), spec.organizationConfig)
    requires p in clusterPeers && UnderOrg(spec)(p) && !HasList(spec.organizationConfig, p.mspId) && p.replicas <= 0
    requires spec.organizations != [] || exists m :: HasList(spec.organizationConfig, m)
    ensures !AllAppear(Turns(Listed(spec, clusterPeers), Organizations(spec, Grouped(clusterPeers), nodes), order))
  {
    var config, peers := spec.organizationConfig, Listed(spec, clusterPeers);
    var orgs := Organizations(spec, Grouped(clusterPeers), nodes);
    FilterMembers(clusterPeers, TopLevel(spec));
    StartingPeers(spec, clusterPeers, nodes, p.mspId, p);
    IteratesParts(order, config);
    TurnsSome(peers, orgs, order, config);
    TurnsMember(peers, orgs, order, p);
    UnlistedKeep(peers, orgs, order, config, p.mspId);
    if spec.organizations == [] {
      var m :| HasList(config, m);
      assert (m, config[m]) in order;
      assert !Survives(order, p);
    }
  }

  lemma {:induction false} UnlistedKeep(peers: seq<Peer>, orgs: Orgs, order: Entries, config: Config, m: string)
    requires Part(order, config) && KeysPresent(orgs, config) && m in orgs && !HasList(config, m)
    ensures Turns(peers, orgs, order).Some? && m in Turns(peers, orgs, order).value.1
    ensures Turns(peers, orgs, order).value.1[m] == orgs[m]
  {
    TurnsSome(peers, orgs, order, config);
    if order != [] {
      FrontPart(order, config);
      UnlistedKeep(peers, orgs, order[..|order| - 1], config, m);
    }
  }

  lemma {:induction false} HiddenMisfiled(
    peers: seq<Peer>, orgs: Orgs, config: Config, order: Entries, rest: Entries, m: string, p: Peer)
    requires KeysPresent(orgs, config) && p in peers && p.replicas > 0
    requires m in config && RefOf(p) in config[m] && HasList(config, p.mspId) && RefOf(p) !in config[p.mspId]
    requires Iterates(rest, config - {m}) && order == [(m, config[m])] + rest && Iterates(order, config)
    ensures !AllAppear(Turns(peers, orgs, order))
  {
    var first := [(m, config[m])];
    IteratesParts(order, config);
    IteratesParts(rest, config - {m});
    TurnsSome(peers, orgs, order, config);
    assert first[..0] == [];
    assert Turns(peers, orgs, first).Some?;
    TurnsConcat(peers, orgs, first, rest);
    var one := Turns(peers, orgs, first).value;
    SelectMembers(peers, config[m]);
    LaterTurnsKeep(one.0, one.1, rest, m);
    TurnsMember(peers, orgs, order, p);
    assert (p.mspId, config[p.mspId]) in order;
    assert !Survives(order, p);
    var r := Turns(peers, orgs, order).value;
    assert m in r.1 && p in r.1[m].peers && p !in r.0;
  }

  /** Exactly when every peer named under an organisation is in the top-level list, whatever the
      order of iteration. */
  lemma {:induction false} NamedPeersListedIff(spec: Spec, clusterPeers: seq<Peer>, nodes: seq<OrdererNode>)
    requires KeysPresent(Organizations(spec, Grouped(clusterPeers), nodes), spec.organizationConfig)
    ensures (forall order :: Iterates(order, spec.organizationConfig) ==>
               AllAppear(Turns(Listed(spec, clusterPeers), Organizations(spec, Grouped(clusterPeers), nodes), order)))
            <==> Coherent(spec, clusterPeers)
  {
    var peers, orgs := Listed(spec, clusterPeers), Organizations(spec, Grouped(clusterPeers), nodes);
    if Coherent(spec, clusterPeers) {
      forall order | Iterates(order, spec.organizationConfig) ensures AllAppear(Turns(peers, orgs, order)) {
        IteratesParts(order, spec.organizationConfig);
        TurnsSome(peers, orgs, order, spec.organizationConfig);
        var r := Turns(peers, orgs, order).value;
        forall m, p | m in r.1 && p in r.1[m].peers ensures p in r.0 {
          CoherentAppear(spec, clusterPeers, nodes, order, m, p);
        }
      }
    } else {
      var order := IncoherentHides(spec, clusterPeers, nodes);
    }
  }

  /** In particular every one is when all peers are scaled up and lists name peers of their own
      organisation only. */
  lemma {:induction false} ListedPeersAppear(spec: Spec, clusterPeers: seq<Peer>, nodes: seq<OrdererNode>, order: Entries)
    requires Iterates(order, spec.organizationConfig)
    requires KeysPresent(Organizations(spec, Grouped(clusterPeers), nodes), spec.organizationConfig)
    requires forall p :: p in clusterPeers ==> p.replicas > 0
    requires forall p, m :: p in clusterPeers && m in spec.organizationConfig && RefOf(p) in spec.organizationConfig[m] ==>
                              p.mspId == m
    ensures AllAppear(Turns(Listed(spec, clusterPeers), Organizations(spec, Grouped(clusterPeers), nodes), order))
  {
    FilterMembers(clusterPeers, TopLevel(spec));
    NamedPeersListedIff(spec, clusterPeers, nodes);
  }
}
