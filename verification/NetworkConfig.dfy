/** Which peers and organisations a network configuration lists: filters by namespace and
    organisation, then a loop over a map of per-organisation peer lists, in any order. */
module NetworkConfig {
  import opened Collections

  datatype Peer = Peer(name: string, namespace: string, mspId: string, replicas: int)

  /** The peers listed for each organisation, and its entries in some order. */
  type Config = map<string, seq<PeerRef>>

  type Entries = seq<(string, seq<PeerRef>)>

  datatype OrdererNode = OrdererNode(name: string, namespace: string, mspId: string)

  datatype PeerRef = PeerRef(name: string, namespace: string)

  datatype Organization = Organization(mspId: string, ordererNodes: seq<OrdererNode>, peers: seq<Peer>)

  datatype Spec = Spec(organizations: seq<string>, namespaces: seq<string>, organizationConfig: Config)

  type Orgs = map<string, Organization>

  // ----- Filters -----

  function Filter(s: seq<Peer>, keep: Peer -> bool): seq<Peer> {
    if s == [] then []
    else Filter(s[..|s| - 1], keep) + (if keep(s[|s| - 1]) then [s[|s| - 1]] else [])
  }

  predicate InNamespaces(spec: Spec, namespace: string) {
    spec.namespaces == [] || namespace in spec.namespaces
  }

  predicate InOrganizations(spec: Spec, mspId: string) {
    spec.organizations == [] || mspId in spec.organizations
  }

  function UnderOrg(spec: Spec): Peer -> bool {
    (p: Peer) => InNamespaces(spec, p.namespace) && InOrganizations(spec, p.mspId)
  }

  /** Scaled-down peers leave the top-level list only when the specification names organisations. */
  function TopLevel(spec: Spec): Peer -> bool {
    (p: Peer) => InNamespaces(spec, p.namespace)
      && (spec.organizations == [] || (p.replicas > 0 && p.mspId in spec.organizations))
  }

  function OfOrg(mspId: string): Peer -> bool {
    (p: Peer) => p.mspId == mspId
  }

  function Elsewhere(mspId: string): Peer -> bool {
    (p: Peer) => p.mspId != mspId && p.replicas > 0
  }

  function Named(ref: PeerRef): Peer -> bool {
    (p: Peer) => p.name == ref.name && p.namespace == ref.namespace && p.replicas > 0
  }

  function RefOf(p: Peer): PeerRef {
    PeerRef(p.name, p.namespace)
  }

  /** The listed peers, in the order of the list. */
  function Select(peers: seq<Peer>, refs: seq<PeerRef>): seq<Peer> {
    if refs == [] then []
    else Select(peers, refs[..|refs| - 1]) + Filter(peers, Named(refs[|refs| - 1]))
  }

  function SetPeers(orgs: Orgs, mspId: string, peers: seq<Peer>): Orgs
    requires mspId in orgs
  {
    orgs[mspId := orgs[mspId].(peers := peers)]
  }

  /** One turn of the loop; `None` is the panic on an organisation that is not in the map. */
  function Turn(peers: seq<Peer>, orgs: Orgs, mspId: string, refs: seq<PeerRef>): Option<(seq<Peer>, Orgs)> {
    if refs == [] then Some((peers, orgs))
    else if mspId !in orgs then None
    else
      var orgPeers := Select(peers, refs);
      Some((Filter(peers, Elsewhere(mspId)) + orgPeers, SetPeers(orgs, mspId, orgPeers)))
  }

  function Turns(peers: seq<Peer>, orgs: Orgs, order: Entries): Option<(seq<Peer>, Orgs)> {
    if order == [] then Some((peers, orgs))
    else
      match Turns(peers, orgs, order[..|order| - 1])
      case None => None
      case Some((ps, os)) => Turn(ps, os, order[|order| - 1].0, order[|order| - 1].1)
  }

  // ----- The loops -----

  method FilterPeers(peers: seq<Peer>, keep: Peer -> bool) returns (kept: seq<Peer>)
    ensures kept == Filter(peers, keep)
  {
    kept := [];
    for i := 0 to |peers|
      invariant kept == Filter(peers[..i], keep)
    {
      assert peers[..i + 1][..i] == peers[..i];
      if keep(peers[i]) { kept := kept + [peers[i]]; }
    }
    assert peers[..|peers|] == peers;
  }

  method SelectPeers(peers: seq<Peer>, refs: seq<PeerRef>) returns (selected: seq<Peer>)
    ensures selected == Select(peers, refs)
  {
    selected := [];
    for i := 0 to |refs|
      invariant selected == Select(peers, refs[..i])
    {
      assert refs[..i + 1][..i] == refs[..i];
      var found := FilterPeers(peers, Named(refs[i]));
      selected := selected + found;
    }
    assert refs[..|refs|] == refs;
  }

  /** The loop over the per-organisation map, whose entries come in an order of their own: `order`
      says which it was. */
  method ConfigureOrganizations(config: Config, peers0: seq<Peer>, orgs0: Orgs)
    returns (r: Option<(seq<Peer>, Orgs)>, ghost order: Entries)
    ensures r.None? <==> exists m :: m in config && config[m] != [] && m !in orgs0
    ensures r.Some? ==> Iterates(order, config) && r == Turns(peers0, orgs0, order)
  {
    var peers, orgs := peers0, orgs0;
    order := [];
    var left := config.Keys;
    while left != {}
      invariant left <= config.Keys && orgs.Keys == orgs0.Keys && DistinctKeys(order)
      invariant forall e :: e in order <==> e.0 in config.Keys - left && config[e.0] == e.1
      invariant forall m :: m in config.Keys - left && config[m] != [] ==> m in orgs0
      invariant Turns(peers0, orgs0, order) == Some((peers, orgs))
      decreases |left|
    {
      var mspId :| mspId in left;
      var refs := config[mspId];
      OneMoreEntry(order, (mspId, refs));
      if |refs| > 0 {
        var orgPeers := SelectPeers(peers, refs);
        var restPeerOrgs := FilterPeers(peers, Elsewhere(mspId));
        if mspId !in orgs { return None, order; }
        peers := restPeerOrgs + orgPeers;
        orgs := orgs[mspId := orgs[mspId].(peers := orgPeers)];
      }
      assert (order + [(mspId, refs)])[..|order|] == order;
      order := order + [(mspId, refs)];
      left := left - {mspId};
    }
    return Some((peers, orgs)), order;
  }

  ghost predicate DistinctKeys(order: Entries) {
    forall i, j :: 0 <= i < j < |order| ==> order[i].0 != order[j].0
  }

  /** The list holds each entry of the map once. */
  ghost predicate Iterates(order: Entries, config: Config) {
    DistinctKeys(order) && forall e :: e in order <==> e.0 in config && config[e.0] == e.1
  }

  lemma OneMoreEntry(order: Entries, entry: (string, seq<PeerRef>))
    requires DistinctKeys(order) && forall e :: e in order ==> e.0 != entry.0
    ensures DistinctKeys(order + [entry])
  {
    forall i | 0 <= i < |order| ensures order[i].0 != entry.0 {
      assert order[i] in order;
    }
  }

  function Grouped(peers: seq<Peer>): map<string, seq<Peer>> {
    if peers == [] then map[]
    else
      var before, p := Grouped(peers[..|peers| - 1]), peers[|peers| - 1];
      before[p.mspId := (if p.mspId in before then before[p.mspId] else []) + [p]]
  }

  /** The cluster's peers by organisation. */
  method GroupPeers(peers: seq<Peer>) returns (orgs: map<string, seq<Peer>>)
    ensures orgs == Grouped(peers)
  {
    orgs := map[];
    for i := 0 to |peers|
      invariant orgs == Grouped(peers[..i])
    {
      assert peers[..i + 1][..i] == peers[..i];
      var mspId := peers[i].mspId;
      if mspId !in orgs { orgs := orgs[mspId := []]; }
      orgs := orgs[mspId := orgs[mspId] + [peers[i]]];
    }
    assert peers[..|peers|] == peers;
  }

  lemma {:induction false} GroupedAt(peers: seq<Peer>, m: string)
    ensures Filter(peers, OfOrg(m)) == if m in Grouped(peers) then Grouped(peers)[m] else []
    ensures forall p :: p in peers ==> p.mspId in Grouped(peers)
  {
    if peers != [] {
      GroupedAt(peers[..|peers| - 1], m);
      assert peers == peers[..|peers| - 1] + [peers[|peers| - 1]];
    }
  }

  /** The organisations of the peers, each filtered. */
  method OrganizationsOf(spec: Spec, peerOrgs: map<string, seq<Peer>>) returns (orgs: Orgs)
    ensures orgs == FilteredOrgs(spec, peerOrgs)
  {
    orgs := map[];
    var left := peerOrgs.Keys;
    while left != {}
      invariant left <= peerOrgs.Keys
      invariant forall m :: m in orgs <==> m in peerOrgs.Keys - left && InOrganizations(spec, m)
      invariant forall m :: m in orgs ==> orgs[m] == Organization(m, [], Filter(peerOrgs[m], UnderOrg(spec)))
      decreases |left|
    {
      var mspId :| mspId in left;
      if |spec.organizations| == 0 || mspId in spec.organizations {
        var peers := FilterPeers(peerOrgs[mspId], UnderOrg(spec));
        orgs := orgs[mspId := Organization(mspId, [], peers)];
      }
      left := left - {mspId};
    }
  }

  function FilteredOrgs(spec: Spec, peerOrgs: map<string, seq<Peer>>): Orgs {
    map m | m in peerOrgs && InOrganizations(spec, m) :: Organization(m, [], Filter(peerOrgs[m], UnderOrg(spec)))
  }

  function AddOrderer(spec: Spec, orgs: Orgs, o: OrdererNode): Orgs {
    if !InNamespaces(spec, o.namespace) || !InOrganizations(spec, o.mspId) then orgs
    else if o.mspId in orgs then orgs[o.mspId := orgs[o.mspId].(ordererNodes := orgs[o.mspId].ordererNodes + [o])]
    else orgs[o.mspId := Organization(o.mspId, [o], [])]
  }

  function AddOrderers(spec: Spec, orgs: Orgs, nodes: seq<OrdererNode>): Orgs {
    if nodes == [] then orgs else AddOrderer(spec, AddOrderers(spec, orgs, nodes[..|nodes| - 1]), nodes[|nodes| - 1])
  }

  /** The orderer nodes of an organisation that pass the filters, in their order. */
  function NodesOf(spec: Spec, nodes: seq<OrdererNode>, m: string): seq<OrdererNode> {
    if nodes == [] then []
    else
      var o := nodes[|nodes| - 1];
      NodesOf(spec, nodes[..|nodes| - 1], m)
      + (if o.mspId == m && InNamespaces(spec, o.namespace) && InOrganizations(spec, o.mspId) then [o] else [])
  }

  /** An organisation with its kept nodes: appended to the stored ones, or all it has. */
  function WithNodes(orgs: Orgs, m: string, nodes: seq<OrdererNode>): Option<Organization> {
    if m in orgs then Some(orgs[m].(ordererNodes := orgs[m].ordererNodes + nodes))
    else if nodes != [] then Some(Organization(m, nodes, []))
    else None
  }

  function Lookup(orgs: Orgs, m: string): Option<Organization> {
    if m in orgs then Some(orgs[m]) else None
  }

  lemma {:induction false} AddedOrderers(spec: Spec, orgs: Orgs, nodes: seq<OrdererNode>, m: string)
    ensures Lookup(AddOrderers(spec, orgs, nodes), m) == WithNodes(orgs, m, NodesOf(spec, nodes, m))
  {
    if nodes != [] {
      var front, o := nodes[..|nodes| - 1], nodes[|nodes| - 1];
      AddedOrderers(spec, orgs, front, m);
      var kept := NodesOf(spec, front, m);
      assert kept + [] == kept;
      if m in orgs {
        assert orgs[m].ordererNodes + (kept + [o]) == orgs[m].ordererNodes + kept + [o];
      } else if kept == [] {
        assert kept + [o] == [o];
      }
    } else if m in orgs {
      assert orgs[m].ordererNodes + [] == orgs[m].ordererNodes;
    }
  }

  /** Every organisation ends with its stored nodes followed by its kept nodes, in order; the new
      ones are those with a kept node, and their peers are empty. */
  method OrganizationsWithOrderers(spec: Spec, orgs0: Orgs, nodes: seq<OrdererNode>) returns (orgs: Orgs)
    ensures orgs == AddOrderers(spec, orgs0, nodes)
    ensures forall m :: Lookup(orgs, m) == WithNodes(orgs0, m, NodesOf(spec, nodes, m))
  {
    orgs := orgs0;
    for i := 0 to |nodes|
      invariant orgs == AddOrderers(spec, orgs0, nodes[..i])
    {
      assert nodes[..i + 1][..i] == nodes[..i];
      var node := nodes[i];
      if InNamespaces(spec, node.namespace) && InOrganizations(spec, node.mspId) {
        if node.mspId in orgs {
          var org := orgs[node.mspId];
          orgs := orgs[node.mspId := org.(ordererNodes := org.ordererNodes + [node])];
        } else {
          orgs := orgs[node.mspId := Organization(node.mspId, [node], [])];
        }
      }
    }
    assert nodes[..|nodes|] == nodes;
    forall m ensures Lookup(orgs, m) == WithNodes(orgs0, m, NodesOf(spec, nodes, m)) {
      AddedOrderers(spec, orgs0, nodes, m);
    }
  }

  /** The lists the per-organisation loop starts from. */
  function Listed(spec: Spec, clusterPeers: seq<Peer>): seq<Peer> {
    Filter(clusterPeers, TopLevel(spec))
  }

  function Organizations(spec: Spec, peerOrgs: map<string, seq<Peer>>, nodes: seq<OrdererNode>): Orgs {
    AddOrderers(spec, FilteredOrgs(spec, peerOrgs), nodes)
  }

  /** Every non-empty list stands under an organisation that is there. */
  ghost predicate KeysPresent(orgs: Orgs, config: Config) {
    forall m :: m in config && config[m] != [] ==> m in orgs
  }

  /** The peers and organisations handed to the template. */
  method Reconcile(spec: Spec, clusterPeers: seq<Peer>, nodes: seq<OrdererNode>)
    returns (r: Option<(seq<Peer>, Orgs)>, ghost order: Entries)
    ensures r.None? <==> !KeysPresent(Organizations(spec, Grouped(clusterPeers), nodes), spec.organizationConfig)
    ensures r.Some? ==>
      (Iterates(order, spec.organizationConfig)
       && r == Turns(Listed(spec, clusterPeers), Organizations(spec, Grouped(clusterPeers), nodes), order))
  {
    var peerOrgs := GroupPeers(clusterPeers);
    var orgs := OrganizationsOf(spec, peerOrgs);
    orgs := OrganizationsWithOrderers(spec, orgs, nodes);
    var peers := FilterPeers(clusterPeers, TopLevel(spec));
    r, order := ConfigureOrganizations(spec.organizationConfig, peers, orgs);
  }

  // ----- Filtering -----

  lemma {:induction false} FilterConcat(a: seq<Peer>, b: seq<Peer>, keep: Peer -> bool)
    ensures Filter(a + b, keep) == Filter(a, keep) + Filter(b, keep)
    decreases |b|
  {
    if b == [] {
      assert a + b == a;
    } else {
      assert (a + b)[..|a + b| - 1] == a + b[..|b| - 1];
      FilterConcat(a, b[..|b| - 1], keep);
    }
  }

  lemma {:induction false} FilterMembers(s: seq<Peer>, keep: Peer -> bool)
    ensures forall x :: x in Filter(s, keep) <==> x in s && keep(x)
  {
    if s != [] {
      FilterMembers(s[..|s| - 1], keep);
      assert s == s[..|s| - 1] + [s[|s| - 1]];
    }
  }

  lemma {:induction false} FilterFilter(s: seq<Peer>, f: Peer -> bool, g: Peer -> bool, h: Peer -> bool)
    requires forall x :: x in s ==> (h(x) <==> f(x) && g(x))
    ensures Filter(Filter(s, f), g) == Filter(s, h)
  {
    if s != [] {
      var front, x := s[..|s| - 1], s[|s| - 1];
      assert x in s;
      FilterFilter(front, f, g, h);
      FilterConcat(Filter(front, f), [x], g);
      assert Filter([x], g) == if g(x) then [x] else [];
      assert Filter(front, f) + [] == Filter(front, f);
    }
  }

  lemma {:induction false} SelectMembers(peers: seq<Peer>, refs: seq<PeerRef>)
    ensures forall p :: p in Select(peers, refs) <==> p in peers && p.replicas > 0 && RefOf(p) in refs
  {
    if refs != [] {
      var last := refs[|refs| - 1];
      SelectMembers(peers, refs[..|refs| - 1]);
      FilterMembers(peers, Named(last));
      assert refs == refs[..|refs| - 1] + [last];
    }
  }

  lemma {:induction false} FilterNothing(s: seq<Peer>, keep: Peer -> bool)
    requires forall x :: x in s ==> !keep(x)
    ensures Filter(s, keep) == []
  {
    if s != [] { FilterNothing(s[..|s| - 1], keep); }
  }

  lemma {:induction false} AddOrderersPeers(spec: Spec, orgs: Orgs, nodes: seq<OrdererNode>)
    ensures forall m :: m in orgs ==> m in AddOrderers(spec, orgs, nodes)
    ensures forall m :: m in AddOrderers(spec, orgs, nodes) ==>
      AddOrderers(spec, orgs, nodes)[m].peers == if m in orgs then orgs[m].peers else []
  {
    if nodes != [] { AddOrderersPeers(spec, orgs, nodes[..|nodes| - 1]); }
  }
}
