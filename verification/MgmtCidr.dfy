/**
 Cluster validation: names, roles and interface references, and above all that the internal
 service range shares no address with any network the cluster really uses.
 */
module MgmtCidr {
  import opened Basics

  type Address = bv32

  /** The first sixteen bits of an IPv6 address: all the validator can tell apart of one. */
  type Head = bv16

  /** What net.ParseIP makes of a text; an IPv4 address in mapped notation is an IPv4 address. */
  datatype Ip = NoIp | IPv6(head: Head) | IPv4(a: Address)

  /** What net.ParseCIDR makes of one: bases are already masked, except for an IPv4 address in mapped notation. */
  datatype Cidr =
    | Absent | Malformed | Cidr6(head: Head) | Cidr4(base: Address, ones: nat) | Mapped(a: Address, ones: nat)

  /** A network: every address that agrees with the base under the mask. */
  datatype Net = Net(base: Address, mask: Address)

  predicate Contains(n: Net, x: Address) { n.base & n.mask == x & n.mask }

  predicate Masked(n: Net) { n.base == n.base & n.mask }

  /** One block's base lies in the other: all the validator compares. */
  predicate Overlaps(m: Net, n: Net) { Contains(m, n.base) || Contains(n, m.base) }

  ghost predicate Share(m: Net, n: Net) { exists x: Address :: Contains(m, x) && Contains(n, x) }

  function PrefixMask(ones: nat): Address
    requires ones <= 32
  {
    if ones == 0 then 0 else 0xFFFF_FFFF << (32 - ones)
  }

  /** Ones, then zeros. */
  predicate Contiguous(mask: Address) { (!mask) & (!mask + 1) == 0 }

  /** One mask covers the other: the blocks are nested or disjoint. */
  predicate Comparable(m: Address, n: Address) { m & n == m || m & n == n }

  lemma ContiguousAreComparable(m: Address, n: Address)
    requires Contiguous(m) && Contiguous(n)
    ensures Comparable(m, n)
  {
  }

  lemma SharedUnderCover(m: Net, n: Net, x: Address)
    requires m.mask & n.mask == m.mask && Contains(m, x) && Contains(n, x)
    ensures Contains(m, n.base)
  {
  }

  /** For two blocks whose masks nest, comparing the two bases is enough, and no more than enough. */
  lemma BasesDecide(m: Net, n: Net)
    requires Comparable(m.mask, n.mask)
    ensures Overlaps(m, n) <==> Share(m, n)
  {
    if Contains(m, n.base) { assert Contains(n, n.base); }
    if Contains(n, m.base) { assert Contains(m, m.base); }
    if x: Address :| Contains(m, x) && Contains(n, x) {
      if m.mask & n.mask == m.mask { SharedUnderCover(m, n, x); } else { SharedUnderCover(n, m, x); }
    }
  }

  lemma Itself(m: Address)
    ensures Masked(Net(m, m))
  {
  }

  lemma Union(m: Address, n: Address)
    ensures Contains(Net(m, m), m | n) && Contains(Net(n, n), m | n)
  {
  }

  lemma Uncovered(m: Address, n: Address)
    requires !Comparable(m, n)
    ensures !Contains(Net(m, m), n) && !Contains(Net(n, n), m)
  {
  }

  /** Where the masks do not nest the comparison misses shared addresses: here is a pair it misses. */
  lemma BasesMissOverlap(m: Address, n: Address) returns (a: Net, b: Net, x: Address)
    requires !Comparable(m, n)
    ensures a.mask == m && b.mask == n && Masked(a) && Masked(b)
    ensures !Overlaps(a, b) && Contains(a, x) && Contains(b, x)
  {
    hide Comparable;
    hide Contains;
    hide Masked;
    a, b, x := Net(m, m), Net(n, n), m | n;
    Union(m, n);
    Uncovered(m, n);
    Itself(m);
    Itself(n);
  }

  /** So the comparison is exact for all addresses under two masks if and only if the masks nest. */
  lemma ExactIffComparable(m: Address, n: Address)
    ensures Comparable(m, n) <==> forall a: Net, b: Net ::
        a.mask == m && b.mask == n ==> (Overlaps(a, b) <==> Share(a, b))
  {
    if Comparable(m, n) {
      forall a: Net, b: Net | a.mask == m && b.mask == n ensures Overlaps(a, b) <==> Share(a, b) {
        BasesDecide(a, b);
      }
    } else {
      var a, b, x := BasesMissOverlap(m, n);
      assert Share(a, b);
    }
  }

  // ------------------------------------------------------------------ the cluster

  datatype Iface = Iface(id: string, name: string, addr: Option<Ip>, mask: Ip)

  datatype Role = Control | Compute | Storage | ControlConverged | EdgeCore | Moderator

  /** Interface references by id, empty when unset; `role` is None for a name outside the list. */
  datatype Node = Node(
    hostname: string, ifs: seq<Iface>, gateway: Ip, role: Option<Role>,
    mgmtIF: string, providerIF: string, overlayIF: string, storIF: string, storIFBackend: string)

  datatype Cluster = Cluster(
    id: string, name: string, dns: seq<Ip>, ha: bool, virtualIPSet: bool, virtualHostnameSet: bool, nodes: seq<Node>,
    mgmt: Cidr, extIP: Ip, virtualIP: Ip, createExternal: bool, external: Cidr)

  function HostNet(ip: Ip): Option<Net> {
    if ip.IPv4? then Some(Net(ip.a, 0xFFFF_FFFF)) else None
  }

  /** An interface's subnet: its address under its mask, or the bare address when the mask is unreadable. */
  function IfaceNet(f: Iface): Option<Net> {
    if f.addr.None? || !f.addr.value.IPv4? then None
    else if f.mask.IPv4? then Some(Net(f.addr.value.a & f.mask.a, f.mask.a))
    else HostNet(f.addr.value)
  }

  /** A block in mapped notation is an IPv4 network only if its prefix covers the whole mapped part. */
  function CidrNet(c: Cidr): Option<Net> {
    if c.Cidr4? && c.ones <= 32 then Some(Net(c.base, PrefixMask(c.ones)))
    else if c.Mapped? && 96 <= c.ones <= 128 then Some(Net(c.a & PrefixMask(c.ones - 96), PrefixMask(c.ones - 96)))
    else None
  }

  function CidrHead(c: Cidr): Option<Head> {
    if c.Cidr6? then Some(c.head) else if c.Mapped? && c.ones < 96 then Some(0) else None
  }

  function HostHead(ip: Ip): Option<Head> { if ip.IPv6? then Some(ip.head) else None }

  /** An IPv6 address under a readable IPv4 mask is no network at all. */
  function IfaceHead(f: Iface): Option<Head> {
    if f.addr.None? || f.mask.IPv4? then None else HostHead(f.addr.value)
  }

  function ExternalHead(c: Cluster): Option<Head> { if c.createExternal then CidrHead(c.external) else None }

  function External(c: Cluster): Option<Net> { if c.createExternal then CidrNet(c.external) else None }

  /** A network the cluster really uses; a single address is a network of one. */
  ghost predicate Uses(c: Cluster, n: Net) {
    || (exists i, j :: 0 <= i < |c.nodes| && 0 <= j < |c.nodes[i].ifs| && IfaceNet(c.nodes[i].ifs[j]) == Some(n))
    || (exists i :: 0 <= i < |c.nodes| && HostNet(c.nodes[i].gateway) == Some(n))
    || (exists i :: 0 <= i < |c.dns| && HostNet(c.dns[i]) == Some(n))
    || HostNet(c.extIP) == Some(n) || HostNet(c.virtualIP) == Some(n) || External(c) == Some(n)
  }

  ghost predicate InUse(c: Cluster, x: Address) { exists n :: Uses(c, n) && Contains(n, x) }

  predicate ContiguousMask(f: Iface) { f.mask.IPv4? ==> Contiguous(f.mask.a) }

  ghost predicate ContiguousMasks(c: Cluster) {
    forall i, j :: 0 <= i < |c.nodes| && 0 <= j < |c.nodes[i].ifs| ==> ContiguousMask(c.nodes[i].ifs[j])
  }

  predicate Clear(m: Net, n: Option<Net>) { n.None? || !Overlaps(m, n.value) }

  predicate NodeClear(m: Net, n: Node) {
    Clear(m, HostNet(n.gateway)) && forall j :: 0 <= j < |n.ifs| ==> Clear(m, IfaceNet(n.ifs[j]))
  }

  /** Every comparison the validator makes comes out clear. */
  predicate AllClear(c: Cluster, m: Net) {
    && (forall i :: 0 <= i < |c.nodes| ==> NodeClear(m, c.nodes[i]))
    && (forall i :: 0 <= i < |c.dns| ==> Clear(m, HostNet(c.dns[i])))
    && Clear(m, HostNet(c.extIP)) && Clear(m, HostNet(c.virtualIP)) && Clear(m, External(c))
  }

  /**
   The block the range is compared as. Written in mapped notation it is the IPv6 block of that
   many bits from ::, whatever IPv4 address it names.
   */
  datatype Range = Four(m: Net) | Six(ones: nat)

  predicate InSix(ones: nat, head: Head) { if ones == 8 then head & 0xFF00 == 0 else head == 0 }

  /** One comparison, against a network given by its IPv4 block or its IPv6 head, if it is either. */
  predicate Passes(r: Range, n: Option<Net>, h: Option<Head>) {
    match r
    case Four(m) => Clear(m, n)
    case Six(ones) => h.None? || !InSix(ones, h.value)
  }

  predicate NodePasses(r: Range, n: Node) {
    Passes(r, HostNet(n.gateway), HostHead(n.gateway)) &&
    forall j :: 0 <= j < |n.ifs| ==> Passes(r, IfaceNet(n.ifs[j]), IfaceHead(n.ifs[j]))
  }

  predicate AllPass(c: Cluster, r: Range) {
    && (forall i :: 0 <= i < |c.nodes| ==> NodePasses(r, c.nodes[i]))
    && (forall i :: 0 <= i < |c.dns| ==> Passes(r, HostNet(c.dns[i]), HostHead(c.dns[i])))
    && Passes(r, HostNet(c.extIP), HostHead(c.extIP)) && Passes(r, HostNet(c.virtualIP), HostHead(c.virtualIP))
    && Passes(r, External(c), ExternalHead(c))
  }

  /** What the range's text is compared as, if its notation and prefix length are accepted. */
  function RangeOf(g: Cidr): Option<Range>
    requires g.Cidr4? ==> g.ones <= 32
  {
    match g
    case Cidr4(base, ones) => if ones in {8, 16} then Some(Four(Net(base, PrefixMask(ones)))) else None
    case Mapped(_, ones) => if ones in {8, 16} then Some(Six(ones)) else None
    case _ => None
  }

  method Check(r: Range, n: Option<Net>, h: Option<Head>) returns (ok: bool)
    ensures ok <==> Passes(r, n, h)
  {
    match r {
      case Four(m) => ok := !(n.Some? && (Contains(m, n.value.base) || Contains(n.value, m.base)));
      case Six(ones) => ok := !(h.Some? && InSix(ones, h.value));
    }
  }

  method ValidateMgmtCidr(c: Cluster) returns (ok: bool)
    requires c.mgmt.Cidr4? ==> c.mgmt.ones <= 32
    ensures ok <==> ValidRange(c)
  {
    if c.mgmt == Absent { return true; }
    if !c.mgmt.Cidr4? && !c.mgmt.Mapped? { return false; }
    if c.mgmt.ones != 16 && c.mgmt.ones != 8 { return false; }
    var r := if c.mgmt.Cidr4? then Four(Net(c.mgmt.base, PrefixMask(c.mgmt.ones))) else Six(c.mgmt.ones);
    hide Passes;
    for i := 0 to |c.nodes|
      invariant forall k :: 0 <= k < i ==> NodePasses(r, c.nodes[k])
    {
      var n := c.nodes[i];
      for j := 0 to |n.ifs|
        invariant forall k :: 0 <= k < j ==> Passes(r, IfaceNet(n.ifs[k]), IfaceHead(n.ifs[k]))
      {
        ok := Check(r, IfaceNet(n.ifs[j]), IfaceHead(n.ifs[j]));
        if !ok {
          assert !NodePasses(r, c.nodes[i]);
          return;
        }
      }
      ok := Check(r, HostNet(n.gateway), HostHead(n.gateway));
      if !ok {
        assert !NodePasses(r, c.nodes[i]);
        return;
      }
    }
    for i := 0 to |c.dns|
      invariant forall k :: 0 <= k < i ==> Passes(r, HostNet(c.dns[k]), HostHead(c.dns[k]))
    {
      ok := Check(r, HostNet(c.dns[i]), HostHead(c.dns[i]));
      if !ok { return; }
    }
    ok := Check(r, HostNet(c.extIP), HostHead(c.extIP));
    if !ok { return; }
    ok := Check(r, HostNet(c.virtualIP), HostHead(c.virtualIP));
    if !ok { return; }
    ok := Check(r, External(c), ExternalHead(c));
  }

  /** A range in dotted notation passes exactly when its IPv4 comparisons come out clear. */
  lemma FourPasses(c: Cluster, m: Net)
    ensures AllPass(c, Four(m)) <==> AllClear(c, m)
  {
    forall i | 0 <= i < |c.nodes| ensures NodePasses(Four(m), c.nodes[i]) <==> NodeClear(m, c.nodes[i]) {}
  }

  // -------------------------------------------------------------- disjointness

  lemma PrefixesAreContiguous(ones: nat)
    requires ones <= 32
    ensures Contiguous(PrefixMask(ones))
  {
    var zeros := (32 - ones) as bv32;
    assert zeros <= 32;
    ShiftedIsContiguous(zeros);
  }

  lemma ShiftedIsContiguous(zeros: bv32)
    requires zeros <= 32
    ensures Contiguous((0xFFFF_FFFF as bv32) << zeros)
  {
  }

  lemma AllOnesContiguous()
    ensures Contiguous(0xFFFF_FFFF)
  {
  }

  lemma UsedMasksContiguous(c: Cluster, n: Net)
    requires ContiguousMasks(c) && Uses(c, n)
    ensures Contiguous(n.mask)
  {
    hide Contiguous;
    AllOnesContiguous();
    if i, j :| 0 <= i < |c.nodes| && 0 <= j < |c.nodes[i].ifs| && IfaceNet(c.nodes[i].ifs[j]) == Some(n) {
      assert ContiguousMask(c.nodes[i].ifs[j]);
    } else if External(c) == Some(n) {
      PrefixesAreContiguous(if c.external.Cidr4? then c.external.ones else c.external.ones - 96);
    }
  }

  lemma ClearOfAllUsed(c: Cluster, m: Net)
    ensures AllClear(c, m) <==> forall n :: Uses(c, n) ==> !Overlaps(m, n)
  {
    hide Overlaps;
    hide IfaceNet;
    hide HostNet;
    hide External;
    if forall n :: Uses(c, n) ==> !Overlaps(m, n) {
      forall o: Option<Net> | o.None? || Uses(c, o.value) ensures Clear(m, o) {}
      forall i | 0 <= i < |c.nodes| ensures NodeClear(m, c.nodes[i]) {
        forall j | 0 <= j < |c.nodes[i].ifs| ensures Clear(m, IfaceNet(c.nodes[i].ifs[j])) {}
      }
    }
  }

  /**
   Disjoint service range. With contiguous interface masks the validator's comparisons all come
   out clear if and only if no address at all lies both in the range and in something the cluster
   uses: an interface's subnet, a gateway, a name server, the external or virtual address, the
   external network.
   */
  lemma DisjointServiceRange(c: Cluster, ones: nat, base: Address)
    requires ContiguousMasks(c) && ones <= 32
    ensures var m := Net(base, PrefixMask(ones));
            AllClear(c, m) <==> forall x: Address :: !(Contains(m, x) && InUse(c, x))
  {
    var m := Net(base, PrefixMask(ones));
    PrefixesAreContiguous(ones);
    ClearOfAllUsed(c, m);
    hide *;
    forall n | Uses(c, n) ensures Overlaps(m, n) <==> Share(m, n) {
      UsedMasksContiguous(c, n);
      ContiguousAreComparable(m.mask, n.mask);
      BasesDecide(m, n);
    }
    ShareIsInUse(c, m);
  }

  lemma ShareIsInUse(c: Cluster, m: Net)
    ensures (forall n :: Uses(c, n) ==> !Share(m, n)) <==> (forall x: Address :: !(Contains(m, x) && InUse(c, x)))
  {
    hide Uses;
    hide Contains;
    if n :| Uses(c, n) && Share(m, n) {
      var x: Address :| Contains(m, x) && Contains(n, x);
      assert Contains(m, x) && InUse(c, x);
    }
  }

  // --------------------------------------------------------- the whole validation

  predicate ControlFunction(r: Role) { r == Control || r == ControlConverged || r == EdgeCore || r == Moderator }

  /** The label of an interface, "None" when the id is unknown: an interface really called None counts as missing. */
  function IfName(ifs: seq<Iface>, id: string): string {
    if ifs == [] then "None" else if ifs[0].id == id then ifs[0].name else IfName(ifs[1..], id)
  }

  predicate Resolves(n: Node, id: string) { IfName(n.ifs, id) != "None" }

  function Required(n: Node, r: Role): seq<string> {
    if r == Compute || r == ControlConverged || r == EdgeCore then [n.mgmtIF, n.providerIF, n.overlayIF, n.storIF]
    else [n.mgmtIF, n.storIF]
  }

  predicate ValidNode(n: Node) {
    && n.hostname != "" && n.role.Some?
    && (forall k :: 0 <= k < |Required(n, n.role.value)| ==>
          Required(n, n.role.value)[k] != "" && Resolves(n, Required(n, n.role.value)[k]))
    && (n.storIFBackend == "" || Resolves(n, n.storIFBackend))
  }

  predicate ValidRange(c: Cluster)
    requires c.mgmt.Cidr4? ==> c.mgmt.ones <= 32
  {
    c.mgmt == Absent || (RangeOf(c.mgmt).Some? && AllPass(c, RangeOf(c.mgmt).value))
  }

  /** What an accepted cluster is. */
  predicate Valid(c: Cluster)
    requires c.mgmt.Cidr4? ==> c.mgmt.ones <= 32
  {
    && |c.id| >= 12 && c.name != ""
    && c.dns != [] && (forall i :: 0 <= i < |c.dns| ==> c.dns[i] != NoIp)
    && (c.ha ==> c.virtualIPSet && c.virtualHostnameSet)
    && c.nodes != [] && ValidNodes(c.nodes) && ValidRange(c)
  }

  predicate HasRole(nodes: seq<Node>, control: bool) {
    exists i :: 0 <= i < |nodes| && nodes[i].role.Some? && ControlFunction(nodes[i].role.value) == control
  }

  /** Each node in order, no two of one name, and somebody to control those that cannot. */
  predicate ValidNodes(nodes: seq<Node>) {
    && (forall i :: 0 <= i < |nodes| ==> ValidNode(nodes[i]))
    && (forall i, j :: 0 <= i < j < |nodes| ==> nodes[i].hostname != nodes[j].hostname)
    && (HasRole(nodes, false) ==> HasRole(nodes, true))
  }

  method NodeRefsOk(n: Node) returns (ok: bool)
    requires n.hostname != "" && n.role.Some?
    ensures ok <==> ValidNode(n)
  {
    var keys := Required(n, n.role.value);
    for k := 0 to |keys|
      invariant forall i :: 0 <= i < k ==> keys[i] != "" && Resolves(n, keys[i])
    {
      if keys[k] == "" || IfName(n.ifs, keys[k]) == "None" { return false; }
    }
    return n.storIFBackend == "" || IfName(n.ifs, n.storIFBackend) != "None";
  }

  method Validate(c: Cluster) returns (ok: bool)
    requires c.mgmt.Cidr4? ==> c.mgmt.ones <= 32
    ensures ok <==> Valid(c)
  {
    if |c.id| < 12 || c.name == "" || |c.dns| == 0 { return false; }
    for i := 0 to |c.dns|
      invariant forall k :: 0 <= k < i ==> c.dns[k] != NoIp
    {
      if c.dns[i] == NoIp { return false; }
    }
    if c.ha && (!c.virtualIPSet || !c.virtualHostnameSet) { return false; }
    if |c.nodes| == 0 { return false; }
    hide ValidNodes;
    var nodesOk := CheckNodes(c.nodes);
    if !nodesOk { return false; }
    ok := ValidateMgmtCidr(c);
  }

  method CheckNodes(nodes: seq<Node>) returns (ok: bool)
    ensures ok <==> ValidNodes(nodes)
  {
    hide ValidNode;
    var seen: set<string> := {};
    var hasControl, needsControl := false, false;
    for i := 0 to |nodes|
      invariant forall k :: 0 <= k < i ==> ValidNode(nodes[k]) && nodes[k].role.Some?
      invariant seen == set k | 0 <= k < i :: nodes[k].hostname
      invariant forall j, k :: 0 <= j < k < i ==> nodes[j].hostname != nodes[k].hostname
      invariant hasControl <==> exists k :: 0 <= k < i && ControlFunction(nodes[k].role.value)
      invariant needsControl <==> exists k :: 0 <= k < i && !ControlFunction(nodes[k].role.value)
    {
      var n := nodes[i];
      if n.hostname == "" || n.role.None? {
        MalformedNode(n);
        return false;
      }
      if n.hostname in seen { return false; }
      seen := seen + {n.hostname};
      if ControlFunction(n.role.value) { hasControl := true; } else { needsControl := true; }
      var refs := NodeRefsOk(n);
      if !refs { return false; }
    }
    ok := !(needsControl && !hasControl);
  }

  lemma MalformedNode(n: Node)
    requires n.hostname == "" || n.role.None?
    ensures !ValidNode(n)
  {
  }

  /** The id is set, and the first interface that bears it has a name of its own. */
  ghost predicate Points(n: Node, id: string) {
    id != "" && exists i :: Bears(n.ifs, id, i) && n.ifs[i].name != "None"
  }

  ghost predicate Bears(ifs: seq<Iface>, id: string, i: int) {
    0 <= i < |ifs| && ifs[i].id == id && forall j :: 0 <= j < i ==> ifs[j].id != id
  }

  lemma {:induction false} IfNameMeans(ifs: seq<Iface>, id: string)
    ensures IfName(ifs, id) != "None" <==> exists i :: Bears(ifs, id, i) && ifs[i].name != "None"
    decreases |ifs|
  {
    if ifs != [] {
      if ifs[0].id == id {
        assert Bears(ifs, id, 0);
      } else {
        IfNameMeans(ifs[1..], id);
        if i :| Bears(ifs[1..], id, i) && ifs[1..][i].name != "None" {
          assert ifs[1..][i] == ifs[i + 1];
          forall j | 0 <= j < i + 1 ensures ifs[j].id != id {
            if j > 0 { assert ifs[1..][j - 1] == ifs[j]; }
          }
          assert Bears(ifs, id, i + 1) && ifs[i + 1].name != "None";
        }
        if i :| Bears(ifs, id, i) && ifs[i].name != "None" {
          assert ifs[1..][i - 1] == ifs[i];
          forall j | 0 <= j < i - 1 ensures ifs[1..][j].id != id { assert ifs[1..][j] == ifs[j + 1]; }
          assert Bears(ifs[1..], id, i - 1);
        }
      }
    }
  }

  /**
   What a node must have, role by role: a management and a storage interface; where it computes, a
   provider and an overlay interface too; a storage backend only if one is named.
   */
  lemma AcceptedNode(n: Node)
    ensures ValidNode(n) <==>
              && n.hostname != "" && n.role.Some? && Points(n, n.mgmtIF) && Points(n, n.storIF)
              && (n.role.value in {Compute, ControlConverged, EdgeCore} ==>
                    Points(n, n.providerIF) && Points(n, n.overlayIF))
              && (n.storIFBackend != "" ==> Points(n, n.storIFBackend))
  {
    if n.role.Some? {
      forall id ensures id != "" && Resolves(n, id) <==> Points(n, id) {
        IfNameMeans(n.ifs, id);
      }
      hide Points;
      hide Resolves;
      var keys := Required(n, n.role.value);
      var wide := n.role.value in {Compute, ControlConverged, EdgeCore};
      assert keys == if wide then [n.mgmtIF, n.providerIF, n.overlayIF, n.storIF] else [n.mgmtIF, n.storIF];
      assert keys[0] == n.mgmtIF && keys[|keys| - 1] == n.storIF;
      assert wide ==> keys[1] == n.providerIF && keys[2] == n.overlayIF;
    }
  }

  /** Every accepted cluster has a node to control it. */
  lemma AcceptedIsControlled(c: Cluster)
    requires (c.mgmt.Cidr4? ==> c.mgmt.ones <= 32) && Valid(c)
    ensures exists i :: 0 <= i < |c.nodes| && c.nodes[i].role.Some?
                        && c.nodes[i].role.value in {Control, ControlConverged, EdgeCore, Moderator}
  {
    hide ValidRange;
    assert ValidNode(c.nodes[0]);
    if HasRole(c.nodes, false) {
      assert HasRole(c.nodes, true);
    } else {
      assert HasRole(c.nodes, true);
    }
  }

  /** The IPv4 addresses a range means. */
  function Meant(g: Cidr): Net
    requires (g.Cidr4? || g.Mapped?) && g.ones in {8, 16}
  {
    if g.Cidr4? then Net(g.base, PrefixMask(g.ones)) else Net(g.a & PrefixMask(g.ones), PrefixMask(g.ones))
  }

  ghost predicate Disjoint(c: Cluster, m: Net) { forall x: Address :: !(Contains(m, x) && InUse(c, x)) }

  /**
   An accepted cluster with a service range of its own, in dotted notation, keeps it apart from every
   network it uses.
   */
  lemma AcceptedIsDisjoint(c: Cluster)
    requires c.mgmt.Cidr4? && c.mgmt.ones <= 32 && Valid(c) && ContiguousMasks(c)
    ensures c.mgmt.ones in {8, 16} && Disjoint(c, Meant(c.mgmt))
  {
    hide ValidNode;
    DisjointServiceRange(c, c.mgmt.ones, c.mgmt.base);
    FourPasses(c, Net(c.mgmt.base, PrefixMask(c.mgmt.ones)));
    hide AllClear;
    hide AllPass;
    hide InUse;
    hide Contains;
  }

  // ------------------------------------------------------ where the promise ends

  /** A cluster of one control node with one interface. */
  function OneNode(addr: Address, mask: Address, mgmt: Cidr): Cluster {
    var node := Node("n", [Iface("i", "IF.1", Some(IPv4(addr)), IPv4(mask))], NoIp, Some(Control), "i", "", "", "i",
        "");
    Cluster("abcdefghijkl", "c", [IPv4(0x0808_0808)], false, false, false, [node], mgmt, NoIp, NoIp, false, Absent)
  }

  lemma OneNodeIsValid(addr: Address, mask: Address, mgmt: Cidr)
    requires mgmt.Cidr4? ==> mgmt.ones <= 32
    ensures Valid(OneNode(addr, mask, mgmt)) <==> ValidRange(OneNode(addr, mask, mgmt))
  {
    var c := OneNode(addr, mask, mgmt);
    hide ValidRange;
    assert IfName(c.nodes[0].ifs, "i") == "IF.1" && "IF.1"[0] != "None"[0];
    assert ValidNode(c.nodes[0]);
    assert |c.id| == 12;
    assert ValidNodes(c.nodes);
  }

  lemma OwnAddress(a: Address, mask: Address)
    ensures Contains(Net(a & mask, mask), a)
  {
  }

  lemma OneNodeUses(addr: Address, mask: Address, mgmt: Cidr, x: Address)
    requires Contains(Net(addr & mask, mask), x)
    ensures InUse(OneNode(addr, mask, mgmt), x)
  {
    hide Contains;
    var c := OneNode(addr, mask, mgmt);
    var n := Net(addr & mask, mask);
    assert IfaceNet(c.nodes[0].ifs[0]) == Some(n);
    hide IfaceNet;
    assert Uses(c, n);
    hide Uses;
  }

  lemma OneNodePassesSix(addr: Address, mask: Address, mgmt: Cidr, ones: nat)
    ensures AllPass(OneNode(addr, mask, mgmt), Six(ones))
  {
    hide InSix;
    hide PrefixMask;
  }

  /**
   No comparison with an IPv4 network can fail a range in mapped notation: this one is accepted on top
   of the range it names.
   */
  lemma MappedIsUnchecked(a: Address, mask: Address, ones: nat)
    requires ones in {8, 16}
    ensures var c := OneNode(a, mask, Mapped(a, ones));
            Valid(c) && Contains(Meant(c.mgmt), a) && InUse(c, a)
  {
    OwnAddress(a, PrefixMask(ones));
    OwnAddress(a, mask);
    hide Contains;
    hide AllPass;
    hide PrefixMask;
    OneNodePassesSix(a, mask, Mapped(a, ones), ones);
    OneNodeIsValid(a, mask, Mapped(a, ones));
    OneNodeUses(a, mask, Mapped(a, ones), a);
    hide InUse;
    hide Valid;
  }

  /** Every accepted cluster with this range and contiguous masks keeps it apart from its networks. */
  ghost predicate Keeps(g: Cidr)
    requires (g.Cidr4? || g.Mapped?) && g.ones in {8, 16}
  {
    forall c: Cluster :: c.mgmt == g && Valid(c) && ContiguousMasks(c) ==> Disjoint(c, Meant(g))
  }

  /** Of the ranges the validator accepts, exactly those in dotted notation are kept apart. */
  lemma KeptIffDotted(g: Cidr)
    requires (g.Cidr4? || g.Mapped?) && g.ones in {8, 16}
    ensures Keeps(g) <==> g.Cidr4?
  {
    hide Valid;
    hide Disjoint;
    hide ContiguousMasks;
    if g.Cidr4? {
      forall c: Cluster | c.mgmt == g && Valid(c) && ContiguousMasks(c) ensures Disjoint(c, Meant(g)) {
        AcceptedIsDisjoint(c);
      }
    } else {
      var c := OneNode(g.a, 0xFFFF_FF00, g);
      MappedIsUnchecked(g.a, 0xFFFF_FF00, g.ones);
      OneNodeContiguous(g.a, 0xFFFF_FF00, g);
      Meets(c, Meant(g), g.a);
    }
  }

  lemma Meets(c: Cluster, m: Net, x: Address)
    requires Contains(m, x) && InUse(c, x)
    ensures !Disjoint(c, m)
  {
    hide InUse;
  }

  lemma OneNodeContiguous(addr: Address, mask: Address, mgmt: Cidr)
    requires Contiguous(mask)
    ensures ContiguousMasks(OneNode(addr, mask, mgmt))
  {
  }

  lemma ClearIsAccepted(addr: Address, mask: Address, base: Address, ones: nat)
    requires ones in {8, 16} && AllClear(OneNode(addr, mask, Cidr4(base, ones)), Net(base, PrefixMask(ones)))
    ensures Valid(OneNode(addr, mask, Cidr4(base, ones)))
  {
    hide AllClear;
    hide AllPass;
    hide PrefixMask;
    FourPasses(OneNode(addr, mask, Cidr4(base, ones)), Net(base, PrefixMask(ones)));
    OneNodeIsValid(addr, mask, Cidr4(base, ones));
    hide Valid;
  }

  lemma ScatteredMaskIsClear()
    ensures AllClear(OneNode(0x0A05_0107, 0xFF00_FF00, Cidr4(0x0AFE_0000, 16)), Net(0x0AFE_0000, PrefixMask(16)))
  {
    assert PrefixMask(16) == 0xFFFF_0000;
    hide PrefixMask;
  }

  lemma ScatteredMaskReaches()
    ensures Contains(Net(0x0A05_0107 & 0xFF00_FF00, 0xFF00_FF00), 0x0AFE_0105)
    ensures Contains(Meant(Cidr4(0x0AFE_0000, 16)), 0x0AFE_0105)
  {
  }

  /**
   Without contiguous masks the promise fails in dotted notation too: here is an accepted cluster that
   uses an address of the default range.
   */
  lemma ScatteredMaskSlipsThrough()
    ensures var c := OneNode(0x0A05_0107, 0xFF00_FF00, Cidr4(0x0AFE_0000, 16));
            Valid(c) && Contains(Meant(c.mgmt), 0x0AFE_0105) && InUse(c, 0x0AFE_0105)
  {
    hide Contains;
    hide InUse;
    hide Valid;
    hide AllClear;
    hide PrefixMask;
    hide Meant;
    ScatteredMaskReaches();
    ScatteredMaskIsClear();
    ClearIsAccepted(0x0A05_0107, 0xFF00_FF00, 0x0AFE_0000, 16);
    OneNodeUses(0x0A05_0107, 0xFF00_FF00, Cidr4(0x0AFE_0000, 16), 0x0AFE_0105);
  }
}
