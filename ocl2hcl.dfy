/** The descriptor-to-HCL translator, as the structure of the Terraform blocks it emits:
    security-group rules expanded from port lists, security groups, VPCs, subnets with
    their gateways, VMs whose path references are resolved to element names, and storage
    volumes. A section the descriptor lacks is an `IllegalArgumentException`. */
module Ocl2Hcl {
  import opened Common
  import opened Text
  import opened Descriptor

  /** Applies `f` to every element, failing with the first failure. */
  function MapAll<A, B>(xs: seq<A>, f: A -> Result<B>): (r: Result<seq<B>>)
    ensures r.Ok? <==> forall i :: 0 <= i < |xs| ==> f(xs[i]).Ok?
    ensures r.Ok? ==> |r.value| == |xs| && forall i :: 0 <= i < |xs| ==> f(xs[i]) == Ok(r.value[i])
  {
    if xs == [] then Ok([])
    else
      match f(xs[0])
      case Err(e) => Err(e)
      case Ok(y) =>
        match MapAll(xs[1..], f)
        case Err(e) => Err(e)
        case Ok(ys) =>
          assert forall i :: 1 <= i < |xs| ==> xs[i] == xs[1..][i - 1];
          Ok([y] + ys)
  }

  // ---------------------------------------------------------------------------------
  // Port lists

  /** One entry of a rule's port list: a single port `p` is the range `p-p`. */
  datatype PortRange = PortRange(min: int, max: int)

  /** The entries of a comma-separated port list. */
  function PortEntries(ports: string): seq<string>
  {
    JavaSplit(ports, ',')
  }

  /** `Integer.parseInt` of a trimmed entry: a 32-bit value, or a `NumberFormatException`
      naming the text. */
  function ParsePort(s: string): (r: Result<int>)
    ensures r.Ok? ==> ParseInt(Trim(s)) == Some(r.value)
    ensures r.Err? ==> ParseInt(Trim(s)).None?
    ensures r.Ok? ==> IntMin <= r.value <= IntMax
    ensures r.Err? ==> r.error == NumberFormat(Trim(s))
  {
    match ParseInt(Trim(s))
    case None => Err(NumberFormat(Trim(s)))
    case Some(p) => Ok(p)
  }

  /** An entry, surrounding blanks ignored: `a-b` is the range from `a` to `b`, and any
      other entry is a single port. */
  function ParsePortEntry(entry: string): (r: Result<PortRange>)
    ensures r.Err? ==> r.error.NumberFormat?
    ensures r.Ok? ==> IntMin <= r.value.min <= IntMax && IntMin <= r.value.max <= IntMax
    ensures r.Ok? && '-' !in Trim(entry) ==> r.value.min == r.value.max
  {
    var e := Trim(entry);
    match IndexOf(e, '-')
    case None =>
      (match ParsePort(e)
       case Err(x) => Err(x)
       case Ok(p) => Ok(PortRange(p, p)))
    case Some(k) =>
      (match ParsePort(e[..k])
       case Err(x) => Err(x)
       case Ok(lo) =>
         match ParsePort(e[k + 1..])
         case Err(x) => Err(x)
         case Ok(hi) => Ok(PortRange(lo, hi)))
  }

  /** The canonical text of a port range. */
  function PortEntryText(r: PortRange): string
    requires 0 <= r.min && 0 <= r.max
  {
    if r.min == r.max then NatToString(r.min) else NatToString(r.min) + "-" + NatToString(r.max)
  }

  lemma TrimKeeps(s: string)
    requires s != [] ==> s[0] > ' ' && s[|s| - 1] > ' '
    ensures Trim(s) == s
  {
  }

  lemma ParsePortOfNat(n: nat)
    requires n <= IntMax
    ensures ParsePort(NatToString(n)) == Ok(n)
  {
    TrimKeeps(NatToString(n));
    ParseIntRoundTrip(n);
  }

  lemma DigitsHaveNoDash(s: string)
    requires AllDigits(s)
    ensures '-' !in s
  {
    forall i | 0 <= i < |s| ensures s[i] != '-' {
      assert IsDigit(s[i]);
    }
  }

  /** Every range of non-negative 32-bit ports survives rendering and parsing back. */
  lemma PortEntryRoundTrip(r: PortRange)
    requires 0 <= r.min <= IntMax && 0 <= r.max <= IntMax
    ensures ParsePortEntry(PortEntryText(r)) == Ok(r)
  {
    var a := NatToString(r.min);
    ParsePortOfNat(r.min);
    if r.min == r.max {
      TrimKeeps(a);
      DigitsHaveNoDash(a);
    } else {
      var b := NatToString(r.max);
      var s := a + "-" + b;
      assert s[0] == a[0] && s[|s| - 1] == b[|b| - 1];
      TrimKeeps(s);
      assert s[..|a|] == a;
      DigitsHaveNoDash(a);
      IndexOfAt(s, '-', |a|);
      assert s[..|a|] == a && s[|a| + 1..] == b;
      ParsePortOfNat(r.max);
    }
  }

  // ---------------------------------------------------------------------------------
  // Security-group rules

  datatype RuleBlock = RuleBlock(
    name: string, securityGroupId: string, direction: string, protocol: string,
    portRangeMin: string, portRangeMax: string, remoteIpPrefix: string)

  function SecurityGroupId(group: string): string
  {
    "huaweicloud_networking_secgroup." + group + ".id"
  }

  function DirectionText(d: Direction): (r: string)
    ensures r == "ingress" <==> d == In
    ensures r == "egress" <==> d == Out
  {
    match d
    case In => "ingress"
    case Out => "egress"
  }

  function ProtocolText(p: Protocol): string
  {
    match p
    case Tcp => "tcp"
    case Udp => "udp"
    case Icmp => "icmp"
  }

  /** The block name of the `i`-th port entry of a rule. */
  function RuleBlockName(rule: string, i: nat): string
  {
    rule + "_" + NatToString(i)
  }

  /** Block names of distinct entries of one rule differ. */
  lemma RuleBlockNamesDistinct(rule: string, i: nat, j: nat)
    requires i != j
    ensures RuleBlockName(rule, i) != RuleBlockName(rule, j)
  {
    if RuleBlockName(rule, i) == RuleBlockName(rule, j) {
      var p := rule + "_";
      assert RuleBlockName(rule, i)[|p|..] == NatToString(i);
      assert RuleBlockName(rule, j)[|p|..] == NatToString(j);
      NatToStringInjective(i, j);
    }
  }

  function RuleBlockOf(group: string, rule: SecurityRule, ranges: seq<PortRange>, i: nat): RuleBlock
    requires i < |ranges|
  {
    RuleBlock(
      RuleBlockName(rule.name, i), SecurityGroupId(group), DirectionText(rule.direction),
      ProtocolText(rule.protocol), IntToString(ranges[i].min), IntToString(ranges[i].max), rule.cidr)
  }

  /** One block per port entry of the rule, named after the rule and the entry's index;
      a malformed entry fails the whole rule. */
  function RuleBlocks(group: string, rule: SecurityRule): Result<seq<RuleBlock>>
  {
    match MapAll(PortEntries(rule.ports), ParsePortEntry)
    case Err(e) => Err(e)
    case Ok(ranges) => Ok(seq(|ranges|, i requires 0 <= i < |ranges| => RuleBlockOf(group, rule, ranges, i)))
  }

  /** The blocks of a rule: exactly one per port entry, with pairwise distinct names, each
      pointing at the enclosing group, carrying the rule's direction, protocol and cidr,
      and the bounds the entry gives. */
  lemma RuleBlocksFacts(group: string, rule: SecurityRule)
    ensures RuleBlocks(group, rule).Ok? <==>
      forall i :: 0 <= i < |PortEntries(rule.ports)| ==> ParsePortEntry(PortEntries(rule.ports)[i]).Ok?
    ensures RuleBlocks(group, rule).Ok? ==>
      var bs := RuleBlocks(group, rule).value;
      && |bs| == |PortEntries(rule.ports)|
      && (forall i, j :: 0 <= i < j < |bs| ==> bs[i].name != bs[j].name)
      && forall i :: 0 <= i < |bs| ==>
        && bs[i].name == RuleBlockName(rule.name, i)
        && bs[i].securityGroupId == SecurityGroupId(group)
        && bs[i].direction == DirectionText(rule.direction)
        && bs[i].protocol == ProtocolText(rule.protocol)
        && bs[i].remoteIpPrefix == rule.cidr
        && var p := ParsePortEntry(PortEntries(rule.ports)[i]).value;
           bs[i].portRangeMin == IntToString(p.min) && bs[i].portRangeMax == IntToString(p.max)
  {
    var entries := PortEntries(rule.ports);
    var m := MapAll(entries, ParsePortEntry);
    if m.Ok? {
      var ranges := m.value;
      var bs := RuleBlocks(group, rule).value;
      assert |bs| == |ranges|;
      forall i | 0 <= i < |bs|
        ensures bs[i] == RuleBlockOf(group, rule, ranges, i)
        ensures ParsePortEntry(entries[i]).value == ranges[i]
      {
        RuleBlockAt(group, rule, ranges, i);
      }
      forall i, j | 0 <= i < j < |bs| ensures bs[i].name != bs[j].name {
        RuleBlockNamesDistinct(rule.name, i, j);
      }
    }
  }

  /** The `i`-th block of a rule whose entries read as `ranges`. */
  lemma RuleBlockAt(group: string, rule: SecurityRule, ranges: seq<PortRange>, i: nat)
    requires MapAll(PortEntries(rule.ports), ParsePortEntry) == Ok(ranges) && i < |ranges|
    ensures RuleBlocks(group, rule).Ok? && |RuleBlocks(group, rule).value| == |ranges|
    ensures RuleBlocks(group, rule).value[i] == RuleBlockOf(group, rule, ranges, i)
  {
  }

  // ---------------------------------------------------------------------------------
  // Path references

  datatype Ref = VpcRef(index: nat) | SubnetRef(index: nat) | SecurityGroupRef(index: nat) | StorageRef(index: nat)

  const VpcPrefix := "$.network.vpc["
  const SubnetPrefix := "$.network.subnets["
  const SecurityGroupPrefix := "$.network.securityGroups["
  const StoragePrefix := "$.storages["

  function RefPrefix(r: Ref): string
  {
    match r
    case VpcRef(_) => VpcPrefix
    case SubnetRef(_) => SubnetPrefix
    case SecurityGroupRef(_) => SecurityGroupPrefix
    case StorageRef(_) => StoragePrefix
  }

  /** The path text of a reference, e.g. `$.network.vpc[0]`. */
  function RefText(r: Ref): string
  {
    RefPrefix(r) + NatToString(r.index) + "]"
  }

  /** The index in `prefix` + index + `]`. */
  function IndexAfter(s: string, prefix: string): Option<nat>
  {
    if |s| > |prefix| && s[..|prefix|] == prefix && s[|s| - 1] == ']' then
      ParseNat(s[|prefix|..|s| - 1])
    else None
  }

  function ParseRef(s: string): Option<Ref>
  {
    match IndexAfter(s, VpcPrefix)
    case Some(i) => Some(VpcRef(i))
    case None =>
      match IndexAfter(s, SubnetPrefix)
      case Some(i) => Some(SubnetRef(i))
      case None =>
        match IndexAfter(s, SecurityGroupPrefix)
        case Some(i) => Some(SecurityGroupRef(i))
        case None =>
          match IndexAfter(s, StoragePrefix)
          case Some(i) => Some(StorageRef(i))
          case None => None
  }

  lemma IndexAfterOwn(r: Ref)
    ensures IndexAfter(RefText(r), RefPrefix(r)) == Some(r.index)
  {
    var s := RefText(r);
    var p := RefPrefix(r);
    assert s[..|p|] == p;
    assert s[|p|..|s| - 1] == NatToString(r.index);
    ParseNatRoundTrip(r.index);
  }

  /** A text starting with `p` does not start with a prefix `q` that differs from `p` at
      position `k`. */
  lemma NotAfter(s: string, p: string, q: string, k: nat)
    requires |p| <= |s| && s[..|p|] == p
    requires k < |p| && k < |q| && p[k] != q[k]
    ensures IndexAfter(s, q).None?
  {
    if |s| > |q| {
      assert s[..|q|][k] == s[k] == p[k];
    }
  }

  /** Parsing the text of a reference gives the reference back. */
  lemma ParseRefRoundTrip(r: Ref)
    ensures ParseRef(RefText(r)) == Some(r)
  {
    var s := RefText(r);
    var p := RefPrefix(r);
    assert s[..|p|] == p;
    IndexAfterOwn(r);
    match r
    case VpcRef(_) =>
    case SubnetRef(_) =>
      NotAfter(s, p, VpcPrefix, 10);
    case SecurityGroupRef(_) =>
      NotAfter(s, p, VpcPrefix, 10);
      NotAfter(s, p, SubnetPrefix, 11);
    case StorageRef(_) =>
      NotAfter(s, p, VpcPrefix, 2);
      NotAfter(s, p, SubnetPrefix, 2);
      NotAfter(s, p, SecurityGroupPrefix, 2);
  }

  /** The name of the element a reference designates, if the descriptor has it. */
  function Target(ocl: Ocl, r: Ref): Option<string>
  {
    match r
    case VpcRef(i) =>
      if ocl.network.Some? && i < |ocl.network.value.vpcs| then Some(ocl.network.value.vpcs[i].name) else None
    case SubnetRef(i) =>
      if ocl.network.Some? && i < |ocl.network.value.subnets| then Some(ocl.network.value.subnets[i].name) else None
    case SecurityGroupRef(i) =>
      if ocl.network.Some? && i < |ocl.network.value.securityGroups| then
        Some(ocl.network.value.securityGroups[i].name)
      else None
    case StorageRef(i) =>
      if ocl.storages.Some? && i < |ocl.storages.value| then Some(ocl.storages.value[i].name) else None
  }

  /** Resolves a path reference to the name of the element it designates; a path that is
      not a reference, or that designates nothing, is rejected. */
  function Resolve(ocl: Ocl, path: string): (r: Result<string>)
    ensures r.Ok? <==> ParseRef(path).Some? && Target(ocl, ParseRef(path).value).Some?
    ensures r.Ok? ==> Target(ocl, ParseRef(path).value) == Some(r.value)
    ensures r.Err? ==> r.error == IllegalArgument(path)
  {
    match ParseRef(path)
    case None => Err(IllegalArgument(path))
    case Some(r) =>
      match Target(ocl, r)
      case None => Err(IllegalArgument(path))
      case Some(name) => Ok(name)
  }

  /** Resolving the text of a reference finds exactly the designated element, and a
      dangling reference is an error rather than a default. */
  lemma ResolveRef(ocl: Ocl, r: Ref)
    ensures Target(ocl, r).Some? ==> Resolve(ocl, RefText(r)) == Ok(Target(ocl, r).value)
    ensures Target(ocl, r).None? ==> Resolve(ocl, RefText(r)) == Err(IllegalArgument(RefText(r)))
  {
    ParseRefRoundTrip(r);
  }

  // ---------------------------------------------------------------------------------
  // Subnet gateways

  const Ipv4Limit: nat := 0x1_0000_0000

  function ParseOctet(s: string): (r: Option<nat>)
    ensures r.Some? ==> r.value < 256
  {
    match ParseNat(s)
    case Some(n) => if n < 256 then Some(n) else None
    case None => None
  }

  /** A dotted-quad address as a 32-bit number. */
  function ParseIpv4(s: string): (r: Option<nat>)
    ensures r.Some? ==> r.value < Ipv4Limit
  {
    var ps := JavaSplit(s, '.');
    if |ps| != 4 then None
    else
      match (ParseOctet(ps[0]), ParseOctet(ps[1]), ParseOctet(ps[2]), ParseOctet(ps[3]))
      case (Some(a), Some(b), Some(c), Some(d)) => Some(((a * 256 + b) * 256 + c) * 256 + d)
      case _ => None
  }

  /** The four octets of a 32-bit address, most significant first. */
  function Octets(v: nat): (r: seq<nat>)
    requires v < Ipv4Limit
    ensures |r| == 4 && forall i :: 0 <= i < 4 ==> r[i] < 256
    ensures ((r[0] * 256 + r[1]) * 256 + r[2]) * 256 + r[3] == v
  {
    var w := v / 256;
    var w2 := w / 256;
    [w2 / 256, w2 % 256, w % 256, v % 256]
  }

  function RenderIpv4(v: nat): string
    requires v < Ipv4Limit
  {
    var o := Octets(v);
    Join([NatToString(o[0]), NatToString(o[1]), NatToString(o[2]), NatToString(o[3])], '.')
  }

  lemma DigitsHaveNo(s: string, c: char)
    requires AllDigits(s) && !IsDigit(c)
    ensures c !in s
  {
    forall i | 0 <= i < |s| ensures s[i] != c {
      assert IsDigit(s[i]);
    }
  }

  lemma ParseOctetOf(n: nat)
    requires n < 256
    ensures ParseOctet(NatToString(n)) == Some(n)
  {
    ParseNatRoundTrip(n);
  }

  /** Non-empty pieces without the separator, joined, split back into themselves. */
  lemma JoinedSplitsBack(ps: seq<string>, sep: char)
    requires |ps| > 1 && forall i :: 0 <= i < |ps| ==> sep !in ps[i]
    requires ps[|ps| - 1] != ""
    ensures JavaSplit(Join(ps, sep), sep) == ps
  {
    var s := Join(ps, sep);
    JoinSplit(ps, sep);
    assert s == ps[0] + [sep] + Join(ps[1..], sep);
    assert s[|ps[0]|] == sep;
    assert DropTrailingEmpty(ps) == ps;
  }

  /** Every 32-bit address survives rendering as a dotted quad and parsing back. */
  lemma Ipv4RoundTrip(v: nat)
    requires v < Ipv4Limit
    ensures ParseIpv4(RenderIpv4(v)) == Some(v)
  {
    var o := Octets(v);
    var ps := [NatToString(o[0]), NatToString(o[1]), NatToString(o[2]), NatToString(o[3])];
    forall i | 0 <= i < 4 ensures '.' !in ps[i] {
      DigitsHaveNo(ps[i], '.');
    }
    JoinedSplitsBack(ps, '.');
    ParseOctetOf(o[0]);
    ParseOctetOf(o[1]);
    ParseOctetOf(o[2]);
    ParseOctetOf(o[3]);
  }

  /** A block in CIDR notation: its address and its prefix length. */
  function ParseCidr(cidr: string): (r: Option<(nat, nat)>)
    ensures r.Some? ==> r.value.0 < Ipv4Limit && r.value.1 <= 32
  {
    var ps := SplitFirst(cidr, '/');
    if |ps| != 2 then None
    else
      match (ParseIpv4(ps[0]), ParseNat(ps[1]))
      case (Some(ip), Some(p)) => if p <= 32 then Some((ip, p)) else None
      case _ => None
  }

  function RenderCidr(ip: nat, prefix: nat): string
    requires ip < Ipv4Limit
  {
    RenderIpv4(ip) + "/" + NatToString(prefix)
  }

  /** Every address and prefix length survives rendering in CIDR notation and parsing
      back. */
  lemma CidrRoundTrip(ip: nat, prefix: nat)
    requires ip < Ipv4Limit && prefix <= 32
    ensures ParseCidr(RenderCidr(ip, prefix)) == Some((ip, prefix))
  {
    var a := RenderIpv4(ip);
    var o := Octets(ip);
    var ps := [NatToString(o[0]), NatToString(o[1]), NatToString(o[2]), NatToString(o[3])];
    forall i | 0 <= i < 4 ensures '/' !in ps[i] {
      DigitsHaveNo(ps[i], '/');
    }
    JoinNoChar(ps, '.', '/');
    var s := RenderCidr(ip, prefix);
    assert s[..|a|] == a && s[|a|] == '/' && s[|a| + 1..] == NatToString(prefix);
    IndexOfAt(s, '/', |a|);
    Ipv4RoundTrip(ip);
    ParseNatRoundTrip(prefix);
  }

  /** A character neither in the pieces nor the separator is not in their join. */
  lemma {:induction false} JoinNoChar(pieces: seq<string>, sep: char, c: char)
    requires c != sep && forall i :: 0 <= i < |pieces| ==> c !in pieces[i]
    ensures c !in Join(pieces, sep)
  {
    if |pieces| > 1 {
      JoinNoChar(pieces[1..], sep, c);
    }
  }

  /** The netmask of a prefix length: `prefix` one bits followed by zero bits. */
  function Mask(prefix: nat): bv32
    requires prefix <= 32
  {
    if prefix == 0 then 0 else 0xFFFF_FFFF << (32 - prefix) as bv32
  }

  /** The first address of the block an address lies in. */
  function NetworkAddress(ip: nat, prefix: nat): bv32
    requires ip < Ipv4Limit && prefix <= 32
  {
    (ip as bv32) & Mask(prefix)
  }

  /** The address lies in the block of its network address; for any prefix up to /31 the
      gateway, one past the network address, lies in the same block, is not the network
      address itself and does not wrap around. */
  lemma GatewayInBlock(ip: nat, prefix: nat)
    requires ip < Ipv4Limit && prefix <= 31
    ensures var net, m := NetworkAddress(ip, prefix), Mask(prefix);
      && net & m == net
      && (ip as bv32) & m == net
      && (net + 1) & m == net
      && net + 1 != net
      && net < 0xFFFF_FFFF
  {
  }

  /** The address one past the network address, as a number. */
  function GatewayAddress(ip: nat, prefix: nat): (g: nat)
    requires ip < Ipv4Limit && prefix <= 32
    ensures g < Ipv4Limit
  {
    (NetworkAddress(ip, prefix) + 1) as int
  }

  /** `gateway_ip` of a subnet: the address one past the network address of its block, in
      dotted-quad text; a text that is not a CIDR block is rejected. */
  function GatewayIp(cidr: string): (r: Result<string>)
    ensures r.Ok? <==> ParseCidr(cidr).Some?
    ensures r.Err? ==> r.error == IllegalArgument(cidr)
    ensures r.Ok? ==> ParseIpv4(r.value) == Some(GatewayAddress(ParseCidr(cidr).value.0, ParseCidr(cidr).value.1))
  {
    match ParseCidr(cidr)
    case None => Err(IllegalArgument(cidr))
    case Some(block) =>
      var gw := GatewayAddress(block.0, block.1);
      Ipv4RoundTrip(gw);
      Ok(RenderIpv4(gw))
  }

  /** The gateway of any block written in canonical CIDR notation is the rendering of its
      network address plus one. */
  lemma GatewayOfBlock(ip: nat, prefix: nat)
    requires ip < Ipv4Limit && prefix <= 32
    ensures GatewayIp(RenderCidr(ip, prefix)) == Ok(RenderIpv4(GatewayAddress(ip, prefix)))
  {
    CidrRoundTrip(ip, prefix);
  }

  // ---------------------------------------------------------------------------------
  // Sections

  datatype SecurityGroupBlock = SecurityGroupBlock(name: string)
  datatype VpcBlock = VpcBlock(name: string, cidr: string)
  datatype SubnetBlock = SubnetBlock(name: string, cidr: string, gatewayIp: string, vpcId: string)
  datatype VmBlock = VmBlock(
    name: string, flavorId: string, imageId: string,
    subnetIds: seq<string>, securityGroupIds: seq<string>, volumeIds: seq<string>)
  datatype StorageBlock = StorageBlock(name: string, volumeType: string, size: string)

  /** The blocks of the whole document. */
  datatype Hcl = Hcl(
    rules: seq<RuleBlock>, securityGroups: seq<SecurityGroupBlock>, vpcs: seq<VpcBlock>,
    subnets: seq<SubnetBlock>, vms: seq<VmBlock>, storages: seq<StorageBlock>)

  /** The concatenation of a sequence of sequences, in order. */
  function Flatten<B>(xss: seq<seq<B>>): seq<B>
  {
    if xss == [] then [] else xss[0] + Flatten(xss[1..])
  }

  /** An element of a concatenation comes from one of its parts, and every element of
      every part is in it. */
  lemma {:induction false} FlattenMembers<B>(xss: seq<seq<B>>, b: B)
    ensures b in Flatten(xss) <==> exists i :: 0 <= i < |xss| && b in xss[i]
  {
    if xss != [] {
      FlattenMembers(xss[1..], b);
      assert forall i :: 1 <= i < |xss| ==> xss[i] == xss[1..][i - 1];
      if b in Flatten(xss[1..]) {
        var i :| 0 <= i < |xss[1..]| && b in xss[1..][i];
        assert b in xss[i + 1];
      }
    }
  }

  /** Concatenates the blocks `f` gives each element, failing with the first failure: the
      result is `MapAll` followed by concatenation. */
  function FlatMapAll<A, B>(xs: seq<A>, f: A -> Result<seq<B>>): (r: Result<seq<B>>)
    ensures r.Ok? <==> forall i :: 0 <= i < |xs| ==> f(xs[i]).Ok?
    ensures r.Ok? ==> forall i, b :: 0 <= i < |xs| && b in f(xs[i]).value ==> b in r.value
    ensures r.Ok? ==> r.value == Flatten(MapAll(xs, f).value)
    ensures r.Err? ==> MapAll(xs, f).Err? && r.error == MapAll(xs, f).error
  {
    if xs == [] then Ok([])
    else
      match f(xs[0])
      case Err(e) => Err(e)
      case Ok(y) =>
        match FlatMapAll(xs[1..], f)
        case Err(e) => Err(e)
        case Ok(ys) =>
          assert forall i :: 1 <= i < |xs| ==> xs[i] == xs[1..][i - 1];
          Ok(y + ys)
  }

  function NetworkOf(ocl: Ocl): (r: Result<Network>)
    ensures r.Ok? <==> ocl.network.Some?
  {
    match ocl.network
    case None => Err(IllegalArgument("network"))
    case Some(n) => Ok(n)
  }

  /** The rule blocks of one group: its rules' blocks concatenated in declaration order. */
  function GroupRuleBlocks(g: SecurityGroup): (r: Result<seq<RuleBlock>>)
    ensures r.Ok? <==> forall i :: 0 <= i < |g.rules| ==> RuleBlocks(g.name, g.rules[i]).Ok?
    ensures r.Ok? ==> r.value == Flatten(MapAll(g.rules, (r: SecurityRule) => RuleBlocks(g.name, r)).value)
  {
    FlatMapAll(g.rules, (r: SecurityRule) => RuleBlocks(g.name, r))
  }

  /** `getHclSecurityGroupRule`: the rule blocks of every rule of every group. */
  function SecurityGroupRuleBlocks(ocl: Ocl): (r: Result<seq<RuleBlock>>)
    ensures r.Ok? <==>
      && ocl.network.Some?
      && forall i :: 0 <= i < |ocl.network.value.securityGroups| ==> GroupRuleBlocks(ocl.network.value.securityGroups[i]).Ok?
    ensures r.Ok? ==> r.value == Flatten(MapAll(ocl.network.value.securityGroups, GroupRuleBlocks).value)
  {
    match NetworkOf(ocl)
    case Err(e) => Err(e)
    case Ok(n) => FlatMapAll(n.securityGroups, GroupRuleBlocks)
  }

  /** Every block of every rule of every group is emitted. */
  lemma SecurityGroupRuleBlocksComplete(ocl: Ocl, gi: nat, ri: nat, b: RuleBlock)
    requires SecurityGroupRuleBlocks(ocl).Ok?
    requires gi < |ocl.network.value.securityGroups|
    requires ri < |ocl.network.value.securityGroups[gi].rules|
    requires var g := ocl.network.value.securityGroups[gi];
      RuleBlocks(g.name, g.rules[ri]).Ok? && b in RuleBlocks(g.name, g.rules[ri]).value
    ensures b in SecurityGroupRuleBlocks(ocl).value
  {
    var g := ocl.network.value.securityGroups[gi];
    assert GroupRuleBlocks(g).Ok?;
    assert b in GroupRuleBlocks(g).value;
  }

  /** Nothing but the blocks of the groups' rules is emitted. */
  lemma SecurityGroupRuleBlocksSound(ocl: Ocl, b: RuleBlock)
    requires SecurityGroupRuleBlocks(ocl).Ok? && b in SecurityGroupRuleBlocks(ocl).value
    ensures exists gi, ri ::
      && 0 <= gi < |ocl.network.value.securityGroups|
      && 0 <= ri < |ocl.network.value.securityGroups[gi].rules|
      && RuleBlocks(ocl.network.value.securityGroups[gi].name, ocl.network.value.securityGroups[gi].rules[ri]).Ok?
      && b in RuleBlocks(ocl.network.value.securityGroups[gi].name, ocl.network.value.securityGroups[gi].rules[ri]).value
  {
    var gs := ocl.network.value.securityGroups;
    var outer := MapAll(gs, GroupRuleBlocks).value;
    FlattenMembers(outer, b);
    var gi :| 0 <= gi < |outer| && b in outer[gi];
    var g := gs[gi];
    var f := (r: SecurityRule) => RuleBlocks(g.name, r);
    var inner := MapAll(g.rules, f).value;
    FlattenMembers(inner, b);
    var ri :| 0 <= ri < |inner| && b in inner[ri];
    assert f(g.rules[ri]) == Ok(inner[ri]);
  }

  /** `getHclSecurityGroup`: one block per group, named after it. */
  function SecurityGroupBlocks(ocl: Ocl): (r: Result<seq<SecurityGroupBlock>>)
    ensures r.Ok? <==> ocl.network.Some?
    ensures r.Ok? ==> |r.value| == |ocl.network.value.securityGroups|
    ensures r.Ok? ==>
      forall i :: 0 <= i < |r.value| ==> r.value[i].name == ocl.network.value.securityGroups[i].name
  {
    match NetworkOf(ocl)
    case Err(e) => Err(e)
    case Ok(n) =>
      Ok(seq(|n.securityGroups|, i requires 0 <= i < |n.securityGroups| => SecurityGroupBlock(n.securityGroups[i].name)))
  }

  /** `getHclVpc`: one block per VPC with its name and cidr. */
  function VpcBlocks(ocl: Ocl): (r: Result<seq<VpcBlock>>)
    ensures r.Ok? <==> ocl.network.Some?
    ensures r.Ok? ==> |r.value| == |ocl.network.value.vpcs|
    ensures r.Ok? ==>
      forall i :: 0 <= i < |r.value| ==>
           r.value[i] == VpcBlock(ocl.network.value.vpcs[i].name, ocl.network.value.vpcs[i].cidr)
  {
    match NetworkOf(ocl)
    case Err(e) => Err(e)
    case Ok(n) => Ok(seq(|n.vpcs|, i requires 0 <= i < |n.vpcs| => VpcBlock(n.vpcs[i].name, n.vpcs[i].cidr)))
  }

  function VpcId(name: string): string
  {
    "huaweicloud_vpc." + name + ".id"
  }

  function SubnetId(name: string): string
  {
    "huaweicloud_vpc_subnet." + name + ".id"
  }

  function VolumeId(name: string): string
  {
    "huaweicloud_evs_volume." + name + ".id"
  }

  /** The block of one subnet: its gateway and the id of the VPC its reference designates,
      or the first failure among them. */
  function SubnetBlockOf(ocl: Ocl, sn: Subnet): (r: Result<SubnetBlock>)
    ensures r.Ok? <==> GatewayIp(sn.cidr).Ok? && Resolve(ocl, sn.vpc).Ok?
    ensures r.Ok? ==> r.value == SubnetBlock(sn.name, sn.cidr, GatewayIp(sn.cidr).value, VpcId(Resolve(ocl, sn.vpc).value))
  {
    match GatewayIp(sn.cidr)
    case Err(e) => Err(e)
    case Ok(gw) =>
      match Resolve(ocl, sn.vpc)
      case Err(e) => Err(e)
      case Ok(vpc) => Ok(SubnetBlock(sn.name, sn.cidr, gw, VpcId(vpc)))
  }

  /** `getHclVpcSubnet`: one block per subnet, with its gateway and the id of the VPC its
      reference designates. */
  function SubnetBlocks(ocl: Ocl): (r: Result<seq<SubnetBlock>>)
    ensures r.Ok? <==>
      && ocl.network.Some?
      && forall i :: 0 <= i < |ocl.network.value.subnets| ==> SubnetBlockOf(ocl, ocl.network.value.subnets[i]).Ok?
    ensures r.Ok? ==> |r.value| == |ocl.network.value.subnets|
    ensures r.Ok? ==>
      forall i :: 0 <= i < |r.value| ==> r.value[i] == SubnetBlockOf(ocl, ocl.network.value.subnets[i]).value
  {
    match NetworkOf(ocl)
    case Err(e) => Err(e)
    case Ok(n) => MapAll(n.subnets, (sn: Subnet) => SubnetBlockOf(ocl, sn))
  }

  /** The ids of the elements a list of path references designates, in order. */
  function Ids(ocl: Ocl, paths: seq<string>, id: string -> string): (r: Result<seq<string>>)
    ensures r.Ok? <==> forall i :: 0 <= i < |paths| ==> Resolve(ocl, paths[i]).Ok?
    ensures r.Ok? ==> |r.value| == |paths| && forall i :: 0 <= i < |paths| ==> r.value[i] == id(Resolve(ocl, paths[i]).value)
  {
    MapAll(paths, (p: string) => match Resolve(ocl, p) case Err(e) => Err(e) case Ok(n) => Ok(id(n)))
  }

  /** The block of one VM with its subnet, security-group and volume references resolved
      to ids, or the first failure among them. */
  function VmBlockOf(ocl: Ocl, vm: Vm): (r: Result<VmBlock>)
    ensures r.Ok? <==>
      Ids(ocl, vm.subnets, SubnetId).Ok? && Ids(ocl, vm.securityGroups, SecurityGroupId).Ok? && Ids(ocl, vm.storages, VolumeId).Ok?
    ensures r.Ok? ==> r.value == VmBlock(vm.name, vm.vmType, vm.imageId, Ids(ocl, vm.subnets, SubnetId).value,
      Ids(ocl, vm.securityGroups, SecurityGroupId).value, Ids(ocl, vm.storages, VolumeId).value)
  {
    match Ids(ocl, vm.subnets, SubnetId)
    case Err(e) => Err(e)
    case Ok(subnets) =>
      match Ids(ocl, vm.securityGroups, SecurityGroupId)
      case Err(e) => Err(e)
      case Ok(groups) =>
        match Ids(ocl, vm.storages, VolumeId)
        case Err(e) => Err(e)
        case Ok(volumes) => Ok(VmBlock(vm.name, vm.vmType, vm.imageId, subnets, groups, volumes))
  }

  /** `getHclVm`: one block per VM, its references resolved. */
  function VmBlocks(ocl: Ocl): (r: Result<seq<VmBlock>>)
    ensures r.Ok? <==>
      && ocl.compute.Some?
      && forall i :: 0 <= i < |ocl.compute.value.vms| ==> VmBlockOf(ocl, ocl.compute.value.vms[i]).Ok?
    ensures r.Ok? ==> |r.value| == |ocl.compute.value.vms|
    ensures r.Ok? ==> forall i :: 0 <= i < |r.value| ==> r.value[i] == VmBlockOf(ocl, ocl.compute.value.vms[i]).value
  {
    match ocl.compute
    case None => Err(IllegalArgument("compute"))
    case Some(c) => MapAll(c.vms, (vm: Vm) => VmBlockOf(ocl, vm))
  }

  /** `getHclStorage`: one volume per storage, with its type and size. */
  function StorageBlocks(ocl: Ocl): (r: Result<seq<StorageBlock>>)
    ensures r.Ok? <==> ocl.storages.Some?
    ensures r.Ok? ==> |r.value| == |ocl.storages.value|
    ensures r.Ok? ==>
      forall i :: 0 <= i < |r.value| ==>
           var st := ocl.storages.value[i];
           r.value[i] == StorageBlock(st.name, st.storageType, NatToString(st.size))
  {
    match ocl.storages
    case None => Err(IllegalArgument("storages"))
    case Some(sts) =>
      Ok(seq(|sts|, i requires 0 <= i < |sts| =>
        StorageBlock(sts[i].name, sts[i].storageType, NatToString(sts[i].size))))
  }

  /** `getHcl`: every section, or the first failure. */
  function HclOf(ocl: Ocl): (r: Result<Hcl>)
    ensures r.Ok? ==> ocl.network.Some? && ocl.compute.Some? && ocl.storages.Some?
    ensures r.Ok? <==>
      && SecurityGroupRuleBlocks(ocl).Ok? && SecurityGroupBlocks(ocl).Ok? && VpcBlocks(ocl).Ok?
      && SubnetBlocks(ocl).Ok? && VmBlocks(ocl).Ok? && StorageBlocks(ocl).Ok?
    ensures r.Ok? ==> r.value == Hcl(
      SecurityGroupRuleBlocks(ocl).value, SecurityGroupBlocks(ocl).value, VpcBlocks(ocl).value,
      SubnetBlocks(ocl).value, VmBlocks(ocl).value, StorageBlocks(ocl).value)
  {
    match SecurityGroupRuleBlocks(ocl)
    case Err(e) => Err(e)
    case Ok(rules) =>
      match SecurityGroupBlocks(ocl)
      case Err(e) => Err(e)
      case Ok(groups) =>
        match VpcBlocks(ocl)
        case Err(e) => Err(e)
        case Ok(vpcs) =>
          match SubnetBlocks(ocl)
          case Err(e) => Err(e)
          case Ok(subnets) =>
            match VmBlocks(ocl)
            case Err(e) => Err(e)
            case Ok(vms) =>
              match StorageBlocks(ocl)
              case Err(e) => Err(e)
              case Ok(storages) => Ok(Hcl(rules, groups, vpcs, subnets, vms, storages))
  }

  /** A descriptor with no network, compute or storage section: the document and every
      section getter fail with an illegal-argument error. */
  lemma EmptyDescriptorFails(name: string, image: Option<Image>)
    ensures var ocl := Ocl(name, image, None, None, None);
      && HclOf(ocl).Err? && HclOf(ocl).error.IllegalArgument?
      && SecurityGroupRuleBlocks(ocl).Err? && SecurityGroupRuleBlocks(ocl).error.IllegalArgument?
      && SecurityGroupBlocks(ocl).Err? && SecurityGroupBlocks(ocl).error.IllegalArgument?
      && SubnetBlocks(ocl).Err? && SubnetBlocks(ocl).error.IllegalArgument?
      && VpcBlocks(ocl).Err? && VpcBlocks(ocl).error.IllegalArgument?
      && VmBlocks(ocl).Err? && VmBlocks(ocl).error.IllegalArgument?
      && StorageBlocks(ocl).Err? && StorageBlocks(ocl).error.IllegalArgument?
  {
  }
}
