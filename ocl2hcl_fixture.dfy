/** The descriptor of the translator's unit test and the blocks it translates to: one
    rule with a three-entry port list, one security group, one VPC, one subnet, one VM
    referring to them by path, and one storage. */
module Ocl2HclFixture {
  import opened Common
  import opened Text
  import opened Descriptor
  import opened Ocl2Hcl

  const TestRule := SecurityRule("secRuleTest", Tcp, "10.10.2.0/24", In, "8080, 9092-9093, 2181")
  const TestGroup := SecurityGroup("securityTest", [TestRule])
  const TestVpc := Vpc("xpanse-vpc", "10.10.0.0/16")
  const TestSubnet := Subnet("xpanse-subnet", "10.10.0.0/24", "$.network.vpc[0]")
  const TestVm := Vm(
    "my-vm", "c7.large.4", "51cc015c-a833-11ed-b62e-3ba0fb086b32",
    ["$.network.subnets[0]"], ["$.network.securityGroups[0]"], ["$.storages[0]"])
  const TestStorage := Storage("my-storage", "SSD", 80)

  /** The test's descriptor; its name and image are never set. */
  const Fixture := Ocl(
    "", None, Some(Network([TestVpc], [TestSubnet], [TestGroup])), Some(Compute([TestVm])), Some([TestStorage]))

  /** A list of three comma-free entries, the last one not empty, splits back into them. */
  lemma ThreeEntries(ports: string, a: string, b: string, c: string)
    requires ports == a + [','] + b + [','] + c
    requires ',' !in a && ',' !in b && ',' !in c && c != ""
    ensures PortEntries(ports) == [a, b, c]
  {
    var pieces := [a, b, c];
    assert Join(pieces, ',') == ports by {
      assert pieces[1..] == [b, c] && [b, c][1..] == [c];
      assert Join([b, c], ',') == b + [','] + c;
    }
    assert ports[|a|] == ',';
    assert SplitAll(ports, ',') == pieces by {
      JoinSplit(pieces, ',');
    }
    assert DropTrailingEmpty(pieces) == pieces;
  }

  /** The port list splits at its commas into three entries, blanks kept. */
  lemma FixturePortEntries()
    ensures PortEntries(TestRule.ports) == ["8080", " 9092-9093", " 2181"]
  {
    ThreeEntries(TestRule.ports, "8080", " 9092-9093", " 2181");
  }

  /** The canonical text of a range, with or without one leading blank, reads back as
      that range. */
  lemma EntryOfText(r: PortRange, entry: string, text: string)
    requires 0 <= r.min <= IntMax && 0 <= r.max <= IntMax && text == PortEntryText(r)
    requires entry == text || entry == [' '] + text
    ensures ParsePortEntry(entry) == Ok(r)
  {
    PortEntryRoundTrip(r);
    assert Trim(text) == text by {
      var a := NatToString(r.min);
      var b := NatToString(r.max);
      assert text[0] == a[0] && text[|text| - 1] == b[|b| - 1];
      TrimKeeps(text);
    }
    assert ([' '] + text)[1..] == text;
  }

  lemma Text9092()
    ensures NatToString(9092) == "9092" && NatToString(9093) == "9093"
  {
    assert NatToString(9) == "9";
    assert NatToString(90) == "90";
    assert NatToString(909) == "909";
  }

  lemma Text8080And2181()
    ensures NatToString(8080) == "8080" && NatToString(2181) == "2181"
  {
    assert NatToString(8) == "8";
    assert NatToString(80) == "80";
    assert NatToString(808) == "808";
    assert NatToString(2) == "2";
    assert NatToString(21) == "21";
    assert NatToString(218) == "218";
  }

  lemma MapAllOfThree<A, B>(xs: seq<A>, f: A -> Result<B>)
    requires |xs| == 3 && f(xs[0]).Ok? && f(xs[1]).Ok? && f(xs[2]).Ok?
    ensures MapAll(xs, f) == Ok([f(xs[0]).value, f(xs[1]).value, f(xs[2]).value])
  {
    var tail := xs[1..];
    assert tail[1..][0] == xs[2] && tail[0] == xs[1];
    MapAllOfOne(tail[1..], f);
    var a, b, c := f(xs[0]).value, f(xs[1]).value, f(xs[2]).value;
    assert MapAll(tail, f) == Ok([b] + [c]);
    assert MapAll(xs, f) == Ok([a] + ([b] + [c]));
    assert [a] + ([b] + [c]) == [a, b, c];
  }

  lemma EntryRanges(entries: seq<string>)
    requires entries == ["8080", " 9092-9093", " 2181"]
    ensures MapAll(entries, ParsePortEntry)
      == Ok([PortRange(8080, 8080), PortRange(9092, 9093), PortRange(2181, 2181)])
  {
    FirstEntry(entries[0]);
    SecondEntry(entries[1]);
    ThirdEntry(entries[2]);
    MapAllOfThree(entries, ParsePortEntry);
  }

  lemma FirstEntry(e: string)
    requires e == "8080"
    ensures ParsePortEntry(e) == Ok(PortRange(8080, 8080))
  {
    Text8080And2181();
    EntryOfText(PortRange(8080, 8080), e, "8080");
  }

  lemma SecondEntry(e: string)
    requires e == " 9092-9093"
    ensures ParsePortEntry(e) == Ok(PortRange(9092, 9093))
  {
    Text9092();
    assert e == [' '] + "9092-9093";
    EntryOfText(PortRange(9092, 9093), e, "9092-9093");
  }

  lemma ThirdEntry(e: string)
    requires e == " 2181"
    ensures ParsePortEntry(e) == Ok(PortRange(2181, 2181))
  {
    Text8080And2181();
    assert e == [' '] + "2181";
    EntryOfText(PortRange(2181, 2181), e, "2181");
  }

  /** The entries read as the single port 8080, the range 9092-9093 and the single port
      2181. */
  lemma FixturePortRanges()
    ensures MapAll(PortEntries(TestRule.ports), ParsePortEntry)
      == Ok([PortRange(8080, 8080), PortRange(9092, 9093), PortRange(2181, 2181)])
  {
    FixturePortEntries();
    EntryRanges(PortEntries(TestRule.ports));
  }

  lemma SecRuleNames()
    ensures RuleBlockName("secRuleTest", 0) == "secRuleTest_0"
    ensures RuleBlockName("secRuleTest", 1) == "secRuleTest_1"
    ensures RuleBlockName("secRuleTest", 2) == "secRuleTest_2"
  {
    assert NatToString(0) == "0" && NatToString(1) == "1" && NatToString(2) == "2";
  }

  /** A rule named like the test's, whose port list splits into the test's three entries
      (`FixturePortEntries`), gives three blocks, `secRuleTest_0` to `secRuleTest_2`. */
  lemma FixtureRuleNames(group: string, rule: SecurityRule)
    requires rule.name == "secRuleTest"
    requires PortEntries(rule.ports) == ["8080", " 9092-9093", " 2181"]
    ensures RuleBlocks(group, rule).Ok?
    ensures var bs := RuleBlocks(group, rule).value;
      |bs| == 3 && bs[0].name == "secRuleTest_0" && bs[1].name == "secRuleTest_1" && bs[2].name == "secRuleTest_2"
  {
    var ranges := [PortRange(8080, 8080), PortRange(9092, 9093), PortRange(2181, 2181)];
    EntryRanges(PortEntries(rule.ports));
    SecRuleNames();
    RuleBlockAt(group, rule, ranges, 0);
    RuleBlockAt(group, rule, ranges, 1);
    RuleBlockAt(group, rule, ranges, 2);
  }

  /** The second block of such a rule spans ports 9092 to 9093. */
  lemma FixtureRulePorts(group: string, rule: SecurityRule)
    requires PortEntries(rule.ports) == ["8080", " 9092-9093", " 2181"]
    ensures RuleBlocks(group, rule).Ok? && |RuleBlocks(group, rule).value| == 3
    ensures RuleBlocks(group, rule).value[1].portRangeMin == "9092"
    ensures RuleBlocks(group, rule).value[1].portRangeMax == "9093"
  {
    var ranges := [PortRange(8080, 8080), PortRange(9092, 9093), PortRange(2181, 2181)];
    EntryRanges(PortEntries(rule.ports));
    RuleBlockAt(group, rule, ranges, 1);
    Text9092();
  }

  /** Every block of an ingress tcp rule with remote prefix `10.10.2.0/24` in the group
      `securityTest` points at that group and carries `ingress`, `tcp` and the prefix. */
  lemma FixtureRuleFields(group: string, rule: SecurityRule)
    requires group == "securityTest"
    requires rule.protocol == Tcp && rule.direction == In && rule.cidr == "10.10.2.0/24"
    requires RuleBlocks(group, rule).Ok?
    ensures var bs := RuleBlocks(group, rule).value;
      forall i :: 0 <= i < |bs| ==>
        && bs[i].securityGroupId == SecurityGroupId("securityTest")
        && bs[i].direction == "ingress" && bs[i].protocol == "tcp"
        && bs[i].remoteIpPrefix == "10.10.2.0/24"
  {
    RuleBlocksFacts(group, rule);
  }

  /** In a descriptor whose network has one security group holding one rule, the rule
      section is exactly that rule's blocks. */
  lemma SingleRuleSection(ocl: Ocl, group: SecurityGroup, rule: SecurityRule)
    requires ocl.network.Some? && ocl.network.value.securityGroups == [group] && group.rules == [rule]
    ensures SecurityGroupRuleBlocks(ocl) == RuleBlocks(group.name, rule)
  {
    var f := (r: SecurityRule) => RuleBlocks(group.name, r);
    assert f(rule) == RuleBlocks(group.name, rule);
    assert group.rules[1..] == [];
    assert GroupRuleBlocks(group) == FlatMapAll([rule], f);
    match RuleBlocks(group.name, rule)
    case Err(e) =>
      assert GroupRuleBlocks(group) == Err(e);
      assert ocl.network.value.securityGroups[1..] == [];
    case Ok(bs) =>
      assert bs + [] == bs;
      assert GroupRuleBlocks(group) == Ok(bs);
      assert ocl.network.value.securityGroups[1..] == [];
      assert FlatMapAll([group], GroupRuleBlocks) == Ok(bs + []);
  }

  lemma Text10()
    ensures NatToString(10) == "10" && NatToString(0) == "0" && NatToString(1) == "1"
  {
  }

  lemma JoinQuad(a: string, b: string, c: string, d: string)
    ensures Join([a, b, c, d], '.') == a + "." + b + "." + c + "." + d
  {
    assert [a, b, c, d][1..] == [b, c, d];
    assert [b, c, d][1..] == [c, d];
    assert [c, d][1..] == [d];
    assert Join([c, d], '.') == c + "." + d;
    assert Join([b, c, d], '.') == b + "." + c + "." + d;
  }

  lemma RenderAddresses()
    ensures RenderIpv4(168427520) == "10.10.0.0"
    ensures RenderIpv4(168427521) == "10.10.0.1"
  {
    assert Octets(168427520) == [10, 10, 0, 0];
    assert Octets(168427521) == [10, 10, 0, 1];
    Text10();
    JoinQuad("10", "10", "0", "0");
    JoinQuad("10", "10", "0", "1");
  }

  lemma BlockAddress()
    ensures NetworkAddress(168427520, 24) + 1 == 168427521
  {
    assert Mask(24) == 0xFFFF_FF00;
    assert (168427520 as bv32) == 0x0A0A_0000;
    assert 0x0A0A_0000 & (0xFFFF_FF00 as bv32) == 0x0A0A_0000;
  }

  /** The subnet `10.10.0.0/24` gets the gateway `10.10.0.1`, its network address plus
      one. */
  lemma FixtureGateway(cidr: string)
    requires cidr == "10.10.0.0/24"
    ensures GatewayIp(cidr) == Ok("10.10.0.1")
  {
    RenderAddresses();
    Text24();
    assert cidr == RenderCidr(168427520, 24);
    GatewayOfBlock(168427520, 24);
    BlockAddress();
  }

  lemma Text24()
    ensures NatToString(24) == "24"
  {
  }

  /** The paths of the test, each naming element 0 of its list, resolve to that
      element's name. */
  lemma FixtureRefs(ocl: Ocl)
    requires ocl.network.Some? && ocl.storages.Some?
    requires |ocl.network.value.vpcs| > 0 && |ocl.network.value.subnets| > 0
    requires |ocl.network.value.securityGroups| > 0 && |ocl.storages.value| > 0
    ensures Resolve(ocl, "$.network.vpc[0]") == Ok(ocl.network.value.vpcs[0].name)
    ensures Resolve(ocl, "$.network.subnets[0]") == Ok(ocl.network.value.subnets[0].name)
    ensures Resolve(ocl, "$.network.securityGroups[0]") == Ok(ocl.network.value.securityGroups[0].name)
    ensures Resolve(ocl, "$.storages[0]") == Ok(ocl.storages.value[0].name)
  {
    Text10();
    assert RefText(VpcRef(0)) == "$.network.vpc[0]";
    assert RefText(SubnetRef(0)) == "$.network.subnets[0]";
    assert RefText(SecurityGroupRef(0)) == "$.network.securityGroups[0]";
    assert RefText(StorageRef(0)) == "$.storages[0]";
    ResolveRef(ocl, VpcRef(0));
    ResolveRef(ocl, SubnetRef(0));
    ResolveRef(ocl, SecurityGroupRef(0));
    ResolveRef(ocl, StorageRef(0));
  }

  /** The test's subnet, `10.10.0.0/24` in `$.network.vpc[0]`, gets the gateway
      `10.10.0.1` and the id of VPC element 0. */
  lemma FixtureSubnetBlock(ocl: Ocl, sn: Subnet)
    requires ocl.network.Some? && ocl.storages.Some?
    requires |ocl.network.value.vpcs| > 0 && |ocl.network.value.subnets| > 0
    requires |ocl.network.value.securityGroups| > 0 && |ocl.storages.value| > 0
    requires sn.cidr == "10.10.0.0/24" && sn.vpc == "$.network.vpc[0]"
    ensures SubnetBlockOf(ocl, sn)
      == Ok(SubnetBlock(sn.name, sn.cidr, "10.10.0.1", VpcId(ocl.network.value.vpcs[0].name)))
  {
    FixtureGateway(sn.cidr);
    FixtureRefs(ocl);
  }

  lemma IdsOfOne(ocl: Ocl, path: string, id: string -> string)
    requires Resolve(ocl, path).Ok?
    ensures Ids(ocl, [path], id) == Ok([id(Resolve(ocl, path).value)])
  {
    var f := (p: string) => match Resolve(ocl, p) case Err(e) => Err(e) case Ok(n) => Ok(id(n));
    assert f(path) == Ok(id(Resolve(ocl, path).value));
    assert Ids(ocl, [path], id) == MapAll([path], f);
    var r := MapAll([path], f);
    assert r.Ok? && |r.value| == 1 && f([path][0]) == Ok(r.value[0]);
    assert r.value == [r.value[0]];
  }

  /** The test's VM refers by path to subnet, security group and storage element 0: its
      block carries their ids. */
  lemma FixtureVmBlock(ocl: Ocl, vm: Vm)
    requires ocl.network.Some? && ocl.storages.Some?
    requires |ocl.network.value.vpcs| > 0 && |ocl.network.value.subnets| > 0
    requires |ocl.network.value.securityGroups| > 0 && |ocl.storages.value| > 0
    requires vm.subnets == ["$.network.subnets[0]"] && vm.securityGroups == ["$.network.securityGroups[0]"]
    requires vm.storages == ["$.storages[0]"]
    ensures VmBlockOf(ocl, vm) == Ok(VmBlock(vm.name, vm.vmType, vm.imageId,
      [SubnetId(ocl.network.value.subnets[0].name)],
      [SecurityGroupId(ocl.network.value.securityGroups[0].name)],
      [VolumeId(ocl.storages.value[0].name)]))
  {
    FixtureRefs(ocl);
    IdsOfOne(ocl, "$.network.subnets[0]", SubnetId);
    IdsOfOne(ocl, "$.network.securityGroups[0]", SecurityGroupId);
    IdsOfOne(ocl, "$.storages[0]", VolumeId);
  }

  lemma MapAllOfOne<A, B>(xs: seq<A>, f: A -> Result<B>)
    requires |xs| == 1 && f(xs[0]).Ok?
    ensures MapAll(xs, f) == Ok([f(xs[0]).value])
  {
    var r := MapAll(xs, f);
    assert r.value == [r.value[0]];
  }

  lemma SubnetSection(ocl: Ocl, vpc: Vpc, sn: Subnet, group: SecurityGroup, st: Storage)
    requires ocl.network.Some? && ocl.network.value.vpcs == [vpc] && ocl.network.value.subnets == [sn]
    requires ocl.network.value.securityGroups == [group] && ocl.storages == Some([st])
    requires sn.cidr == "10.10.0.0/24" && sn.vpc == "$.network.vpc[0]"
    ensures SubnetBlocks(ocl) == Ok([SubnetBlock(sn.name, sn.cidr, "10.10.0.1", VpcId(vpc.name))])
  {
    FixtureSubnetBlock(ocl, sn);
    MapAllOfOne([sn], (x: Subnet) => SubnetBlockOf(ocl, x));
  }

  lemma VmSection(ocl: Ocl, sn: Subnet, group: SecurityGroup, vm: Vm, st: Storage)
    requires ocl.network.Some? && |ocl.network.value.vpcs| > 0 && ocl.network.value.subnets == [sn]
    requires ocl.network.value.securityGroups == [group]
    requires ocl.compute == Some(Compute([vm])) && ocl.storages == Some([st])
    requires vm.subnets == ["$.network.subnets[0]"] && vm.securityGroups == ["$.network.securityGroups[0]"]
    requires vm.storages == ["$.storages[0]"]
    ensures VmBlocks(ocl) == Ok([VmBlock(vm.name, vm.vmType, vm.imageId, [SubnetId(sn.name)],
                                         [SecurityGroupId(group.name)], [VolumeId(st.name)])])
  {
    FixtureVmBlock(ocl, vm);
    MapAllOfOne([vm], (x: Vm) => VmBlockOf(ocl, x));
  }

  lemma OtherSections(ocl: Ocl, vpc: Vpc, group: SecurityGroup, st: Storage)
    requires ocl.network.Some? && ocl.network.value.vpcs == [vpc]
    requires ocl.network.value.securityGroups == [group] && ocl.storages == Some([st])
    requires st.size == 80
    ensures SecurityGroupBlocks(ocl) == Ok([SecurityGroupBlock(group.name)])
    ensures VpcBlocks(ocl) == Ok([VpcBlock(vpc.name, vpc.cidr)])
    ensures StorageBlocks(ocl) == Ok([StorageBlock(st.name, st.storageType, "80")])
  {
    assert NatToString(80) == "80";
    assert SecurityGroupBlocks(ocl).value == [SecurityGroupBlock(group.name)];
    assert VpcBlocks(ocl).value == [VpcBlock(vpc.name, vpc.cidr)];
    assert StorageBlocks(ocl).value == [StorageBlock(st.name, st.storageType, "80")];
  }

  /** A descriptor built like the test's: one VPC, one subnet `10.10.0.0/24` in it, one
      security group with one rule whose port list splits into the test's entries, one
      VM referring to element 0 of each list and one storage of 80 GB. The whole document
      translates, and its sections are the blocks the test looks for. */
  lemma FixtureDocument(ocl: Ocl, vpc: Vpc, sn: Subnet, group: SecurityGroup, rule: SecurityRule, vm: Vm, st: Storage)
    requires ocl.network == Some(Network([vpc], [sn], [group])) && group.rules == [rule]
    requires ocl.compute == Some(Compute([vm])) && ocl.storages == Some([st])
    requires sn.cidr == "10.10.0.0/24" && sn.vpc == "$.network.vpc[0]"
    requires rule.name == "secRuleTest" && PortEntries(rule.ports) == ["8080", " 9092-9093", " 2181"]
    requires vm.subnets == ["$.network.subnets[0]"] && vm.securityGroups == ["$.network.securityGroups[0]"]
    requires vm.storages == ["$.storages[0]"]
    requires st.size == 80
    ensures HclOf(ocl).Ok?
    ensures var h := HclOf(ocl).value;
      && h.rules == RuleBlocks(group.name, rule).value
      && h.securityGroups == [SecurityGroupBlock(group.name)]
      && h.vpcs == [VpcBlock(vpc.name, vpc.cidr)]
      && h.subnets == [SubnetBlock(sn.name, "10.10.0.0/24", "10.10.0.1", VpcId(vpc.name))]
      && h.vms == [VmBlock(vm.name, vm.vmType, vm.imageId, [SubnetId(sn.name)], [SecurityGroupId(group.name)],
                           [VolumeId(st.name)])]
      && h.storages == [StorageBlock(st.name, st.storageType, "80")]
  {
    FixtureRuleNames(group.name, rule);
    SingleRuleSection(ocl, group, rule);
    SubnetSection(ocl, vpc, sn, group, st);
    VmSection(ocl, sn, group, vm, st);
    OtherSections(ocl, vpc, group, st);
  }

  /** The test's own descriptor translates: three rule blocks, ingress tcp from
      `10.10.2.0/24` in group `securityTest`, the second spanning 9092 to 9093; the subnet gets gateway `10.10.0.1` and the
      id of `xpanse-vpc`; the VM gets the ids of `xpanse-subnet`, `securityTest` and
      `my-storage`; the storage volume is `SSD` of size `80`. */
  lemma FixtureTranslates()
    ensures HclOf(Fixture).Ok?
    ensures HclOf(Fixture).value.subnets
      == [SubnetBlock("xpanse-subnet", "10.10.0.0/24", "10.10.0.1", VpcId("xpanse-vpc"))]
    ensures HclOf(Fixture).value.vms == [VmBlock(TestVm.name, "c7.large.4", TestVm.imageId,
      [SubnetId("xpanse-subnet")], [SecurityGroupId("securityTest")], [VolumeId("my-storage")])]
    ensures HclOf(Fixture).value.storages == [StorageBlock("my-storage", "SSD", "80")]
    ensures HclOf(Fixture).value.securityGroups == [SecurityGroupBlock("securityTest")]
    ensures HclOf(Fixture).value.vpcs == [VpcBlock("xpanse-vpc", "10.10.0.0/16")]
    ensures var rs := HclOf(Fixture).value.rules;
      && |rs| == 3 && rs[0].name == "secRuleTest_0" && rs[2].name == "secRuleTest_2"
      && rs[1].portRangeMin == "9092" && rs[1].portRangeMax == "9093"
      && forall i :: 0 <= i < 3 ==>
        && rs[i].securityGroupId == SecurityGroupId("securityTest")
        && rs[i].direction == "ingress" && rs[i].protocol == "tcp" && rs[i].remoteIpPrefix == "10.10.2.0/24"
  {
    FixturePortEntries();
    FixtureRuleNames(TestGroup.name, TestRule);
    FixtureRulePorts(TestGroup.name, TestRule);
    FixtureRuleFields(TestGroup.name, TestRule);
    FixtureDocument(Fixture, TestVpc, TestSubnet, TestGroup, TestRule, TestVm, TestStorage);
  }
}
