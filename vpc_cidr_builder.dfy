/** `VpcCidrBuilder.build`: the VPC block a tenant gets for its private-range
    class (src/iden_q_auto_platform/build/vpc_cidr_builder.py). */
module VpcCidrBuilder {
  import opened Wrappers
  import opened Enums
  import opened Cidr
  import opened Text

  /** The block literal for `range`: the class's leading octets followed by a
      fixed suffix. An argument that is no member of the enum (`None` here)
      matches no branch and yields the initial empty string. */
  function Build(range: Option<IpPrivateRanges>): (cidr: string)
    ensures cidr == "" <==> range.None?
    ensures range.Some? ==>
      var v := range.value.Value();
      |v| < |cidr| && cidr[..|v|] == v && cidr[|v|] == '.'
  {
    match range
    case Some(LargeCompany) => LargeCompany.Value() + ".2.0.0/16"
    case Some(BigCompany) => BigCompany.Value() + ".32.0/20"
    case Some(SmallCompany) => SmallCompany.Value() + ".32.0/24"
    case None => ""
  }

  /** The block of section 3 of RFC 1918 that a range class stands for. */
  function Rfc1918Block(range: IpPrivateRanges): Block
  {
    match range
    case LargeCompany => Private10
    case BigCompany => Private172
    case SmallCompany => Private192
  }

  /** The block sizes listed in the range enum's documentation
      (src/cdk_auto_platform/models/vpc/ip_ranges_types.py). */
  function DocumentedSize(range: IpPrivateRanges): nat
  {
    match range
    case LargeCompany => 65536
    case BigCompany => 4096
    case SmallCompany => 256
  }

  /** The block `Build` denotes, as an address/mask pair. */
  function BuiltBlock(range: IpPrivateRanges): Block
  {
    match range
    case LargeCompany => Block(10, 2, 0, 0, 16)
    case BigCompany => Block(172, 16, 32, 0, 20)
    case SmallCompany => Block(192, 168, 32, 0, 24)
  }

  /** The decimal numerals the built literals are made of. */
  lemma Numerals()
    ensures NatToString(0) == "0" && NatToString(2) == "2"
    ensures NatToString(10) == "10" && NatToString(16) == "16"
    ensures NatToString(20) == "20" && NatToString(24) == "24" && NatToString(32) == "32"
    ensures NatToString(168) == "168" && NatToString(172) == "172" && NatToString(192) == "192"
  {
  }

  /** The block sizes the built blocks and the RFC 1918 blocks have. */
  lemma Pow2Facts()
    ensures Pow2(8) == 256 && Pow2(12) == 4096 && Pow2(16) == 65536
    ensures Pow2(20) == 1048576 && Pow2(24) == 16777216
  {
  }

  /** `Build` writes exactly the literal of its block. */
  lemma BuildRendersBlock(range: IpPrivateRanges)
    ensures Build(Some(range)) == Render(BuiltBlock(range))
  {
    Numerals();
  }

  /** The built literal reads back as the block it was written from. */
  lemma BuildParses(range: IpPrivateRanges)
    ensures Parse(Build(Some(range))) == Some(BuiltBlock(range))
  {
    BuildRendersBlock(range);
    ParseRender(BuiltBlock(range));
  }

  /** The built block is well formed, has the documented size and lies inside
      the class's RFC 1918 block. */
  lemma BuiltBlockIsPrivate(range: IpPrivateRanges)
    ensures Valid(BuiltBlock(range))
    ensures Size(BuiltBlock(range)) == DocumentedSize(range)
    ensures Within(BuiltBlock(range), Rfc1918Block(range))
  {
    Pow2Facts();
  }

  /** The mask widths are /16, /20 and /24. */
  lemma BuildMaskWidths()
    ensures Build(Some(LargeCompany)) == "10.2.0.0/16"
    ensures Build(Some(BigCompany)) == "172.16.32.0/20"
    ensures Build(Some(SmallCompany)) == "192.168.32.0/24"
    ensures BuiltBlock(LargeCompany).prefixLength == 16
    ensures BuiltBlock(BigCompany).prefixLength == 20
    ensures BuiltBlock(SmallCompany).prefixLength == 24
  {
  }
}
