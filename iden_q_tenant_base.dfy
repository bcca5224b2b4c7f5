/** The iden_q copy of `TenantBase` (src/iden_q_auto_platform/models/tenants/tenant_base.py):
    validates nothing at construction and assigns `vpc_cidr` in its `dev`,
    `uat` and `prod` methods from an environment-by-range table. Its `prod`
    names an environment member `LIVE` that `AppEnvironment` does not have. */
module IdenQTenants {
  import opened Wrappers
  import opened Errors
  import opened Enums
  import opened Blueprints
  import opened PrefixListCidrs
  import opened Cidr
  import Dns
  import VpcCidrBuilder

  /** The three lifecycle methods that assign `vpc_cidr`. */
  datatype Stage = DevStage | UatStage | ProdStage

  /** The suffix each lifecycle method appends to the range's leading octets. */
  function StageSuffix(stage: Stage, range: IpPrivateRanges): string
  {
    match (stage, range)
    case (DevStage, LargeCompany) => ".2.0.0/16"
    case (DevStage, BigCompany) => ".32.0/20"
    case (DevStage, SmallCompany) => ".32.0/24"
    case (UatStage, LargeCompany) => ".1.0.0/16"
    case (UatStage, BigCompany) => ".16.0/20"
    case (UatStage, SmallCompany) => ".16.0/24"
    case (ProdStage, LargeCompany) => ".0.0.0/16"
    case (ProdStage, BigCompany) => ".0.0/20"
    case (ProdStage, SmallCompany) => ".0.0/24"
  }

  /** The mask each range class uses in every environment. */
  function MaskSuffix(range: IpPrivateRanges): string
  {
    match range
    case LargeCompany => "/16"
    case BigCompany => "/20"
    case SmallCompany => "/24"
  }

  /** The literal a lifecycle method assigns to `vpc_cidr`. */
  function StageCidr(stage: Stage, range: IpPrivateRanges): string
  {
    range.Value() + StageSuffix(stage, range)
  }

  /** Every table entry is the class's leading octets, a dot, and the class's
      own mask, whatever the stage. */
  lemma StageCidrShape(stage: Stage, range: IpPrivateRanges)
    ensures var cidr := StageCidr(stage, range);
      && |cidr| > |range.Value()| + 3
      && cidr[..|range.Value()|] == range.Value() && cidr[|range.Value()|] == '.'
      && cidr[|cidr| - 3..] == MaskSuffix(range)
  {
    var suffix := StageSuffix(stage, range);
    match (stage, range)
    case (DevStage, LargeCompany) => assert suffix == ".2.0.0/16";
    case (DevStage, BigCompany) => assert suffix == ".32.0/20";
    case (DevStage, SmallCompany) => assert suffix == ".32.0/24";
    case (UatStage, LargeCompany) => assert suffix == ".1.0.0/16";
    case (UatStage, BigCompany) => assert suffix == ".16.0/20";
    case (UatStage, SmallCompany) => assert suffix == ".16.0/24";
    case (ProdStage, LargeCompany) => assert suffix == ".0.0.0/16";
    case (ProdStage, BigCompany) => assert suffix == ".0.0/20";
    case (ProdStage, SmallCompany) => assert suffix == ".0.0/24";
    assert suffix[0] == '.' && suffix[|suffix| - 3..] == MaskSuffix(range);
    var cidr := StageCidr(stage, range);
    assert cidr[|range.Value()|..] == suffix;
  }

  /** The block a table entry denotes: the third octet (the second for
      LARGE_COMPANY) steps by the block size, prod first, then uat, then dev. */
  function StageBlock(stage: Stage, range: IpPrivateRanges): Block
  {
    var step := match stage case ProdStage => 0 case UatStage => 1 case DevStage => 2;
    match range
    case LargeCompany => Block(10, step, 0, 0, 16)
    case BigCompany => Block(172, 16, 16 * step, 0, 20)
    case SmallCompany => Block(192, 168, 16 * step, 0, 24)
  }

  lemma UatCidrRendersBlock(range: IpPrivateRanges)
    ensures StageCidr(UatStage, range) == Render(StageBlock(UatStage, range))
  {
    VpcCidrBuilder.Numerals();
    assert Text.NatToString(1) == "1";
    match range
    case LargeCompany => assert StageCidr(UatStage, range) == "10.1.0.0/16";
    case BigCompany => assert StageCidr(UatStage, range) == "172.16.16.0/20";
    case SmallCompany => assert StageCidr(UatStage, range) == "192.168.16.0/24";
  }

  lemma ProdCidrRendersBlock(range: IpPrivateRanges)
    ensures StageCidr(ProdStage, range) == Render(StageBlock(ProdStage, range))
  {
    VpcCidrBuilder.Numerals();
  }

  /** Each table literal is the literal of its block. */
  lemma StageCidrRendersBlock(stage: Stage, range: IpPrivateRanges)
    ensures StageCidr(stage, range) == Render(StageBlock(stage, range))
  {
    match stage
    case DevStage =>
      VpcCidrBuilder.BuildRendersBlock(range);
      assert StageBlock(stage, range) == VpcCidrBuilder.BuiltBlock(range);
    case UatStage => UatCidrRendersBlock(range);
    case ProdStage => ProdCidrRendersBlock(range);
  }

  /** Each table literal reads back as its block. */
  lemma StageCidrParses(stage: Stage, range: IpPrivateRanges)
    ensures Parse(StageCidr(stage, range)) == Some(StageBlock(stage, range))
  {
    StageCidrRendersBlock(stage, range);
    ParseRender(StageBlock(stage, range));
  }

  /** Every table block is well formed, has the size documented for its range
      class and lies inside the class's RFC 1918 block. */
  lemma StageBlockIsPrivate(stage: Stage, range: IpPrivateRanges)
    ensures Valid(StageBlock(stage, range))
    ensures Size(StageBlock(stage, range)) == VpcCidrBuilder.DocumentedSize(range)
    ensures Within(StageBlock(stage, range), VpcCidrBuilder.Rfc1918Block(range))
  {
    VpcCidrBuilder.Pow2Facts();
  }

  /** Within a range class, the blocks of different environments share no
      address, so their literals differ too. */
  lemma StageBlocksDisjoint(s1: Stage, s2: Stage, range: IpPrivateRanges)
    requires s1 != s2
    ensures Disjoint(StageBlock(s1, range), StageBlock(s2, range))
    ensures StageCidr(s1, range) != StageCidr(s2, range)
  {
    VpcCidrBuilder.Pow2Facts();
    StageCidrParses(s1, range);
    StageCidrParses(s2, range);
  }

  /** `dev()` assigns exactly what `VpcCidrBuilder.build` returns. */
  lemma DevStageIsBuild(range: IpPrivateRanges)
    ensures StageCidr(DevStage, range) == VpcCidrBuilder.Build(Some(range))
  {
  }

  const EcsEc2RdsMessage: string := "ecs_ec2_rds is not implemented yet"
  const EcsUndefinedMessage: string := "ECS Fargate blueprints are not defined for this tenant"
  const RdsUndefinedMessage: string := "RDS blueprints are not defined for this tenant"

  class TenantBase {
    const principalDns: string
    const company: string
    const product: Product
    const awsAccount: string
    const awsRegion: string
    const federatedDns: string
    const privateDns: string
    const certificateArn: string
    const infrastructureType: InfrastructureTypes
    const ipPrivateRanges: Option<IpPrivateRanges>
    const prefixListCidrs: Option<seq<PrefixListCidr>>
    /** `None` while the attribute has never been assigned. */
    var vpcCidr: Option<string>
    var environment: Option<AppEnvironment>
    var ecsFargateBlueprints: Option<EcsFargateBlueprintMap>
    var rdsBlueprints: Option<RdsBlueprintMap>

    /** `TenantBase(...)`: stores its arguments and derives the DNS names; no
        input is checked, and neither `vpc_cidr` nor `environment` is set. */
    constructor (company: string, product: Product, awsAccount: string, awsRegion: string,
                 principalDns: string, certificateArn: string,
                 infrastructureType: InfrastructureTypes,
                 ipPrivateRanges: Option<IpPrivateRanges>,
                 prefixListCidrs: Option<seq<PrefixListCidr>>)
      ensures this.company == company && this.product == product
      ensures this.principalDns == principalDns
      ensures this.infrastructureType == infrastructureType
      ensures this.awsAccount == awsAccount && this.awsRegion == awsRegion
      ensures this.certificateArn == certificateArn
      ensures this.ipPrivateRanges == ipPrivateRanges && this.prefixListCidrs == prefixListCidrs
      ensures federatedDns == Dns.FederatedDns(product, principalDns)
      ensures privateDns == Dns.PrivateDns(federatedDns)
      ensures vpcCidr == None && environment == None
      ensures ecsFargateBlueprints == None && rdsBlueprints == None
    {
      this.principalDns := principalDns;
      this.company := company;
      this.product := product;
      this.awsAccount := awsAccount;
      this.awsRegion := awsRegion;
      this.federatedDns := Dns.FederatedDns(product, principalDns);
      this.privateDns := Dns.PrivateDns(Dns.FederatedDns(product, principalDns));
      this.certificateArn := certificateArn;
      this.infrastructureType := infrastructureType;
      this.ipPrivateRanges := ipPrivateRanges;
      this.prefixListCidrs := prefixListCidrs;
      vpcCidr := None;
      environment := None;
      ecsFargateBlueprints := None;
      rdsBlueprints := None;
    }

    /** `_builder_blueprints`, routed by infrastructure type as in the cdk copy. */
    method BuilderBlueprints(ecs: Option<EcsFargateBlueprintMap>, rds: Option<RdsBlueprintMap>)
      returns (o: Outcome<Exception>)
      modifies this`ecsFargateBlueprints, this`rdsBlueprints
      ensures o.Fail? <==> infrastructureType == EcsEc2Rds
      ensures o.Fail? ==> o.error == NotImplementedError(EcsEc2RdsMessage)
      ensures ecsFargateBlueprints == if infrastructureType == EcsFargateRds then ecs
                                      else old(ecsFargateBlueprints)
      ensures rdsBlueprints == if infrastructureType == EcsFargateRds || infrastructureType == RdsOnly then rds
                               else old(rdsBlueprints)
    {
      if infrastructureType == EcsFargateRds {
        ecsFargateBlueprints := ecs;
        rdsBlueprints := rds;
      } else if infrastructureType == EcsEc2Rds {
        return Fail(NotImplementedError(EcsEc2RdsMessage));
      } else if infrastructureType == RdsOnly {
        rdsBlueprints := rds;
      }
      return Pass;
    }

    /** The `ecs_fargate_blueprints` property. */
    method EcsFargateBlueprints() returns (r: Result<EcsFargateBlueprintMap, Exception>)
      ensures r.Success? <==> ecsFargateBlueprints.Some?
      ensures r.Success? ==> r.value == ecsFargateBlueprints.value
      ensures r.Failure? ==> r.error == ValueError(EcsUndefinedMessage)
    {
      if ecsFargateBlueprints.None? {
        return Failure(ValueError(EcsUndefinedMessage));
      }
      return Success(ecsFargateBlueprints.value);
    }

    /** The `rds_blueprints` property. */
    method RdsBlueprints() returns (r: Result<RdsBlueprintMap, Exception>)
      ensures r.Success? <==> rdsBlueprints.Some?
      ensures r.Success? ==> r.value == rdsBlueprints.value
      ensures r.Failure? ==> r.error == ValueError(RdsUndefinedMessage)
    {
      if rdsBlueprints.None? {
        return Failure(ValueError(RdsUndefinedMessage));
      }
      return Success(rdsBlueprints.value);
    }

    /** `self.environment = AppEnvironment.<name>`: raises AttributeError when
        the enum has no member of that name, leaving `environment` as it was. */
    method AssignEnvironmentNamed(name: string) returns (o: Outcome<Exception>)
      modifies this`environment
      ensures o.Fail? <==> AppEnvironmentMember(name).None?
      ensures o.Fail? ==> o.error == AttributeError(name)
      ensures environment == if o.Fail? then old(environment) else AppEnvironmentMember(name)
    {
      var member := AppEnvironmentMember(name);
      if member.None? {
        return Fail(AttributeError(name));
      }
      environment := member;
      return Pass;
    }

    /** `dev()`: assigns the dev block of the tenant's range class (leaving
        `vpc_cidr` as it was when there is none), sets DEV and returns the same
        tenant. The infrastructure type is never consulted. */
    method Dev() returns (self: TenantBase)
      modifies this`vpcCidr, this`environment
      ensures self == this && environment == Some(AppEnvironment.Dev)
      ensures vpcCidr == if ipPrivateRanges.Some? then Some(StageCidr(DevStage, ipPrivateRanges.value))
                         else old(vpcCidr)
    {
      if ipPrivateRanges == Some(LargeCompany) {
        vpcCidr := Some(ipPrivateRanges.value.Value() + ".2.0.0/16");
      } else if ipPrivateRanges == Some(BigCompany) {
        vpcCidr := Some(ipPrivateRanges.value.Value() + ".32.0/20");
      } else if ipPrivateRanges == Some(SmallCompany) {
        vpcCidr := Some(ipPrivateRanges.value.Value() + ".32.0/24");
      }
      environment := Some(AppEnvironment.Dev);
      return this;
    }

    /** `uat()`: as `dev()` with the uat block and UAT. */
    method Uat() returns (self: TenantBase)
      modifies this`vpcCidr, this`environment
      ensures self == this && environment == Some(AppEnvironment.Uat)
      ensures vpcCidr == if ipPrivateRanges.Some? then Some(StageCidr(UatStage, ipPrivateRanges.value))
                         else old(vpcCidr)
    {
      if ipPrivateRanges == Some(LargeCompany) {
        vpcCidr := Some(ipPrivateRanges.value.Value() + ".1.0.0/16");
      } else if ipPrivateRanges == Some(BigCompany) {
        vpcCidr := Some(ipPrivateRanges.value.Value() + ".16.0/20");
      } else if ipPrivateRanges == Some(SmallCompany) {
        vpcCidr := Some(ipPrivateRanges.value.Value() + ".16.0/24");
      }
      environment := Some(AppEnvironment.Uat);
      return this;
    }

    /** `prod()`: assigns the prod block, then reads `AppEnvironment.LIVE`,
        which is no member, so the call raises with `vpc_cidr` already changed
        and `environment` untouched. */
    method Prod() returns (r: Result<TenantBase, Exception>)
      modifies this`vpcCidr, this`environment
      ensures r == Failure(AttributeError("LIVE"))
      ensures environment == old(environment)
      ensures vpcCidr == if ipPrivateRanges.Some? then Some(StageCidr(ProdStage, ipPrivateRanges.value))
                         else old(vpcCidr)
    {
      if ipPrivateRanges == Some(LargeCompany) {
        vpcCidr := Some(ipPrivateRanges.value.Value() + ".0.0.0/16");
      } else if ipPrivateRanges == Some(BigCompany) {
        vpcCidr := Some(ipPrivateRanges.value.Value() + ".0.0/20");
      } else if ipPrivateRanges == Some(SmallCompany) {
        vpcCidr := Some(ipPrivateRanges.value.Value() + ".0.0/24");
      }
      var outcome := AssignEnvironmentNamed("LIVE");
      NoLiveMember();
      if outcome.Fail? {
        return Failure(outcome.error);
      }
      return Success(this);
    }
  }
}
