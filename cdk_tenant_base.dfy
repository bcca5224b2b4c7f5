/** The cdk copy of `TenantBase` (src/cdk_auto_platform/models/tenants/tenant_base.py):
    validates its network inputs eagerly, derives `vpc_cidr` once at
    construction, and has four lifecycle methods that only set `environment`. */
module CdkTenants {
  import opened Wrappers
  import opened Errors
  import opened Enums
  import opened Blueprints
  import opened PrefixListCidrs
  import Dns
  import VpcCidrBuilder

  function MissingRangesMessage(infrastructureType: InfrastructureTypes): string
  {
    "ip_private_ranges must be defined for " + infrastructureType.Value() + " infrastructure type"
  }

  function MissingPrefixListMessage(infrastructureType: InfrastructureTypes): string
  {
    "prefix_list_cidrs must be defined for " + infrastructureType.Value() + " infrastructure type"
  }

  const EcsEc2RdsMessage: string := "ecs_ec2_rds is not implemented yet"
  const EcsUndefinedMessage: string := "ECS Fargate blueprints are not defined for this tenant"
  const RdsUndefinedMessage: string := "RDS blueprints are not defined for this tenant"

  /** Every entry of a prefix list passes `validate_cidr`. */
  ghost predicate AllCidrsValid(entries: seq<PrefixListCidr>)
  {
    forall i :: 0 <= i < |entries| ==> ValidateCidr(entries[i]).Pass?
  }

  /** What construction reports, as a whole: serverless tenants are never
      checked; otherwise missing ranges are reported first, then a missing
      prefix list, then the first entry that fails `validate_cidr`. */
  ghost function ConstructionCheck(infrastructureType: InfrastructureTypes,
                                   ipPrivateRanges: Option<IpPrivateRanges>,
                                   prefixListCidrs: Option<seq<PrefixListCidr>>): (o: Outcome<Exception>)
    ensures o.Pass? <==> infrastructureType == Serverless
                         || (ipPrivateRanges.Some? && prefixListCidrs.Some? && AllCidrsValid(prefixListCidrs.value))
    ensures o.Fail? ==> o.error.ValueError?
  {
    if infrastructureType == Serverless then Pass
    else if ipPrivateRanges.None? then Fail(ValueError(MissingRangesMessage(infrastructureType)))
    else if prefixListCidrs.None? then Fail(ValueError(MissingPrefixListMessage(infrastructureType)))
    else if AllCidrsValid(prefixListCidrs.value) then Pass
    else Fail(ValueError(Slash16Message))
  }

  /** When both network inputs are missing, the missing ranges are reported. */
  lemma MissingRangesReportedFirst(infrastructureType: InfrastructureTypes,
                                   prefixListCidrs: Option<seq<PrefixListCidr>>)
    requires infrastructureType != Serverless
    ensures ConstructionCheck(infrastructureType, None, prefixListCidrs)
         == Fail(ValueError(MissingRangesMessage(infrastructureType)))
  {
  }

  /** A present but empty prefix list is accepted, and a serverless tenant is
      accepted whatever its network inputs. */
  lemma AcceptedConstructions(infrastructureType: InfrastructureTypes,
                              ranges: IpPrivateRanges,
                              ipPrivateRanges: Option<IpPrivateRanges>,
                              prefixListCidrs: Option<seq<PrefixListCidr>>)
    ensures ConstructionCheck(infrastructureType, Some(ranges), Some([])).Pass?
    ensures ConstructionCheck(Serverless, ipPrivateRanges, prefixListCidrs).Pass?
  {
  }

  class TenantBase {
    const principalDns: string
    const company: string
    const product: Product
    const awsAccount: Option<string>
    const awsRegion: Option<string>
    const federatedDns: string
    const privateDns: string
    const certificateArn: Option<string>
    const infrastructureType: InfrastructureTypes
    const ipPrivateRanges: Option<IpPrivateRanges>
    const prefixListCidrs: Option<seq<PrefixListCidr>>
    /** `None` while the attribute has never been assigned. */
    var vpcCidr: Option<string>
    var environment: Option<AppEnvironment>
    var ecsFargateBlueprints: Option<EcsFargateBlueprintMap>
    var rdsBlueprints: Option<RdsBlueprintMap>

    /** What every tenant that construction returns satisfies. */
    ghost predicate Valid()
      reads this
    {
      && federatedDns == Dns.FederatedDns(product, principalDns)
      && privateDns == Dns.PrivateDns(federatedDns)
      && ConstructionCheck(infrastructureType, ipPrivateRanges, prefixListCidrs).Pass?
      && vpcCidr == (if infrastructureType == Serverless then None
                     else Some(VpcCidrBuilder.Build(ipPrivateRanges)))
    }

    /** The attribute assignments of `__init__`, before any check runs. */
    constructor (company: string, product: Product, principalDns: string,
                 infrastructureType: InfrastructureTypes,
                 awsAccount: Option<string>, awsRegion: Option<string>,
                 certificateArn: Option<string>,
                 ipPrivateRanges: Option<IpPrivateRanges>,
                 prefixListCidrs: Option<seq<PrefixListCidr>>)
      ensures this.company == company && this.product == product
      ensures this.principalDns == principalDns
      ensures this.infrastructureType == infrastructureType
      ensures this.awsAccount == awsAccount && this.awsRegion == awsRegion
      ensures this.certificateArn == certificateArn
      ensures this.ipPrivateRanges == ipPrivateRanges && this.prefixListCidrs == prefixListCidrs
      ensures federatedDns == Dns.FederatedDns(product, principalDns)
      ensures privateDns == Dns.PrivateDns(federatedDns)
      ensures vpcCidr == None && environment == None
      ensures ecsFargateBlueprints == None && rdsBlueprints == None
    {
      this.principalDns := principalDns;
      this.company := company;
      this.product := product;
      this.awsAccount := awsAccount;
      this.awsRegion := awsRegion;
      this.federatedDns := Dns.FederatedDns(product, principalDns);
      this.privateDns := Dns.PrivateDns(Dns.FederatedDns(product, principalDns));
      this.certificateArn := certificateArn;
      this.infrastructureType := infrastructureType;
      this.ipPrivateRanges := ipPrivateRanges;
      this.prefixListCidrs := prefixListCidrs;
      vpcCidr := None;
      environment := None;
      ecsFargateBlueprints := None;
      rdsBlueprints := None;
    }

    /** `TenantBase(...)`: assigns the attributes, runs both network checks in
        order and, for any type but SERVERLESS, derives `vpc_cidr`. Fails with
        the first check's error. */
    static method Create(company: string, product: Product, principalDns: string,
                         infrastructureType: InfrastructureTypes,
                         awsAccount: Option<string>, awsRegion: Option<string>,
                         certificateArn: Option<string>,
                         ipPrivateRanges: Option<IpPrivateRanges>,
                         prefixListCidrs: Option<seq<PrefixListCidr>>)
      returns (r: Result<TenantBase, Exception>)
      ensures r.Failure? <==> ConstructionCheck(infrastructureType, ipPrivateRanges, prefixListCidrs).Fail?
      ensures r.Failure? ==> r.error == ConstructionCheck(infrastructureType, ipPrivateRanges, prefixListCidrs).error
      ensures r.Success? ==> fresh(r.value) && r.value.Valid()
      ensures r.Success? ==>
        var t := r.value;
        && t.company == company && t.product == product && t.principalDns == principalDns
        && t.infrastructureType == infrastructureType
        && t.awsAccount == awsAccount && t.awsRegion == awsRegion && t.certificateArn == certificateArn
        && t.ipPrivateRanges == ipPrivateRanges && t.prefixListCidrs == prefixListCidrs
        && t.environment == None && t.ecsFargateBlueprints == None && t.rdsBlueprints == None
    {
      var t := new TenantBase(company, product, principalDns, infrastructureType,
                              awsAccount, awsRegion, certificateArn, ipPrivateRanges, prefixListCidrs);
      var checked := t.ValidateIpPrivateRanges();
      if checked.Fail? {
        return Failure(checked.error);
      }
      checked := t.ValidatePrefixListCidrs();
      if checked.Fail? {
        return Failure(checked.error);
      }
      if t.infrastructureType != Serverless {
        t.vpcCidr := Some(VpcCidrBuilder.Build(t.ipPrivateRanges));
      }
      return Success(t);
    }

    /** `validate_ip_private_ranges`: fails iff a non-serverless tenant has no
        private-range class. */
    method ValidateIpPrivateRanges() returns (o: Outcome<Exception>)
      ensures o.Fail? <==> infrastructureType != Serverless && ipPrivateRanges.None?
      ensures o.Fail? ==> o.error == ValueError(MissingRangesMessage(infrastructureType))
    {
      if infrastructureType != Serverless {
        if ipPrivateRanges.None? {
          return Fail(ValueError(MissingRangesMessage(infrastructureType)));
        }
      }
      return Pass;
    }

    /** `validate_prefix_list_cidrs`: for a non-serverless tenant, fails when
        the list is missing or when some entry fails `validate_cidr`; an empty
        list passes. */
    method ValidatePrefixListCidrs() returns (o: Outcome<Exception>)
      ensures o.Pass? <==> infrastructureType == Serverless
                           || (prefixListCidrs.Some? && AllCidrsValid(prefixListCidrs.value))
      ensures o.Fail? ==> o.error == if prefixListCidrs.None?
                                     then ValueError(MissingPrefixListMessage(infrastructureType))
                                     else ValueError(Slash16Message)
    {
      if infrastructureType != Serverless {
        if prefixListCidrs.Some? {
          var entries := prefixListCidrs.value;
          var i := 0;
          while i < |entries|
            invariant 0 <= i <= |entries|
            invariant forall j :: 0 <= j < i ==> ValidateCidr(entries[j]).Pass?
          {
            var checked := ValidateCidr(entries[i]);
            if checked.Fail? {
              return checked;
            }
            i := i + 1;
          }
        } else {
          return Fail(ValueError(MissingPrefixListMessage(infrastructureType)));
        }
      }
      return Pass;
    }

    /** `_builder_blueprints`: ECS_FARGATE_RDS stores both mappings as given
        (absent ones included), RDS_ONLY stores only the RDS mapping,
        SERVERLESS stores nothing, and ECS_EC2_RDS raises and stores nothing. */
    method BuilderBlueprints(ecs: Option<EcsFargateBlueprintMap>, rds: Option<RdsBlueprintMap>)
      returns (o: Outcome<Exception>)
      modifies this`ecsFargateBlueprints, this`rdsBlueprints
      ensures o.Fail? <==> infrastructureType == EcsEc2Rds
      ensures o.Fail? ==> o.error == NotImplementedError(EcsEc2RdsMessage)
      ensures ecsFargateBlueprints == if infrastructureType == EcsFargateRds then ecs
                                      else old(ecsFargateBlueprints)
      ensures rdsBlueprints == if infrastructureType == EcsFargateRds || infrastructureType == RdsOnly then rds
                               else old(rdsBlueprints)
    {
      if infrastructureType == EcsFargateRds {
        ecsFargateBlueprints := ecs;
        rdsBlueprints := rds;
      } else if infrastructureType == EcsEc2Rds {
        return Fail(NotImplementedError(EcsEc2RdsMessage));
      } else if infrastructureType == RdsOnly {
        rdsBlueprints := rds;
      }
      return Pass;
    }

    /** The `ecs_fargate_blueprints` property: the stored mapping, which may be
        empty, or an error when none was ever stored or `None` was stored. */
    method EcsFargateBlueprints() returns (r: Result<EcsFargateBlueprintMap, Exception>)
      ensures r.Success? <==> ecsFargateBlueprints.Some?
      ensures r.Success? ==> r.value == ecsFargateBlueprints.value
      ensures r.Failure? ==> r.error == ValueError(EcsUndefinedMessage)
    {
      if ecsFargateBlueprints.None? {
        return Failure(ValueError(EcsUndefinedMessage));
      }
      return Success(ecsFargateBlueprints.value);
    }

    /** The `rds_blueprints` property, guarded in the same way. */
    method RdsBlueprints() returns (r: Result<RdsBlueprintMap, Exception>)
      ensures r.Success? <==> rdsBlueprints.Some?
      ensures r.Success? ==> r.value == rdsBlueprints.value
      ensures r.Failure? ==> r.error == ValueError(RdsUndefinedMessage)
    {
      if rdsBlueprints.None? {
        return Failure(ValueError(RdsUndefinedMessage));
      }
      return Success(rdsBlueprints.value);
    }

    /** `local()`: sets the environment and returns the same tenant; nothing
        else changes, `vpc_cidr` included. */
    method Local() returns (self: TenantBase)
      modifies this`environment
      ensures self == this && environment == Some(AppEnvironment.Local)
      ensures vpcCidr == old(vpcCidr) && (Valid() <==> old(Valid()))
    {
      environment := Some(AppEnvironment.Local);
      return this;
    }

    /** `dev()`, as `local()` with DEV. */
    method Dev() returns (self: TenantBase)
      modifies this`environment
      ensures self == this && environment == Some(AppEnvironment.Dev)
      ensures vpcCidr == old(vpcCidr) && (Valid() <==> old(Valid()))
    {
      environment := Some(AppEnvironment.Dev);
      return this;
    }

    /** `uat()`, as `local()` with UAT. */
    method Uat() returns (self: TenantBase)
      modifies this`environment
      ensures self == this && environment == Some(AppEnvironment.Uat)
      ensures vpcCidr == old(vpcCidr) && (Valid() <==> old(Valid()))
    {
      environment := Some(AppEnvironment.Uat);
      return this;
    }

    /** `prod()`, as `local()` with PROD. */
    method Prod() returns (self: TenantBase)
      modifies this`environment
      ensures self == this && environment == Some(AppEnvironment.Prod)
      ensures vpcCidr == old(vpcCidr) && (Valid() <==> old(Valid()))
    {
      environment := Some(AppEnvironment.Prod);
      return this;
    }
  }

  /** Lifecycle calls do not stack: after `prod()` then `dev()` the tenant is
      in DEV, and its `vpc_cidr` is still the one derived at construction. */
  method ProdThenDev(t: TenantBase) returns (self: TenantBase)
    modifies t`environment
    ensures self == t && t.environment == Some(AppEnvironment.Dev)
    ensures t.vpcCidr == old(t.vpcCidr)
  {
    var chained := t.Prod();
    self := chained.Dev();
  }

  /** An RDS_ONLY tenant with a LARGE_COMPANY range and one /24 prefix entry:
      construction succeeds with `vpc_cidr` 10.2.0.0/16; after `dev()` and the
      registration of an RDS mapping, the RDS accessor returns that mapping
      and the ECS accessor still fails. */
  method RdsOnlyTenant(company: string, product: Product, principalDns: string, rds: RdsBlueprintMap)
    returns (created: bool, vpcCidr: Option<string>, environment: Option<AppEnvironment>,
             ecsRead: Result<EcsFargateBlueprintMap, Exception>,
             rdsRead: Result<RdsBlueprintMap, Exception>)
    ensures created && vpcCidr == Some("10.2.0.0/16") && environment == Some(AppEnvironment.Dev)
    ensures ecsRead == Failure(ValueError(EcsUndefinedMessage))
    ensures rdsRead == Success(rds)
  {
    var office := PrefixListCidr("10.10.0.0/24", "office");
    forall i | Text.OccursAt(office.cidr, "/16", i) ensures false {
      Slash16Chars(office.cidr, i);
    }
    assert AllCidrsValid([office]);
    VpcCidrBuilder.BuildMaskWidths();
    var r := TenantBase.Create(company, product, principalDns, RdsOnly, None, None, None,
                               Some(LargeCompany), Some([office]));
    created := r.Success?;
    var t := r.value;
    t := t.Dev();
    vpcCidr, environment := t.vpcCidr, t.environment;
    var registered := t.BuilderBlueprints(None, Some(rds));
    ecsRead := t.EcsFargateBlueprints();
    rdsRead := t.RdsBlueprints();
  }
}
