/** `TenantExample` (server/aws/cdk/tenants/example.py): a concrete tenant on
    the iden_q `TenantBase`. The company, account and region constants live in
    a module that is not part of this model and are parameters here. */
module TenantExamples {
  import opened Wrappers
  import opened Errors
  import opened Enums
  import opened PrefixListCidrs
  import opened IdenQTenants

  /** The example's `Products` enum. */
  const App: Product := Product("app")
  const Api: Product := Product("api")

  const ExampleCertificateArn: string := "arn:aws:acm:us-west-2:123456789012:certificate/EXAMPLE"

  /** `TenantExample()`: a SERVERLESS tenant that nevertheless names a
      LARGE_COMPANY range and a prefix entry with an empty CIDR; the iden_q
      base checks none of it, so construction always succeeds. */
  method NewTenantExample(company: string, awsAccount: string, awsRegion: string) returns (t: TenantBase)
    ensures fresh(t)
    ensures t.company == company && t.product == App
    ensures t.federatedDns == "app.example.com" && t.privateDns == "internal.app.example.com"
    ensures t.infrastructureType == Serverless && t.ipPrivateRanges == Some(LargeCompany)
    ensures t.prefixListCidrs == Some([PrefixListCidr("", "")])
    ensures t.principalDns == "example.com"
    ensures t.awsAccount == awsAccount && t.awsRegion == awsRegion
    ensures t.certificateArn == ExampleCertificateArn
    ensures t.vpcCidr == None && t.environment == None
    ensures t.ecsFargateBlueprints == None && t.rdsBlueprints == None
  {
    t := new TenantBase(company, App, awsAccount, awsRegion, "example.com", ExampleCertificateArn,
                        Serverless, Some(LargeCompany), Some([PrefixListCidr("", "")]));
  }

  /** The example's `dev()` override: delegates to the base and returns its result. */
  method Dev(t: TenantBase) returns (self: TenantBase)
    modifies t`vpcCidr, t`environment
    ensures self == t && t.environment == Some(AppEnvironment.Dev)
    ensures t.vpcCidr == if t.ipPrivateRanges.Some? then Some(StageCidr(DevStage, t.ipPrivateRanges.value))
                         else old(t.vpcCidr)
  {
    self := t.Dev();
  }

  /** The example's `uat()` override: delegates to the base. */
  method Uat(t: TenantBase) returns (self: TenantBase)
    modifies t`vpcCidr, t`environment
    ensures self == t && t.environment == Some(AppEnvironment.Uat)
    ensures t.vpcCidr == if t.ipPrivateRanges.Some? then Some(StageCidr(UatStage, t.ipPrivateRanges.value))
                         else old(t.vpcCidr)
  {
    self := t.Uat();
  }

  /** The example's `prod()` override: delegates to the base, so it raises too. */
  method Prod(t: TenantBase) returns (r: Result<TenantBase, Exception>)
    modifies t`vpcCidr, t`environment
    ensures r == Failure(AttributeError("LIVE")) && t.environment == old(t.environment)
    ensures t.vpcCidr == if t.ipPrivateRanges.Some? then Some(StageCidr(ProdStage, t.ipPrivateRanges.value))
                         else old(t.vpcCidr)
  {
    r := t.Prod();
  }

  /** The example tenant through its lifecycle: `dev()` gives 10.2.0.0/16 and
      DEV, `uat()` then gives 10.1.0.0/16 and UAT, all despite the SERVERLESS
      type; `prod()`, the call the CDK app makes, then raises for `LIVE` after
      setting 10.0.0.0/16, leaving UAT in place. */
  method ExampleLifecycle(company: string, awsAccount: string, awsRegion: string)
    returns (afterDev: (Option<string>, Option<AppEnvironment>),
             afterUat: (Option<string>, Option<AppEnvironment>),
             prod: Result<TenantBase, Exception>,
             afterProd: (Option<string>, Option<AppEnvironment>))
    ensures afterDev == (Some("10.2.0.0/16"), Some(AppEnvironment.Dev))
    ensures afterUat == (Some("10.1.0.0/16"), Some(AppEnvironment.Uat))
    ensures prod == Failure(AttributeError("LIVE"))
    ensures afterProd == (Some("10.0.0.0/16"), Some(AppEnvironment.Uat))
  {
    assert StageCidr(DevStage, LargeCompany) == "10" + ".2.0.0/16" == "10.2.0.0/16";
    assert StageCidr(UatStage, LargeCompany) == "10" + ".1.0.0/16" == "10.1.0.0/16";
    assert StageCidr(ProdStage, LargeCompany) == "10" + ".0.0.0/16" == "10.0.0.0/16";
    var t := NewTenantExample(company, awsAccount, awsRegion);
    var self := Dev(t);
    afterDev := (t.vpcCidr, t.environment);
    self := Uat(t);
    afterUat := (t.vpcCidr, t.environment);
    prod := Prod(t);
    afterProd := (t.vpcCidr, t.environment);
  }
}
