/** The closed vocabularies that drive the tenant's branching. Both copies of the
    platform declare these enums with the same members and values, so one
    declaration serves both tenant models. */
module Enums {
  import opened Wrappers

  /** Deployment stage (src/iden_q_auto_platform/models/environments/app_environment.py). */
  datatype AppEnvironment = Local | Dev | Uat | Prod {
    /** The enum member's name, as written in the source. */
    function Name(): string {
      match this
      case Local => "LOCAL"
      case Dev => "DEV"
      case Uat => "UAT"
      case Prod => "PROD"
    }

    /** The enum member's `.value`. */
    function Value(): string {
      match this
      case Local => "local"
      case Dev => "dev"
      case Uat => "uat"
      case Prod => "prod"
    }
  }

  /** `AppEnvironment.<name>`: attribute lookup on the enum class, which yields
      `None` (Python raises AttributeError) for a member name the enum does
      not declare. Other class attributes are not modelled. */
  function AppEnvironmentMember(name: string): (r: Option<AppEnvironment>)
    ensures r.Some? ==> r.value.Name() == name
  {
    if name == "LOCAL" then Some(Local)
    else if name == "DEV" then Some(Dev)
    else if name == "UAT" then Some(Uat)
    else if name == "PROD" then Some(Prod)
    else None
  }

  /** Every member is found under its own name, and under no other. */
  lemma AppEnvironmentMemberRoundTrip(e: AppEnvironment, name: string)
    ensures AppEnvironmentMember(name) == Some(e) <==> name == e.Name()
  {
  }

  /** The name `LIVE` used by one of the tenant models is not a member. */
  lemma NoLiveMember()
    ensures AppEnvironmentMember("LIVE") == None
  {
  }

  /** How a tenant's workload is hosted (src/iden_q_auto_platform/models/tenants/infrastructure_types.py). */
  datatype InfrastructureTypes = Serverless | EcsFargateRds | EcsEc2Rds | RdsOnly {
    function Value(): string {
      match this
      case Serverless => "serverless"
      case EcsFargateRds => "ecs_fargate_rds"
      case EcsEc2Rds => "ecs_ec2_rds"
      case RdsOnly => "rds_only"
    }
  }

  /** The three private address classes of section 3 of RFC 1918
      (src/cdk_auto_platform/models/vpc/ip_ranges_types.py). The value is the
      leading octets of the class's block. */
  datatype IpPrivateRanges = LargeCompany | BigCompany | SmallCompany {
    function Value(): string {
      match this
      case LargeCompany => "10"
      case BigCompany => "172.16"
      case SmallCompany => "192.168"
    }
  }

  /** A tenant's product: a member of a caller-defined enum, of which only the
      `.value` is ever read. */
  datatype Product = Product(value: string)
}
