# Tenant configuration model of cdk-auto-platform

This project models, in Dafny, the per-tenant configuration core of the
cdk-auto-platform repository and proves properties of it. A tenant holds a
company, a product and a principal DNS domain. From these it derives two DNS
names. It also holds an infrastructure type, a private-range class and a list
of allow-listed CIDR blocks. Its lifecycle methods fix the deployment
environment, and it keeps an optional registry of ECS/Fargate and RDS
blueprints.

The repository has two divergent copies of `TenantBase`, and both are modelled
as written:

- `CdkTenants.TenantBase` is the copy in `src/cdk_auto_platform`. Construction
  checks the network inputs eagerly, for every infrastructure type except
  SERVERLESS. It derives `vpc_cidr` once, at construction. `local`, `dev`, `uat`
  and `prod` only set `environment`.
- `IdenQTenants.TenantBase` is the copy in `src/iden_q_auto_platform`.
  Construction checks nothing. `dev`, `uat` and `prod` assign `vpc_cidr` from an
  environment-by-range table. `prod` reads `AppEnvironment.LIVE`, which is not
  a member of the enum. So `prod()` raises, after it has already changed
  `vpc_cidr`.

Around the tenants, the model covers these parts:

- `VpcCidrBuilder.build`, which maps a range class to a block literal.
- `PrefixListCidr` (src/cdk_auto_platform/models/vpc/prefix_list_cidr.py:1-8), the
  record `PrefixListCidrs.PrefixListCidr` of a literal and its description, and
  its `validate_cidr`, which is a check on the text of the literal.
- The mandatory tag mapping.
- The parameter logic of the custom Lambda module.
- The concrete `TenantExample`.

The private-range classes are the blocks of section 3 of RFC 1918. The block
literals use the prefix notation of section 3.1 of RFC 4632. Module `Cidr`
reads such a literal back as an address/mask pair. This is what lets the model
state containment and disjointness.

Python exceptions become `Errors.Exception` values inside `Result`/`Outcome`,
with the source's messages. An attribute that was never assigned is `None`, as
is an attribute assigned `None`; the accessors treat the two alike.

The `VpcCidrBuilder` imported by the cdk tenant is not part of this model. It
is taken to be the same as the iden_q builder that is modelled. The cdk copies
of `AppEnvironment` and `InfrastructureTypes` are not part of this model
either. They are taken to have the same members as the iden_q enums, and one
declaration (`Enums`) serves both tenants.

Some behaviours of the code look unintended; the model keeps them as
written:

- An unknown range makes the builder return `""`; it does not raise.
- The cdk construction accepts a present but empty prefix list.
- The cdk construction derives `vpc_cidr` with the dev offset (`.2.0.0/16` for
  LARGE_COMPANY), under the builder assumption above.
- The cdk lifecycle methods never recompute `vpc_cidr`.
- An accessor returns an empty mapping that was stored, rather than failing.
- The /16 check is a substring test, so `"10.0.0.0/160"` is rejected too.

## Model

| member | source | states |
|---|---|---|
| `Enums.AppEnvironmentMember` | src/iden_q_auto_platform/models/environments/app_environment.py:4-8 | looking up an environment member by name finds a member whose name is the one asked for |
| `Enums.AppEnvironmentMemberRoundTrip` | src/iden_q_auto_platform/models/environments/app_environment.py:4-8 | each of LOCAL, DEV, UAT, PROD is found under its own name and under no other |
| `Enums.NoLiveMember` | src/iden_q_auto_platform/models/environments/app_environment.py:4-8 | the name `LIVE` is not a member of `AppEnvironment` |
| `Text.Contains` | src/cdk_auto_platform/models/vpc/prefix_list_cidr.py:11 | Python's `t in s` holds iff `t` occurs in `s` at some index |
| `Cidr.ParseRender` | src/iden_q_auto_platform/build/vpc_cidr_builder.py:8-13 | a rendered CIDR literal reads back as exactly the address/mask pair it was written from |
| `Cidr.RenderInjective` | src/iden_q_auto_platform/build/vpc_cidr_builder.py:8-13 | distinct blocks have distinct literals |
| `VpcCidrBuilder.Build` | src/iden_q_auto_platform/build/vpc_cidr_builder.py:6-15 | the result is empty iff the argument matches no range class; otherwise it is the class's value followed by a suffix starting with "." |
| `VpcCidrBuilder.BuildMaskWidths` | src/iden_q_auto_platform/build/vpc_cidr_builder.py:8-13 | the three literals are 10.2.0.0/16, 172.16.32.0/20 and 192.168.32.0/24, with mask widths 16, 20 and 24 |
| `VpcCidrBuilder.BuildRendersBlock` | src/iden_q_auto_platform/build/vpc_cidr_builder.py:8-13 | each built literal is the CIDR rendering of its address/mask block |
| `VpcCidrBuilder.BuildParses` | src/iden_q_auto_platform/build/vpc_cidr_builder.py:8-13 | each built literal reads back as its block |
| `VpcCidrBuilder.BuiltBlockIsPrivate` | src/cdk_auto_platform/models/vpc/ip_ranges_types.py:5-10 | each built block is well formed and has the size the range docstring lists (65536, 4096, 256). It lies inside its RFC 1918 block (10/8, 172.16/12, 192.168/16) |
| `PrefixListCidrs.ValidateCidr` | src/cdk_auto_platform/models/vpc/prefix_list_cidr.py:10-12 | fails, with "CIDR must not be /16", iff "/16" occurs in the literal |
| `PrefixListCidrs.Slash16Chars` | src/cdk_auto_platform/models/vpc/prefix_list_cidr.py:11 | an occurrence of "/16" fixes the three characters it covers |
| `PrefixListCidrs.ValidateCidrIsTextual` | src/cdk_auto_platform/models/vpc/prefix_list_cidr.py:11 | "10.0.0.0/24" and "" pass; "10.0.0.0/16" fails, and so does "10.0.0.0/160" |
| `PrefixListCidrs.ValidateCidrRejectsLargeVpc` | src/cdk_auto_platform/models/vpc/prefix_list_cidr.py:11 | an entry equal to the LARGE_COMPANY VPC block 10.2.0.0/16 is rejected |
| `PrefixListCidrs.ValidateCidrAcceptsOtherVpcs` | src/cdk_auto_platform/models/vpc/prefix_list_cidr.py:11 | entries equal to the BIG_COMPANY or SMALL_COMPANY VPC blocks are accepted |
| `Dns.FederatedDns` | src/cdk_auto_platform/models/tenants/tenant_base.py:35 | the federated name is the product's value, a dot, then the principal domain, and nothing else (the iden_q copy computes it the same way, at its line 62) |
| `Dns.PrivateDns` | src/cdk_auto_platform/models/tenants/tenant_base.py:36 | the private name is `internal.` followed by the federated name (iden_q line 63) |
| `Dns.DerivedNamesNest` | src/cdk_auto_platform/models/tenants/tenant_base.py:35-36 | the federated name is a subdomain of the principal domain; the private name is the `internal.` subdomain of the federated name |
| `CdkTenants.ConstructionCheck` | src/cdk_auto_platform/models/tenants/tenant_base.py:40-63 | construction is accepted iff the type is SERVERLESS, or a range and a prefix list are both given and every entry passes `validate_cidr`; every rejection is a ValueError |
| `CdkTenants.MissingRangesReportedFirst` | src/cdk_auto_platform/models/tenants/tenant_base.py:40-52 | for a non-serverless type, missing ranges are the error reported, whatever the prefix list |
| `CdkTenants.AcceptedConstructions` | src/cdk_auto_platform/models/tenants/tenant_base.py:54-63 | an empty prefix list is accepted; a serverless tenant passes whatever its network inputs |
| `CdkTenants.TenantBase.constructor` | src/cdk_auto_platform/models/tenants/tenant_base.py:30-39 | stores every argument (`prefix_list_cidrs` too, line 41) and derives `{product}.{principal}` and `internal.{federated}`, running no check; `vpc_cidr`, `environment` and blueprints are unset |
| `CdkTenants.TenantBase.Create` | src/cdk_auto_platform/models/tenants/tenant_base.py:18-44 | fails iff the checks fail, with the first check's error. On success the tenant is fresh and keeps the invariant: DNS derived, checks passed, `vpc_cidr` = build(range) for a non-serverless type and unset for SERVERLESS |
| `CdkTenants.TenantBase.ValidateIpPrivateRanges` | src/cdk_auto_platform/models/tenants/tenant_base.py:46-52 | fails iff the type is not SERVERLESS and no range is given, with the type named in the message |
| `CdkTenants.TenantBase.ValidatePrefixListCidrs` | src/cdk_auto_platform/models/tenants/tenant_base.py:54-63 | passes iff the type is SERVERLESS, or the list is present and every entry passes `validate_cidr`; reports a missing list and a /16 entry with their own messages |
| `CdkTenants.TenantBase.BuilderBlueprints` | src/cdk_auto_platform/models/tenants/tenant_base.py:65-78 | ECS_FARGATE_RDS stores both mappings, even absent ones. RDS_ONLY stores only the RDS one. SERVERLESS stores nothing. ECS_EC2_RDS raises NotImplementedError and stores nothing |
| `CdkTenants.TenantBase.EcsFargateBlueprints` | src/cdk_auto_platform/models/tenants/tenant_base.py:80-87 | fails iff no mapping is stored; otherwise returns exactly the stored mapping, empty included |
| `CdkTenants.TenantBase.RdsBlueprints` | src/cdk_auto_platform/models/tenants/tenant_base.py:89-93 | fails iff no mapping is stored; otherwise returns exactly the stored mapping |
| `CdkTenants.TenantBase.Local` | src/cdk_auto_platform/models/tenants/tenant_base.py:95-98 | sets LOCAL, returns the same tenant, changes nothing else (`vpc_cidr` included) and keeps the invariant |
| `CdkTenants.TenantBase.Dev` | src/cdk_auto_platform/models/tenants/tenant_base.py:100-103 | sets DEV, returns the same tenant, changes nothing else |
| `CdkTenants.TenantBase.Uat` | src/cdk_auto_platform/models/tenants/tenant_base.py:105-108 | sets UAT, returns the same tenant, changes nothing else |
| `CdkTenants.TenantBase.Prod` | src/cdk_auto_platform/models/tenants/tenant_base.py:110-113 | sets PROD, returns the same tenant, changes nothing else |
| `CdkTenants.ProdThenDev` | src/cdk_auto_platform/models/tenants/tenant_base.py:100-113 | lifecycle calls do not stack: after `prod()` then `dev()` the tenant is in DEV with its original `vpc_cidr` |
| `CdkTenants.RdsOnlyTenant` | src/cdk_auto_platform/models/tenants/tenant_base.py:18-103 | an RDS_ONLY, LARGE_COMPANY tenant with a /24 entry is created with 10.2.0.0/16; after `dev()` and RDS registration, the RDS accessor returns the mapping and the ECS accessor fails |
| `IdenQTenants.StageCidrRendersBlock` | src/iden_q_auto_platform/models/tenants/tenant_base.py:99-129 | each of the nine literals that `dev`/`uat`/`prod` assign is the rendering of its address/mask block |
| `IdenQTenants.StageCidrParses` | src/iden_q_auto_platform/models/tenants/tenant_base.py:99-129 | each of the nine literals reads back as its block |
| `IdenQTenants.StageBlockIsPrivate` | src/iden_q_auto_platform/models/tenants/tenant_base.py:99-129 | each table block is well formed, has its class's documented size and lies inside the class's RFC 1918 block |
| `IdenQTenants.StageBlocksDisjoint` | src/iden_q_auto_platform/models/tenants/tenant_base.py:99-129 | within a range class, the blocks of two different environments share no address and have different literals |
| `IdenQTenants.DevStageIsBuild` | src/iden_q_auto_platform/models/tenants/tenant_base.py:100-105 | what `dev()` assigns equals what `VpcCidrBuilder.build` returns for the same class |
| `IdenQTenants.TenantBase.constructor` | src/iden_q_auto_platform/models/tenants/tenant_base.py:45-67 | stores every argument unchecked and derives the same two DNS names; `vpc_cidr` and `environment` are unset |
| `IdenQTenants.TenantBase.BuilderBlueprints` | src/iden_q_auto_platform/models/tenants/tenant_base.py:69-82 | the same routing as the cdk copy: ECS_EC2_RDS raises, RDS_ONLY stores RDS only, SERVERLESS stores nothing |
| `IdenQTenants.TenantBase.EcsFargateBlueprints` | src/iden_q_auto_platform/models/tenants/tenant_base.py:84-91 | fails iff no mapping is stored; otherwise returns exactly the stored mapping |
| `IdenQTenants.TenantBase.RdsBlueprints` | src/iden_q_auto_platform/models/tenants/tenant_base.py:93-97 | fails iff no mapping is stored; otherwise returns exactly the stored mapping |
| `IdenQTenants.TenantBase.AssignEnvironmentNamed` | src/iden_q_auto_platform/models/tenants/tenant_base.py:131 | assigning `AppEnvironment.<name>` raises AttributeError and leaves `environment` alone iff there is no such member |
| `IdenQTenants.TenantBase.Dev` | src/iden_q_auto_platform/models/tenants/tenant_base.py:99-109 | assigns the dev table entry for the tenant's range class, or keeps `vpc_cidr` when there is no class. Sets DEV and returns the same tenant. The infrastructure type is not consulted |
| `IdenQTenants.TenantBase.Uat` | src/iden_q_auto_platform/models/tenants/tenant_base.py:111-121 | assigns the uat table entry (or keeps `vpc_cidr`), sets UAT and returns the same tenant; a later call overwrites both |
| `IdenQTenants.TenantBase.Prod` | src/iden_q_auto_platform/models/tenants/tenant_base.py:123-133 | assigns the prod table entry and then raises AttributeError for `LIVE`, leaving `environment` as it was |
| `IdenQTenants.StageCidr` | src/iden_q_auto_platform/models/tenants/tenant_base.py:99-129 | the environment-by-range table of the literals `dev`, `uat` and `prod` assign (no contract of its own; the lemmas below and `IdenQTenants.StageCidrShape` state what it holds) |
| `IdenQTenants.StageCidrShape` | src/iden_q_auto_platform/models/tenants/tenant_base.py:99-129 | every entry is the class's leading octets, a dot, and the class's mask (/16, /20, /24) whatever the environment |
| `TagRules.RequiredTagsShape` | src/cdk_auto_platform/build/tag_rules_builder.py:11-15 | the mapping has exactly the keys company, product and environment, each once, holding the company, the product's value and the environment's value |
| `TagRules.RequiredTags` | src/cdk_auto_platform/build/tag_rules_builder.py:11-15 | the `required_tags` dict in insertion order: three pairs, each keyed by company, product or environment |
| `TagRules.BuildTagRules` | src/cdk_auto_platform/build/tag_rules_builder.py:8-18 | fails iff the tenant's environment was never set. Otherwise it applies the three required pairs exactly once each, in dict order. It does not modify the tenant |
| `CustomLambda.DefaultLambdaConfigIsValid` | src/cdk_auto_platform/modules/custom_lambda/infrastructure.py:28-57 | the defaults 128 MB, 512 MB and 3 s satisfy the bounds, each at its lower bound |
| `CustomLambda.ValidLambdaConfig` | src/cdk_auto_platform/modules/custom_lambda/infrastructure.py:39-57 | the `Field` bounds: memory 128-10240 MB, ephemeral storage 512-10240 MB, timeout 3-900 s (a definition; `CustomLambda.DefaultLambdaConfigIsValid` and `CustomLambda.NewLambdaParams` state what holds of it) |
| `CustomLambda.ValidateSourceContainer` | src/cdk_auto_platform/modules/custom_lambda/infrastructure.py:105-113 | passes iff exactly one of `relative_path` and `ecr_registry` is not `None`; otherwise fails with the message for "none given" or "both given" |
| `CustomLambda.NewLambdaParams` | src/cdk_auto_platform/modules/custom_lambda/infrastructure.py:74-103 | fails iff the source check fails. On success a missing config becomes the default one, a missing environment `{}`, an omitted architecture ARM_64 and an omitted tracing mode ACTIVE. Every other argument is stored as given, and the config is within bounds |
| `CustomLambda.DefaultArchitectureBuildsArm64Image` | src/cdk_auto_platform/modules/custom_lambda/infrastructure.py:86-128 | a DOCKER lambda built from a non-empty directory without an explicit architecture is built as an ARM_64 (LINUX_ARM64) image asset |
| `CustomLambda.CodeOf` | src/cdk_auto_platform/modules/custom_lambda/infrastructure.py:115-144 | fails iff neither source is a non-empty string. A non-empty path gives, for DOCKER, an image asset with file `./{path}/Dockerfile`, name `{lambda_name}-image` and ARM64 iff the architecture is ARM_64; for CODE it gives a code asset. Failing that, it gives the registry image tagged `latest` |
| `CustomLambda.CodeFailsOnlyOnEmptySource` | src/cdk_auto_platform/modules/custom_lambda/infrastructure.py:96-144 | for constructed parameters, `code()` fails exactly when the one source given is the empty string |
| `CustomLambda.TenantLambdaNameSeparatesEnvironments` | src/cdk_auto_platform/modules/custom_lambda/infrastructure.py:154-156 | the function name `{company}-{product}-{environment}-{lambda_name}` differs between environments |
| `CustomLambda.TenantLambdaName` | src/cdk_auto_platform/modules/custom_lambda/infrastructure.py:154-156 | the name starts with the company and a hyphen, ends with a hyphen and the lambda name, and is as long as its four parts plus three hyphens |
| `CustomLambda.LambdaFunction` | src/cdk_auto_platform/modules/custom_lambda/infrastructure.py:147-184 | fails if the tenant's environment is unset, else iff `code()` fails, and then with `code()`'s own error. It names the function from company, product, environment and lambda name. Runtime and handler come from the image iff the platform is DOCKER, and are Python 3.12 with `handler.lambda_handler` otherwise. It passes the code, environment and config values through |
| `TenantExamples.NewTenantExample` | server/aws/cdk/tenants/example.py:23-39 | the SERVERLESS example with a range and an empty-CIDR entry is built without complaint; its principal domain is example.com and its DNS names are app.example.com and internal.app.example.com. The account and region are the ones given, and the certificate is the example ARN. `vpc_cidr`, `environment` and both blueprint mappings are unset |
| `TenantExamples.Dev` | server/aws/cdk/tenants/example.py:47-48 | delegates to the base `dev()` and returns the same tenant |
| `TenantExamples.Uat` | server/aws/cdk/tenants/example.py:44-45 | delegates to the base `uat()` and returns the same tenant |
| `TenantExamples.Prod` | server/aws/cdk/tenants/example.py:41-42 | delegates to the base `prod()`, so it raises for `LIVE` |
| `TenantExamples.ExampleLifecycle` | server/aws/cdk/tenants/example.py:23-48 | `dev()` gives 10.2.0.0/16 and DEV, and `uat()` gives 10.1.0.0/16 and UAT, despite the SERVERLESS type. `prod()`, the call the CDK app makes, raises after setting 10.0.0.0/16 |

## Left out

- CDK construct creation is left out because it is foreign library calls. This covers `lambda_.Function`, the `lambda_.Code.from_*` factories, `ecr.Repository.from_repository_name`, `Tags.of(stack).add`, and stacks and apps. The model records which factory is chosen, with which arguments, and the sequence of tag applications.
- The construct scope, VPC, subnet selection and security groups of the Lambda module are left out because they are opaque pass-through values.
- The ECS/Fargate blueprint, `RdsCapacity` and `RdsPerformance` are opaque, because their definitions are not part of this model.
- The `LambdaConfig` bounds are modelled as a validity predicate, not as the validation library that enforces them.
- The constants module that `TenantExample` imports (company, account, region) is not part of this model, so these values are parameters.
- The federated-DNS and ECR-registry packages, the stack and app wiring, and the iden_q tag builder are left out. The iden_q tag builder reads attributes the iden_q tenant does not have.
- Python allows any attribute to be reassigned from outside; the model fixes the attributes that the modelled code never reassigns.
- The repository declares `IpPrivateRanges` twice, in src/cdk_auto_platform/models/vpc/ip_ranges_types.py:4-14 and src/iden_q_auto_platform/models/tenants/tenant_base.py:10-20, and the model merges them into one `Enums.IpPrivateRanges`. The iden_q builder compares against the cdk class, while the iden_q tenant and the example hold members of the iden_q class. Python members of different enum classes never compare equal, so at run time the builder returns `""` for an iden_q range. `IdenQTenants.DevStageIsBuild` relates the two tables under the merge and does not capture that mismatch.
- The check that the iden_q `PrefixListCidr` performs is textually identical to the cdk one, so `PrefixListCidrs.ValidateCidr` models both.
- Exception messages for missing attributes are modelled by the attribute's name, not by Python's full message text.
