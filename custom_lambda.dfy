/** The parameter logic of the custom Lambda module
    (src/cdk_auto_platform/modules/custom_lambda/infrastructure.py): the
    configuration bounds and defaults, the "exactly one code source" check,
    the choice of code factory, and the naming, runtime and handler rules of
    the function the module creates. The CDK factories are not called: the
    model returns which factory would be called, with which arguments. */
module CustomLambda {
  import opened Wrappers
  import opened Errors
  import opened Enums
  import CdkTenants

  const DefaultMemorySizeMb: int := 128
  const DefaultEphemeralStorageSizeMb: int := 512
  const DefaultTimeoutSeconds: int := 3

  datatype LambdaPlatform = Docker | Code {
    function Value(): string {
      match this
      case Docker => "docker"
      case Code => "code"
    }
  }

  datatype Architecture = Arm64 | X86_64

  datatype Tracing = Active | PassThrough | Disabled

  /** `LambdaConfig`: three bounded integer settings. */
  datatype LambdaConfig = LambdaConfig(memorySizeMb: int, ephemeralStorageSizeMb: int, timeoutSeconds: int)

  /** The field bounds the configuration model enforces on every instance. */
  predicate ValidLambdaConfig(config: LambdaConfig)
  {
    && 128 <= config.memorySizeMb <= 10240
    && 512 <= config.ephemeralStorageSizeMb <= 10240
    && 3 <= config.timeoutSeconds <= 900
  }

  /** `LambdaConfig()` with every field defaulted. */
  const DefaultLambdaConfig: LambdaConfig :=
    LambdaConfig(DefaultMemorySizeMb, DefaultEphemeralStorageSizeMb, DefaultTimeoutSeconds)

  /** The `architecture` and `tracing` defaults of `LambdaParams(...)`. */
  const DefaultArchitecture: Architecture := Arm64
  const DefaultTracing: Tracing := Active

  /** The defaults lie within their own bounds, each at its lower bound. */
  lemma DefaultLambdaConfigIsValid()
    ensures ValidLambdaConfig(DefaultLambdaConfig)
    ensures forall c :: ValidLambdaConfig(c) ==>
      && DefaultLambdaConfig.memorySizeMb <= c.memorySizeMb
      && DefaultLambdaConfig.ephemeralStorageSizeMb <= c.ephemeralStorageSizeMb
      && DefaultLambdaConfig.timeoutSeconds <= c.timeoutSeconds
  {
  }

  /** `LambdaParams` after construction. The VPC, subnet and security-group
      arguments are passed through untouched and are not modelled. */
  datatype LambdaParams = LambdaParams(
    lambdaName: string,
    lambdaPlatform: LambdaPlatform,
    lambdaConfig: LambdaConfig,
    lambdaEnvironment: map<string, string>,
    relativePath: Option<string>,
    ecrRegistry: Option<string>,
    exclude: Option<seq<string>>,
    architecture: Architecture,
    tracing: Tracing)

  const NoSourceMessage: string := "Either 'relative_path' or 'ecr_registry' must be provided"
  const TwoSourcesMessage: string := "Only one of 'relative_path' or 'ecr_registry' can be provided"

  /** `_validate_source_container`: exactly one of the two code sources must be
      given. Presence is tested against `None`, so an empty string counts as
      given. */
  function ValidateSourceContainer(relativePath: Option<string>, ecrRegistry: Option<string>): (o: Outcome<Exception>)
    ensures o.Pass? <==> (relativePath.Some? <==> ecrRegistry.None?)
    ensures o.Fail? ==> o.error == ValueError(if relativePath.None? then NoSourceMessage else TwoSourcesMessage)
  {
    if relativePath.None? && ecrRegistry.None? then Fail(ValueError(NoSourceMessage))
    else if relativePath.Some? && ecrRegistry.Some? then Fail(ValueError(TwoSourcesMessage))
    else Pass
  }

  /** `LambdaParams(...)`: a missing configuration becomes the default one, a
      missing or empty environment becomes `{}`, an omitted architecture is
      ARM_64 and an omitted tracing mode ACTIVE, and construction fails unless
      exactly one code source is given. */
  function NewLambdaParams(lambdaName: string, lambdaPlatform: LambdaPlatform,
                           lambdaConfig: Option<LambdaConfig>,
                           lambdaEnvironment: Option<map<string, string>>,
                           relativePath: Option<string>, ecrRegistry: Option<string>,
                           exclude: Option<seq<string>>,
                           architecture: Option<Architecture>, tracing: Option<Tracing>)
    : (r: Result<LambdaParams, Exception>)
    requires lambdaConfig.Some? ==> ValidLambdaConfig(lambdaConfig.value)
    ensures r.Success? <==> (relativePath.Some? <==> ecrRegistry.None?)
    ensures r.Failure? ==> r.error == ValueError(if relativePath.None? then NoSourceMessage else TwoSourcesMessage)
    ensures r.Success? ==>
      && ValidLambdaConfig(r.value.lambdaConfig)
      && (lambdaConfig.None? ==> r.value.lambdaConfig == DefaultLambdaConfig)
      && (lambdaConfig.Some? ==> r.value.lambdaConfig == lambdaConfig.value)
      && (lambdaEnvironment.None? ==> r.value.lambdaEnvironment == map[])
      && (lambdaEnvironment.Some? ==> r.value.lambdaEnvironment == lambdaEnvironment.value)
      && r.value.lambdaName == lambdaName && r.value.lambdaPlatform == lambdaPlatform
      && r.value.relativePath == relativePath && r.value.ecrRegistry == ecrRegistry
      && r.value.exclude == exclude
      && r.value.architecture == (if architecture.Some? then architecture.value else DefaultArchitecture)
      && r.value.tracing == (if tracing.Some? then tracing.value else DefaultTracing)
  {
    var config := if lambdaConfig.Some? then lambdaConfig.value else DefaultLambdaConfig;
    var environment := if lambdaEnvironment.Some? && lambdaEnvironment.value != map[] then lambdaEnvironment.value else map[];
    var params := LambdaParams(lambdaName, lambdaPlatform, config, environment,
                               relativePath, ecrRegistry, exclude,
                               if architecture.Some? then architecture.value else DefaultArchitecture,
                               if tracing.Some? then tracing.value else DefaultTracing);
    match ValidateSourceContainer(relativePath, ecrRegistry)
    case Fail(e) => Failure(e)
    case Pass => Success(params)
  }

  /** Python truthiness of an optional string: present and non-empty. */
  predicate Truthy(s: Option<string>)
  {
    s.Some? && s.value != ""
  }

  datatype AssetPlatform = LinuxArm64 | LinuxAmd64

  /** Which `lambda_.Code` factory is called, with its arguments. */
  datatype CodeSource =
    | FromAssetImage(directory: string, exclude: Option<seq<string>>, assetName: string,
                     platform: AssetPlatform, file: string)
    | FromAsset(path: string, exclude: Option<seq<string>>)
    /** An image from the registry looked up under `repositoryConstructId`. */
    | FromEcrImage(repositoryConstructId: string, repositoryName: string, tag: string)

  /** `code()`: a non-empty `relative_path` builds its Dockerfile as an image
      asset (DOCKER) or is bundled as a code asset (CODE); failing that, a
      non-empty `ecr_registry` selects that registry's `latest` image; failing
      both, it raises. */
  function CodeOf(params: LambdaParams): (r: Result<CodeSource, Exception>)
    ensures r.Failure? <==> !Truthy(params.relativePath) && !Truthy(params.ecrRegistry)
    ensures r.Failure? ==> r.error == ValueError(NoSourceMessage)
    ensures r.Success? && r.value.FromAssetImage? ==>
      && Truthy(params.relativePath) && params.lambdaPlatform.Docker?
      && r.value.file == "./" + params.relativePath.value + "/Dockerfile"
      && r.value.directory == "." && r.value.exclude == params.exclude
      && r.value.assetName == params.lambdaName + "-image"
      && (r.value.platform == LinuxArm64 <==> params.architecture == Arm64)
    ensures r.Success? && r.value.FromAsset? ==>
      && Truthy(params.relativePath) && params.lambdaPlatform.Code?
      && r.value.path == params.relativePath.value && r.value.exclude == params.exclude
    ensures r.Success? && r.value.FromEcrImage? ==>
      && !Truthy(params.relativePath) && Truthy(params.ecrRegistry)
      && r.value.repositoryConstructId == params.lambdaName + "-ecr-repository"
      && r.value.repositoryName == params.ecrRegistry.value && r.value.tag == "latest"
  {
    if Truthy(params.relativePath) && params.lambdaPlatform.Docker? then
      var platform := if params.architecture == Arm64 then LinuxArm64 else LinuxAmd64;
      Success(FromAssetImage(".", params.exclude, params.lambdaName + "-image", platform,
                             "./" + params.relativePath.value + "/Dockerfile"))
    else if Truthy(params.relativePath) && params.lambdaPlatform.Code? then
      Success(FromAsset(params.relativePath.value, params.exclude))
    else if Truthy(params.ecrRegistry) then
      Success(FromEcrImage(params.lambdaName + "-ecr-repository", params.ecrRegistry.value, "latest"))
    else
      Failure(ValueError(NoSourceMessage))
  }

  /** For constructed parameters, `code()` fails exactly when the one source
      given is the empty string: construction tests for `None`, `code()` for
      truthiness. */
  lemma CodeFailsOnlyOnEmptySource(lambdaName: string, lambdaPlatform: LambdaPlatform,
                                   relativePath: Option<string>, ecrRegistry: Option<string>,
                                   exclude: Option<seq<string>>,
                                   architecture: Option<Architecture>, tracing: Option<Tracing>)
    requires NewLambdaParams(lambdaName, lambdaPlatform, None, None, relativePath, ecrRegistry,
                             exclude, architecture, tracing).Success?
    ensures var params := NewLambdaParams(lambdaName, lambdaPlatform, None, None, relativePath, ecrRegistry,
                                          exclude, architecture, tracing).value;
            CodeOf(params).Failure? <==> relativePath == Some("") || ecrRegistry == Some("")
  {
  }

  /** A DOCKER lambda built from a directory without an explicit architecture
      is built as a LINUX_ARM64 image. */
  lemma DefaultArchitectureBuildsArm64Image(lambdaName: string, relativePath: string,
                                            exclude: Option<seq<string>>, tracing: Option<Tracing>)
    requires relativePath != ""
    ensures var r := NewLambdaParams(lambdaName, Docker, None, None, Some(relativePath), None,
                                     exclude, None, tracing);
      && r.Success? && r.value.architecture == Arm64
      && CodeOf(r.value).Success? && CodeOf(r.value).value.FromAssetImage?
      && CodeOf(r.value).value.platform == LinuxArm64
  {
  }

  datatype Runtime = FromImage | Python312

  datatype Handler = HandlerFromImage | HandlerName(name: string)

  /** The arguments of the `lambda_.Function` the module creates. */
  datatype FunctionProps = FunctionProps(
    constructId: string,
    functionName: string,
    runtime: Runtime,
    handler: Handler,
    code: CodeSource,
    environment: map<string, string>,
    memorySizeMb: int,
    ephemeralStorageSizeMb: int,
    timeoutSeconds: int,
    architecture: Architecture,
    tracing: Tracing)

  /** `{company}-{product.value}-{environment.value}-{lambda_name}` */
  function TenantLambdaName(company: string, product: Product, environment: AppEnvironment,
                            lambdaName: string): (name: string)
    ensures |name| == |company| + |product.value| + |environment.Value()| + |lambdaName| + 3
    ensures name[..|company| + 1] == company + "-"
    ensures name[|name| - |lambdaName| - 1..] == "-" + lambdaName
  {
    company + "-" + product.value + "-" + environment.Value() + "-" + lambdaName
  }

  /** Two functions of one tenant and one lambda name get the same name only
      in the same environment. */
  lemma {:induction false} TenantLambdaNameSeparatesEnvironments(company: string, product: Product,
                                                                e1: AppEnvironment, e2: AppEnvironment,
                                                                lambdaName: string)
    requires TenantLambdaName(company, product, e1, lambdaName) == TenantLambdaName(company, product, e2, lambdaName)
    ensures e1 == e2
  {
    var head := company + "-" + product.value + "-";
    var v1, v2 := e1.Value(), e2.Value();
    var n := TenantLambdaName(company, product, e1, lambdaName);
    assert |v1| == |v2|;
    assert n == (head + v1) + "-" + lambdaName;
    assert n[..|head| + |v1|] == head + v1;
    assert (head + v1)[|head|..] == v1;
    assert n == (head + v2) + "-" + lambdaName;
    assert n[..|head| + |v2|] == head + v2;
    assert (head + v2)[|head|..] == v2;
  }

  /** `LambdaPug(scope, tenant, params)`: the function's name is built from the
      tenant's company, product and environment (so the environment must have
      been set) and the lambda's name; runtime and handler come from the image
      for DOCKER and are Python 3.12 with `handler.lambda_handler` otherwise;
      the code is what `code()` selects, whose failure is the constructor's. */
  function LambdaFunction(tenant: CdkTenants.TenantBase, params: LambdaParams): (r: Result<FunctionProps, Exception>)
    reads tenant
    ensures tenant.environment.None? ==> r == Failure(AttributeError("environment"))
    ensures tenant.environment.Some? ==> (r.Failure? <==> CodeOf(params).Failure?)
    ensures tenant.environment.Some? && CodeOf(params).Failure? ==> r == Failure(CodeOf(params).error)
    ensures r.Success? ==>
      var name := TenantLambdaName(tenant.company, tenant.product, tenant.environment.value, params.lambdaName);
      && r.value.functionName == name
      && r.value.constructId == name + "-function"
      && (r.value.runtime == FromImage <==> params.lambdaPlatform.Docker?)
      && (r.value.handler == HandlerFromImage <==> params.lambdaPlatform.Docker?)
      && (params.lambdaPlatform.Code? ==> r.value.handler == HandlerName("handler.lambda_handler")
                                             && r.value.runtime == Python312)
      && r.value.code == CodeOf(params).value
      && r.value.environment == params.lambdaEnvironment
      && r.value.memorySizeMb == params.lambdaConfig.memorySizeMb
      && r.value.ephemeralStorageSizeMb == params.lambdaConfig.ephemeralStorageSizeMb
      && r.value.timeoutSeconds == params.lambdaConfig.timeoutSeconds
      && r.value.architecture == params.architecture && r.value.tracing == params.tracing
  {
    if tenant.environment.None? then
      Failure(AttributeError("environment"))
    else
      var name := TenantLambdaName(tenant.company, tenant.product, tenant.environment.value, params.lambdaName);
      var runtime := if params.lambdaPlatform.Docker? then FromImage else Python312;
      var handler := if params.lambdaPlatform.Docker? then HandlerFromImage else HandlerName("handler.lambda_handler");
      match CodeOf(params)
      case Failure(e) => Failure(e)
      case Success(code) =>
        Success(FunctionProps(name + "-function", name, runtime, handler, code, params.lambdaEnvironment,
                              params.lambdaConfig.memorySizeMb, params.lambdaConfig.ephemeralStorageSizeMb,
                              params.lambdaConfig.timeoutSeconds, params.architecture, params.tracing))
  }
}
