/**
 * The configuration step of the HR App Lab CDK application: read the seven context
 * parameters, reject the run when `deployment_id` or `owner` is falsy, build the common
 * tag map and resolve the target account and region from the process environment.
 */
module App {
  import opened Wrappers
  import opened Context

  const DeploymentIdKey := "deployment_id"
  const OwnerKey := "owner"
  const AllowedIngressCidrKey := "allowed_ingress_cidr"
  const NatModeKey := "nat_mode"
  const DbMultiAzKey := "db_multi_az"
  const Ec2InstanceTypeKey := "ec2_instance_type"
  const DbInstanceClassKey := "db_instance_class"

  /** The context keys that are read but never checked. */
  const OptionalKeys: set<string> :=
    {AllowedIngressCidrKey, NatModeKey, DbMultiAzKey, Ec2InstanceTypeKey, DbInstanceClassKey}

  const ProjectName := "HRAppLab"
  const DefaultRegion := "us-east-1"
  const AccountVar := "CDK_DEFAULT_ACCOUNT"
  const RegionVar := "CDK_DEFAULT_REGION"

  /** The seven parameters exactly as the context lookups returned them. */
  datatype Params = Params(
    deploymentId: Value,
    owner: Value,
    allowedIngressCidr: Value,
    natMode: Value,
    dbMultiAz: Value,
    ec2InstanceType: Value,
    dbInstanceClass: Value)

  /** The `ValueError` raised for a missing required parameter, by the key it names. */
  datatype ConfigError = Required(key: string)

  /** The text of the `ValueError`. */
  function Message(e: ConfigError): (m: string)
    ensures |m| > |e.key| && m[..|e.key|] == e.key
  {
    e.key + " context parameter is required"
  }

  /** The tag map: tag key to the (unchanged) context value. */
  type Tags = map<string, Value>

  /** `cdk.Environment(account=..., region=...)`. */
  datatype Environment = Environment(account: Option<string>, region: string)

  /** The outcome of the whole configuration step. */
  datatype Config = Config(params: Params, tags: Tags, env: Environment)

  /**
   * Read the seven context parameters and validate the two required ones, `deployment_id`
   * first. Only Python truthiness is checked; the optional parameters are not inspected.
   */
  function Resolve(ctx: RawContext): (r: Result<Params, ConfigError>)
    ensures r.Ok? <==>
      Truthy(TryGetContext(ctx, DeploymentIdKey)) && Truthy(TryGetContext(ctx, OwnerKey))
    ensures !Truthy(TryGetContext(ctx, DeploymentIdKey)) ==> r == Err(Required(DeploymentIdKey))
    ensures Truthy(TryGetContext(ctx, DeploymentIdKey)) && !Truthy(TryGetContext(ctx, OwnerKey))
      ==> r == Err(Required(OwnerKey))
    ensures r.Ok? ==>
      && (DeploymentIdKey in ctx && r.value.deploymentId == ctx[DeploymentIdKey])
      && (OwnerKey in ctx && r.value.owner == ctx[OwnerKey])
      && r.value.allowedIngressCidr == TryGetContext(ctx, AllowedIngressCidrKey)
      && r.value.natMode == TryGetContext(ctx, NatModeKey)
      && r.value.dbMultiAz == TryGetContext(ctx, DbMultiAzKey)
      && r.value.ec2InstanceType == TryGetContext(ctx, Ec2InstanceTypeKey)
      && r.value.dbInstanceClass == TryGetContext(ctx, DbInstanceClassKey)
  {
    var deploymentId := TryGetContext(ctx, DeploymentIdKey);
    var owner := TryGetContext(ctx, OwnerKey);
    var allowedIngressCidr := TryGetContext(ctx, AllowedIngressCidrKey);
    var natMode := TryGetContext(ctx, NatModeKey);
    var dbMultiAz := TryGetContext(ctx, DbMultiAzKey);
    var ec2InstanceType := TryGetContext(ctx, Ec2InstanceTypeKey);
    var dbInstanceClass := TryGetContext(ctx, DbInstanceClassKey);
    if !Truthy(deploymentId) then Err(Required(DeploymentIdKey))
    else if !Truthy(owner) then Err(Required(OwnerKey))
    else Ok(Params(deploymentId, owner, allowedIngressCidr, natMode,
                   dbMultiAz, ec2InstanceType, dbInstanceClass))
  }

  /** `common_tags`: the same three tags whatever the parameters. */
  function DeriveTags(p: Params): (t: Tags)
    ensures t.Keys == {"Project", "DeploymentID", "Owner"}
    ensures t["Project"] == Str(ProjectName)
    ensures t["DeploymentID"] == p.deploymentId && t["Owner"] == p.owner
  {
    map["Project" := Str(ProjectName), "DeploymentID" := p.deploymentId, "Owner" := p.owner]
  }

  /**
   * The account and region taken from the process environment with `os.environ.get`:
   * the account has no default, the region defaults to us-east-1 only when the variable
   * is not set at all.
   */
  function ResolveEnv(environ: map<string, string>): (e: Environment)
    ensures AccountVar in environ ==> e.account == Some(environ[AccountVar])
    ensures AccountVar !in environ ==> e.account == None
    ensures RegionVar in environ ==> e.region == environ[RegionVar]
    ensures RegionVar !in environ ==> e.region == DefaultRegion
  {
    Environment(
      if AccountVar in environ then Some(environ[AccountVar]) else None,
      if RegionVar in environ then environ[RegionVar] else DefaultRegion)
  }

  /**
   * The whole configuration step: the environment is read only after both checks passed,
   * so a rejected run reports the same error whatever the environment holds.
   */
  function Configure(ctx: RawContext, environ: map<string, string>): (r: Result<Config, ConfigError>)
    ensures r.Ok? <==>
      Truthy(TryGetContext(ctx, DeploymentIdKey)) && Truthy(TryGetContext(ctx, OwnerKey))
    ensures r.Err? ==> r.error == Resolve(ctx).error
    ensures r.Ok? ==>
      && Resolve(ctx) == Ok(r.value.params)
      && r.value.tags == map["Project" := Str(ProjectName),
                             "DeploymentID" := ctx[DeploymentIdKey],
                             "Owner" := ctx[OwnerKey]]
      && r.value.env == ResolveEnv(environ)
  {
    match Resolve(ctx)
    case Err(e) => Err(e)
    case Ok(p) => Ok(Config(p, DeriveTags(p), ResolveEnv(environ)))
  }

  // ---------------------------------------------------------------------------
  // Properties relating several calls

  /** A context that sets all seven keys to the given parameters. */
  ghost function ContextOf(p: Params): (c: RawContext)
  {
    map[DeploymentIdKey := p.deploymentId, OwnerKey := p.owner,
        AllowedIngressCidrKey := p.allowedIngressCidr, NatModeKey := p.natMode,
        DbMultiAzKey := p.dbMultiAz, Ec2InstanceTypeKey := p.ec2InstanceType,
        DbInstanceClassKey := p.dbInstanceClass]
  }

  /**
   * The parameters Resolve can produce are exactly those whose two required values are
   * truthy; the optional five may be anything, None included.
   */
  lemma ResolveRange(p: Params)
    ensures (exists ctx :: Resolve(ctx) == Ok(p)) <==> Truthy(p.deploymentId) && Truthy(p.owner)
  {
    if Truthy(p.deploymentId) && Truthy(p.owner) {
      var ctx := ContextOf(p);
      assert Resolve(ctx) == Ok(p);
    }
  }

  /**
   * Setting, changing or dropping the optional keys never changes whether resolution
   * succeeds, nor the error it reports, nor the two required values.
   */
  lemma OptionalKeysIgnored(ctx: RawContext, other: RawContext)
    requires forall k :: k !in OptionalKeys ==> TryGetContext(ctx, k) == TryGetContext(other, k)
    ensures Resolve(ctx).Ok? <==> Resolve(other).Ok?
    ensures Resolve(ctx).Err? ==> Resolve(ctx) == Resolve(other)
    ensures Resolve(ctx).Ok? ==>
      && Resolve(ctx).value.deploymentId == Resolve(other).value.deploymentId
      && Resolve(ctx).value.owner == Resolve(other).value.owner
  {
  }

  /** The tags identify the deployment: equal tags mean equal `deployment_id` and `owner`. */
  lemma TagsIdentifyDeployment(p: Params, q: Params)
    ensures DeriveTags(p) == DeriveTags(q) <==> p.deploymentId == q.deploymentId && p.owner == q.owner
  {
  }

  /** A failed configuration does not depend on the environment. */
  lemma FailureIgnoresEnvironment(ctx: RawContext, e1: map<string, string>, e2: map<string, string>)
    ensures Configure(ctx, e1).Err? ==> Configure(ctx, e1) == Configure(ctx, e2)
  {
  }

  /** The region is empty only when the environment explicitly sets it to the empty string. */
  lemma RegionEmptyOnlyWhenSetEmpty(environ: map<string, string>)
    ensures ResolveEnv(environ).region == "" <==> RegionVar in environ && environ[RegionVar] == ""
  {
  }

  /**
   * Worked example: `-c deployment_id=lab01 -c owner=alice` with no AWS variables set
   * yields the three tags and the fallback region, and dropping `owner` is rejected.
   */
  lemma LabExample()
    ensures Configure(map[DeploymentIdKey := Str("lab01"), OwnerKey := Str("alice")], map[])
      == Ok(Config(
           Params(Str("lab01"), Str("alice"), Null, Null, Null, Null, Null),
           map["Project" := Str("HRAppLab"), "DeploymentID" := Str("lab01"), "Owner" := Str("alice")],
           Environment(None, "us-east-1")))
    ensures Configure(map[DeploymentIdKey := Str("lab01")], map[]) == Err(Required(OwnerKey))
  {
  }
}
