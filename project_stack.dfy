/**
 * The project stack, deployed once per run before any service: the
 * deployment bucket with its one-day expiry of `tmp` objects, the project's
 * HTTP API with its default function, route and stages, and the exported API
 * reference. Whether the stack is created or updated is decided by a
 * `describe_stacks` probe.
 */
module ProjectStack {
  import opened Wrappers
  import opened Strings
  import opened Templates
  import opened Settings
  import opened Cloud
  import opened Reconciler
  import opened Deployment

  /** Objects under this prefix of the deployment bucket expire after a day. */
  const TmpRule := LifecycleRule("tmp", "Enabled", 1)

  function ProjectParameters(cfg: Config): seq<Parameter>
  {
    [ Parameter(cfg.names.projectStackName + "MemorySize", if cfg.memory.Some? then cfg.memory.value else DefaultMemorySize),
      Parameter(cfg.names.projectStackName + "GatewayTimeout", "30") ]
  }

  /** The deployment bucket, then the API with its default function, then its stages. */
  function ProjectResources(cfg: Config): seq<Resource>
  {
    [Bucket(cfg.names.bucketTitle(cfg.bucket), cfg.bucket, [TmpRule])] + ProjectApi(cfg.names) + ProjectStages(cfg.names)
  }

  /** The HTTP API, the role and default function behind it, and the `$default` route to that function. */
  function ProjectApi(names: Names): seq<Resource>
  {
    var api := names.restApiName;
    [ Other("Api", api),
      Other("Role", api + "Role"),
      Other("Function", api + "Function"),
      Other("Integration", names.projectIntegrationName),
      Other("Route", names.projectRouteName) ]
  }

  /** The deprecated `v2` stage and deployment, then the current `api` ones. */
  function ProjectStages(names: Names): seq<Resource>
  {
    var api := names.restApiName;
    [ Other("Stage", api + "Stage"),
      Other("Deployment", api + "Deployment"),
      Other("Stage", api + "Stage1"),
      Other("Deployment", api + "Deployment1") ]
  }

  function ProjectOutputs(cfg: Config): seq<Output>
  {
    [Output(cfg.names.restApiReference)]
  }

  /**
   * The deployment bucket declared by the project stack expires everything
   * under `tmp` after one day, and it is the only bucket the stack declares.
   */
  lemma ProjectBucketExpiresTmp(cfg: Config)
    ensures var rs := ProjectResources(cfg);
            && (exists i :: 0 <= i < |rs| && rs[i].Bucket? && rs[i].bucketName == cfg.bucket && TmpRule in rs[i].lifecycleRules)
            && (forall i :: 0 <= i < |rs| && rs[i].Bucket? ==> rs[i].bucketName == cfg.bucket)
    ensures TmpRule.prefix == "tmp" && TmpRule.status == "Enabled" && TmpRule.expirationInDays == 1
  {
    assert ProjectResources(cfg)[0].Bucket?;
  }

  /** The project template, grown resource by resource. */
  method BuildProjectTemplate(cfg: Config) returns (t: Template)
    ensures fresh(t)
    ensures t.parameters == ProjectParameters(cfg) && t.resources == ProjectResources(cfg) && t.outputs == ProjectOutputs(cfg)
  {
    t := new Template();
    t.AddParameter(Parameter(cfg.names.projectStackName + "MemorySize", if cfg.memory.Some? then cfg.memory.value else DefaultMemorySize));
    t.AddParameter(Parameter(cfg.names.projectStackName + "GatewayTimeout", "30"));
    t.AddResource(Bucket(cfg.names.bucketTitle(cfg.bucket), cfg.bucket, [TmpRule]));
    AddProjectApi(t, cfg.names);
    AddProjectStages(t, cfg.names);
    t.AddOutput(Output(cfg.names.restApiReference));
  }

  method AddProjectApi(t: Template, names: Names)
    modifies t
    ensures t.resources == old(t.resources) + ProjectApi(names)
    ensures t.parameters == old(t.parameters) && t.outputs == old(t.outputs)
  {
    var api := names.restApiName;
    t.AddResource(Other("Api", api));
    t.AddResource(Other("Role", api + "Role"));
    t.AddResource(Other("Function", api + "Function"));
    t.AddResource(Other("Integration", names.projectIntegrationName));
    t.AddResource(Other("Route", names.projectRouteName));
  }

  method AddProjectStages(t: Template, names: Names)
    modifies t
    ensures t.resources == old(t.resources) + ProjectStages(names)
    ensures t.parameters == old(t.parameters) && t.outputs == old(t.outputs)
  {
    var api := names.restApiName;
    t.AddResource(Other("Stage", api + "Stage"));
    t.AddResource(Other("Deployment", api + "Deployment"));
    t.AddResource(Other("Stage", api + "Stage1"));
    t.AddResource(Other("Deployment", api + "Deployment1"));
  }

  /**
   * `_create_project_stack`: probe the project stack, build its template,
   * upload it under `templateKey` and create or update the stack through a
   * presigned URL. A probe error that does not say "does not exist"
   * propagates before anything else happens.
   */
  method DeployProjectStack(cfg: Config, oracle: Oracle, templateKey: string)
    returns (t: Template, calls: seq<Call>, r: Result<Action, DeployError>)
    ensures fresh(t)
    ensures |calls| >= 1 && calls[0] == DescribeStacks(cfg.names.projectStackName)
    ensures var describe := oracle.stacks(cfg.names.projectStackName).describe;
            ProbeProjectStack(describe).Err? ==> r == Err(ControlPlaneError(describe.value)) && |calls| == 1
    ensures var stack := cfg.names.projectStackName;
            var describe := oracle.stacks(stack).describe;
            var url := PresignedUrl(oracle.presign(cfg.bucket, templateKey));
            ProbeProjectStack(describe).Ok? ==>
              && t.parameters == ProjectParameters(cfg)
              && t.resources == ProjectResources(cfg)
              && t.outputs == ProjectOutputs(cfg)
              && |calls| >= 3
              && calls[1] == PutObject(cfg.bucket, templateKey, TemplateBody(t.parameters, t.resources, t.outputs))
              && calls[2] == (if describe.None? then Call.UpdateStack(stack, url, Capabilities)
                              else Call.CreateStack(stack, url, Capabilities))
    ensures Reports(ProjectOutcome(oracle.stacks(cfg.names.projectStackName)), cfg.names.projectStackName, r)
    ensures r.Ok? && oracle.stacks(cfg.names.projectStackName).describe.None? ==> !r.value.Created?
    ensures r.Ok? && oracle.stacks(cfg.names.projectStackName).describe.Some? ==> r.value.Created?
    ensures forall c :: c in calls ==> StackCall(c) || (c.PutObject? && c.body.TemplateBody?)
  {
    var stack := cfg.names.projectStackName;
    var responses := oracle.stacks(stack);
    calls := [DescribeStacks(stack)];
    var probe := ProbeProjectStack(responses.describe);
    if probe.Err? {
      t := new Template();
      return t, calls, Err(ControlPlaneError(probe.error));
    }

    t := BuildProjectTemplate(cfg);
    calls := calls + [PutObject(cfg.bucket, templateKey, TemplateBody(t.parameters, t.resources, t.outputs))];
    var url := oracle.presign(cfg.bucket, templateKey);
    var o, reconciled := ReconcileProjectStack(stack, PresignedUrl(url), probe.value, responses);
    calls := calls + reconciled;
    match o {
      case Done(a) => r := Ok(a);
      case Raised(e) => r := Err(ControlPlaneError(e));
      case StillWaiting => r := Err(NeverSettles(stack));
    }
  }
}
