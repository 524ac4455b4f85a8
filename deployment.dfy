/**
 * The deployment of one service: upload and prune the code archive (unless
 * the functions run from a container image), build the context's template
 * resource by resource, bootstrap the topics of foreign contexts it listens
 * to, upload the template and reconcile the context's stack.
 */
module Deployment {
  import opened Wrappers
  import opened Strings
  import opened Templates
  import opened Settings
  import opened Domain
  import opened Cloud
  import opened Reconciler
  import Retention
  import opened Timers
  import opened Subscriptions
  import opened Messaging
  import opened LambdaEnvironment

  /** Why a deployment stopped. */
  datatype DeployError =
    | ControlPlaneError(error: ClientError)        // a ClientError propagated out of the agent
    | UnpackFailed(unpack: UnpackError)            // the ValueError of a malformed event reference
    | ListingKeyError(missing: Retention.KeyError) // the KeyError of a listing without `Contents`
    | NeverSettles(stackName: string)              // the stack was still in progress when the poll feed ended

  const Runtime := "python3.7"
  const Handler := "handlers.main"
  const DefaultMemorySize := "3008"

  /** The `Code` of both functions: the image when `image_uri` is set, otherwise this run's archive. */
  function FunctionCode(cfg: Config, codeKey: string): Code
  {
    match cfg.imageUri
    case Some(uri) => ImageCode(uri)
    case None => S3Code(cfg.bucket, codeKey, Runtime, Handler)
  }

  /** The `VpcConfig` of both functions, attached when both id lists are truthy. */
  function FunctionVpc(cfg: Config): Option<VpcConfig>
  {
    if Truthy(cfg.securityGroupIds) && Truthy(cfg.subnetIds) then
      Some(VpcConfig(cfg.securityGroupIds.value, cfg.subnetIds.value))
    else None
  }

  function ServiceFunction(cfg: Config, serviceName: string, kind: string, timeoutParameter: string,
                           env: Vars, codeKey: string): Resource
  {
    LambdaFunction(cfg.names.lambdaResourceName(serviceName) + kind, cfg.names.serviceName(serviceName) + kind,
                   timeoutParameter, env, FunctionCode(cfg, codeKey), FunctionVpc(cfg))
  }

  /** The memory size and the two timeouts. */
  function ServiceParameters(cfg: Config, serviceName: string): seq<Parameter>
  {
    var prefix := cfg.names.lambdaResourceName(serviceName);
    [ Parameter(prefix + "MemorySize", if cfg.memory.Some? then cfg.memory.value else DefaultMemorySize),
      Parameter(prefix + "GatewayTimeout", "30"),
      Parameter(prefix + "AsyncTimeout", "900") ]
  }

  /** The execution role, the synchronous function, its API permission and the asynchronous function. */
  function FunctionResources(cfg: Config, serviceName: string, env: Vars, codeKey: string): seq<Resource>
  {
    var prefix := cfg.names.lambdaResourceName(serviceName);
    [ Other("Role", prefix + "ExecutionRole"),
      ServiceFunction(cfg, serviceName, "Sync", prefix + "GatewayTimeout", env, codeKey),
      Other("Permission", prefix + "SyncPermission"),
      ServiceFunction(cfg, serviceName, "Async", prefix + "AsyncTimeout", env, codeKey) ]
  }

  /**
   * The two functions differ only in title, name and timeout: they share the
   * environment, the code and the VPC setting. The code is the image exactly
   * when `image_uri` is set, and otherwise this run's archive in the
   * deployment bucket; a VPC is attached exactly when both the security
   * group ids and the subnet ids are non-empty lists, and it carries them.
   */
  lemma FunctionConfiguration(cfg: Config, serviceName: string, env: Vars, codeKey: string)
    ensures var fs := FunctionResources(cfg, serviceName, env, codeKey);
            && fs[1].LambdaFunction? && fs[3].LambdaFunction?
            && fs[1].environment == fs[3].environment == env
            && fs[1].code == fs[3].code && fs[1].vpc == fs[3].vpc
            && fs[1].timeoutParameter == ServiceParameters(cfg, serviceName)[1].title
            && fs[3].timeoutParameter == ServiceParameters(cfg, serviceName)[2].title
            && fs[3].title == AsyncTitle(cfg.names, serviceName)
            && (fs[1].code.ImageCode? <==> cfg.imageUri.Some?)
            && (cfg.imageUri.Some? ==> fs[1].code == ImageCode(cfg.imageUri.value))
            && (cfg.imageUri.None? ==> fs[1].code.S3Code? && fs[1].code.bucket == cfg.bucket && fs[1].code.key == codeKey)
            && (fs[1].vpc.Some? <==> cfg.securityGroupIds.Some? && |cfg.securityGroupIds.value| > 0
                                     && cfg.subnetIds.Some? && |cfg.subnetIds.value| > 0)
            && (fs[1].vpc.Some? ==> fs[1].vpc.value.securityGroupIds == cfg.securityGroupIds.value
                                    && fs[1].vpc.value.subnetIds == cfg.subnetIds.value)
  {
  }

  /** The integration and the base and proxy routes of the context's path. */
  function ApiResources(names: Names, contextName: string): seq<Resource>
  {
    [ Other("Integration", names.integrationName(contextName)),
      Other("Route", names.routeName(contextName) + "Base"),
      Other("Route", names.routeName(contextName) + "Proxy") ]
  }

  /** One e-mail subscription per address, all under the same logical title. */
  function AlarmSubscriptions(names: Names, serviceName: string, contextName: string, addresses: seq<string>): seq<Resource>
  {
    seq(|addresses|, i requires 0 <= i < |addresses| =>
      EmailSubscription(names.alarmSubscriptionName(contextName), addresses[i], names.alertTopicArn(contextName),
                        [names.alertTopicName(serviceName)]))
  }

  /** The alert topic when `errors` is configured, then its e-mail subscriptions when `email` is. */
  function AlertResources(cfg: Config, serviceName: string, contextName: string): seq<Resource>
  {
    match cfg.errors
    case None => []
    case Some(errors) =>
      var topic := cfg.names.alertTopicName(serviceName);
      [Topic(topic, topic)]
      + match errors.email
        case None => []
        case Some(email) => AlarmSubscriptions(cfg.names, serviceName, contextName, Split(email.recipients, ','))
  }

  /**
   * With `errors.email` configured, the alert topic is followed by one
   * subscription per comma-separated recipient (one more than the commas),
   * whose endpoints joined by commas give back the recipients string; all
   * share one logical title.
   */
  lemma OneAlarmSubscriptionPerRecipient(cfg: Config, serviceName: string, contextName: string)
    requires cfg.errors.Some? && cfg.errors.value.email.Some?
    ensures var rs := AlertResources(cfg, serviceName, contextName);
            var recipients := cfg.errors.value.email.value.recipients;
            && |rs| == Count(recipients, ',') + 2
            && rs[0] == Topic(cfg.names.alertTopicName(serviceName), cfg.names.alertTopicName(serviceName))
            && (forall i :: 1 <= i < |rs| ==>
                  rs[i].EmailSubscription? && rs[i].title == rs[1].title && ',' !in rs[i].endpoint)
            && Join(seq(|rs| - 1, i requires 0 <= i < |rs| - 1 => rs[i + 1].endpoint), ',') == recipients
  {
    var recipients := cfg.errors.value.email.value.recipients;
    var addresses := Split(recipients, ',');
    var rs := AlertResources(cfg, serviceName, contextName);
    SplitLength(recipients, ',');
    JoinSplit(recipients, ',');
    assert seq(|rs| - 1, i requires 0 <= i < |rs| - 1 => rs[i + 1].endpoint) == addresses;
  }

  /** The alerts block of the service deployment. */
  method AddAlerts(t: Template, cfg: Config, serviceName: string, contextName: string)
    modifies t
    ensures t.resources == old(t.resources) + AlertResources(cfg, serviceName, contextName)
    ensures t.parameters == old(t.parameters) && t.outputs == old(t.outputs)
  {
    if cfg.errors.Some? {
      var topic := cfg.names.alertTopicName(serviceName);
      t.AddResource(Topic(topic, topic));
      if cfg.errors.value.email.Some? {
        var addresses := Split(cfg.errors.value.email.value.recipients, ',');
        AddAlarmSubscriptions(t, cfg.names, serviceName, contextName, addresses);
      }
    }
  }

  /** The loop adding one e-mail subscription to the alert topic per address. */
  method AddAlarmSubscriptions(t: Template, names: Names, serviceName: string, contextName: string, addresses: seq<string>)
    modifies t
    ensures t.resources == old(t.resources) + AlarmSubscriptions(names, serviceName, contextName, addresses)
    ensures t.parameters == old(t.parameters) && t.outputs == old(t.outputs)
  {
    ghost var subscriptions := AlarmSubscriptions(names, serviceName, contextName, addresses);
    for i := 0 to |addresses|
      invariant t.resources == old(t.resources) + subscriptions[..i]
      invariant t.parameters == old(t.parameters) && t.outputs == old(t.outputs)
    {
      t.AddResource(EmailSubscription(names.alarmSubscriptionName(contextName), addresses[i],
                                      names.alertTopicArn(contextName), [names.alertTopicName(serviceName)]));
      assert subscriptions[..i + 1] == subscriptions[..i] + [subscriptions[i]];
    }
    assert subscriptions[..|addresses|] == subscriptions;
  }

  /** The event source mapping from the queue to the asynchronous function, and the context's own topic. */
  function MappingAndTopic(names: Names, contextName: string): seq<Resource>
  {
    [ Other("EventSourceMapping", names.lambdaResourceName(contextName) + "AsyncMapping"),
      Topic(names.topicName(contextName), names.topicName(contextName)) ]
  }

  const ServiceOutputs: seq<Output> := [Output("DDBTable")]

  /** Every resource of the context's template, in the order the deployment adds them. */
  function ServiceResources(cfg: Config, serviceName: string, context: Context, env: Vars, codeKey: string,
                            subs: seq<Subscription>): seq<Resource>
  {
    FunctionResources(cfg, serviceName, env, codeKey)
    + TimerResources(cfg.names, cfg.env, context.name, serviceName, context.commandHandlers)
    + ApiResources(cfg.names, context.name)
    + AlertResources(cfg, serviceName, context.name)
    + QueueResources(cfg.names, context.name, SourceContexts(subs))
    + MappingAndTopic(cfg.names, context.name)
    + SubscriptionResources(cfg.names, context.name, subs)
    + [Other("Table", cfg.names.ddbResourceName(context.name))]
  }

  /** One `delete_object` per key, in order: every key is deleted from the bucket, and nothing else. */
  function Deletions(bucket: string, keys: seq<string>): (calls: seq<Call>)
    ensures |calls| == |keys|
    ensures forall k :: k in keys ==> DeleteObject(bucket, k) in calls
    ensures forall c :: c in calls ==> c.DeleteObject? && c.bucket == bucket && c.key in keys
  {
    var calls := seq(|keys|, i requires 0 <= i < |keys| => DeleteObject(bucket, keys[i]));
    assert forall i :: 0 <= i < |keys| ==> calls[i] == DeleteObject(bucket, keys[i]) && calls[i] in calls;
    calls
  }

  /**
   * The S3 side of `_package_and_deploy_code`: upload this run's archive,
   * list the function's archives and delete all but the two newest.
   */
  method UploadAndPrune(cfg: Config, oracle: Oracle, codeKey: string, codePath: string)
    returns (calls: seq<Call>, failure: Option<DeployError>)
    ensures |calls| >= 2 && calls[..2] == [PutObject(cfg.bucket, codeKey, CodeArchive), ListObjects(cfg.bucket, codePath)]
    ensures failure.Some? <==> oracle.listing(cfg.bucket, codePath).None?
    ensures failure.Some? ==> failure.value == ListingKeyError(Retention.KeyError("Contents")) && |calls| == 2
    ensures failure.None? ==>
              calls[2..] == Deletions(cfg.bucket, Retention.Keys(Retention.Deleted(oracle.listing(cfg.bucket, codePath).value)))
  {
    calls := [PutObject(cfg.bucket, codeKey, CodeArchive), ListObjects(cfg.bucket, codePath)];
    var pruned := Retention.CleanUpOldArtifacts(oracle.listing(cfg.bucket, codePath));
    match pruned
    case Err(e) =>
      failure := Some(ListingKeyError(e));
    case Ok(keys) =>
      calls := calls + Deletions(cfg.bucket, keys);
      failure := None;
  }

  /** The ARN `_find_or_create_topic` looks up. */
  function TopicLookupArn(cfg: Config, contextName: string): string
  {
    "arn:aws:sns:" + cfg.region + ":" + cfg.accountId + ":" + cfg.names.topicName(contextName)
  }

  /** The template of a topic-only stack, passed as it is in place of a URL. */
  function TopicOnlyTemplate(names: Names, contextName: string): TemplateRef
  {
    InlineTemplate([Topic(names.topicName(contextName), names.topicName(contextName))])
  }

  /**
   * The requests of one topic bootstrap: the lookup, and only when it
   * raised, the creation of the context's topic-only stack and its polls.
   */
  predicate BootstrapCalls(cfg: Config, oracle: Oracle, contextName: string, calls: seq<Call>)
  {
    var stack := cfg.names.stackName(contextName);
    && |calls| >= 1
    && calls[0] == GetTopicAttributes(TopicLookupArn(cfg, contextName))
    && (oracle.topicAttributes(TopicLookupArn(cfg, contextName)).None? ==> |calls| == 1)
    && (oracle.topicAttributes(TopicLookupArn(cfg, contextName)).Some? ==>
          && |calls| >= 2
          && calls[1] == Call.CreateStack(stack, TopicOnlyTemplate(cfg.names, contextName), Capabilities)
          && forall j :: 2 <= j < |calls| ==> calls[j] == DescribeStacks(stack))
  }

  /**
   * `_find_or_create_topic`: the stack is created only when the topic
   * lookup raises; a failed creation stops the deployment.
   */
  method FindOrCreateTopic(cfg: Config, oracle: Oracle, contextName: string)
    returns (calls: seq<Call>, failure: Option<DeployError>)
    ensures BootstrapCalls(cfg, oracle, contextName, calls)
    ensures failure == TopicBootstrapFailure(cfg, oracle, contextName)
    ensures oracle.topicAttributes(TopicLookupArn(cfg, contextName)).None? ==> failure.None?
    ensures failure.Some? && failure.value.ControlPlaneError? ==>
              var r := oracle.stacks(cfg.names.stackName(contextName));
              r.create == Some(failure.value.error) || PollError(failure.value.error) in r.polls
  {
    var arn := TopicLookupArn(cfg, contextName);
    calls := [GetTopicAttributes(arn)];
    failure := None;
    if oracle.topicAttributes(arn).Some? {
      var stack := cfg.names.stackName(contextName);
      var r := oracle.stacks(stack);
      var o, created := Reconciler.CreateStack(stack, TopicOnlyTemplate(cfg.names, contextName), r.create, r.polls);
      calls := calls + created;
      match o {
        case Raised(e) => failure := Some(ControlPlaneError(e));
        case StillWaiting => failure := Some(NeverSettles(stack));
        case Done(_) =>
      }
    }
  }

  /**
   * What the bootstrap of `contextName`'s topic stops the deployment with:
   * nothing when the topic lookup succeeds or the topic-only stack settles,
   * otherwise the create's error, a poll's error, or a stack that never
   * settles.
   */
  function TopicBootstrapFailure(cfg: Config, oracle: Oracle, contextName: string): Option<DeployError>
  {
    if oracle.topicAttributes(TopicLookupArn(cfg, contextName)).None? then None
    else
      var stack := cfg.names.stackName(contextName);
      var r := oracle.stacks(stack);
      match CreateOutcome(r.create, r.polls)
      case Done(_) => None
      case Raised(e) => Some(ControlPlaneError(e))
      case StillWaiting => Some(NeverSettles(stack))
  }

  /** The failure of the first bootstrap among `boot` that fails, if any. */
  function FirstBootstrapFailure(cfg: Config, oracle: Oracle, boot: seq<string>): Option<DeployError>
  {
    if |boot| == 0 then None
    else
      var earlier := FirstBootstrapFailure(cfg, oracle, boot[..|boot| - 1]);
      if earlier.Some? then earlier else TopicBootstrapFailure(cfg, oracle, boot[|boot| - 1])
  }

  /** The group keys whose topic is bootstrapped: foreign contexts missing from the context map, in order. */
  function BootstrapContexts(cfg: Config, contextName: string, keys: seq<string>): seq<string>
  {
    if |keys| == 0 then []
    else
      var c := keys[|keys| - 1];
      BootstrapContexts(cfg, contextName, keys[..|keys| - 1])
      + (if c != contextName && c !in cfg.contextMap then [c] else [])
  }

  lemma {:induction false} BootstrapContextsMembers(cfg: Config, contextName: string, keys: seq<string>)
    ensures forall c :: c in BootstrapContexts(cfg, contextName, keys) <==> c in keys && c != contextName && c !in cfg.contextMap
  {
    if |keys| > 0 {
      BootstrapContextsMembers(cfg, contextName, keys[..|keys| - 1]);
      assert keys == keys[..|keys| - 1] + [keys[|keys| - 1]];
    }
  }

  function Concat(parts: seq<seq<Call>>): seq<Call>
  {
    if |parts| == 0 then [] else Concat(parts[..|parts| - 1]) + parts[|parts| - 1]
  }

  /** `parts[j]` are the requests of the bootstrap of `boot[j]`, for every `j`. */
  predicate Bootstraps(cfg: Config, oracle: Oracle, boot: seq<string>, parts: seq<seq<Call>>)
  {
    |parts| == |boot|
    && (|parts| > 0 ==>
          && Bootstraps(cfg, oracle, boot[..|boot| - 1], parts[..|parts| - 1])
          && BootstrapCalls(cfg, oracle, boot[|boot| - 1], parts[|parts| - 1]))
  }

  lemma BootstrapsSnoc(cfg: Config, oracle: Oracle, boot: seq<string>, parts: seq<seq<Call>>, c: string, more: seq<Call>)
    requires Bootstraps(cfg, oracle, boot, parts) && BootstrapCalls(cfg, oracle, c, more)
    ensures Bootstraps(cfg, oracle, boot + [c], parts + [more])
    ensures Concat(parts + [more]) == Concat(parts) + more
  {
    assert (parts + [more])[..|parts|] == parts;
    assert (boot + [c])[..|boot|] == boot;
  }

  lemma GroupSubscriptionsStep(names: Names, contextName: string, subs: seq<Subscription>, keys: seq<string>, i: nat,
                               initial: seq<Resource>, before: seq<Resource>, after: seq<Resource>)
    requires i < |keys|
    requires before == initial + GroupSubscriptions(names, contextName, subs, keys[..i])
    requires after == before + [SubscriptionFor(names, contextName, keys[i], OfContext(subs, keys[i]))]
    ensures after == initial + GroupSubscriptions(names, contextName, subs, keys[..i + 1])
  {
    assert keys[..i + 1][..i] == keys[..i];
  }

  lemma FirstBootstrapFailureSnoc(cfg: Config, oracle: Oracle, boot: seq<string>, c: string)
    requires FirstBootstrapFailure(cfg, oracle, boot) == None
    ensures FirstBootstrapFailure(cfg, oracle, boot + [c]) == TopicBootstrapFailure(cfg, oracle, c)
  {
    assert (boot + [c])[..|boot|] == boot;
  }

  /** Once a bootstrap has failed, the loop stops with that failure whatever the later groups are. */
  lemma {:induction false} FirstFailureSticks(cfg: Config, oracle: Oracle, contextName: string, keys: seq<string>, i: nat)
    requires i <= |keys|
    requires FirstBootstrapFailure(cfg, oracle, BootstrapContexts(cfg, contextName, keys[..i])).Some?
    ensures FirstBootstrapFailure(cfg, oracle, BootstrapContexts(cfg, contextName, keys))
            == FirstBootstrapFailure(cfg, oracle, BootstrapContexts(cfg, contextName, keys[..i]))
    decreases |keys|
  {
    if i < |keys| {
      var init := keys[..|keys| - 1];
      assert init[..i] == keys[..i];
      FirstFailureSticks(cfg, oracle, contextName, init, i);
      var all := BootstrapContexts(cfg, contextName, keys);
      if all != BootstrapContexts(cfg, contextName, init) {
        assert all[..|all| - 1] == BootstrapContexts(cfg, contextName, init);
      }
    } else {
      assert keys[..i] == keys;
    }
  }

  lemma BootstrapContextsStep(cfg: Config, contextName: string, keys: seq<string>, i: nat)
    requires i < |keys|
    ensures BootstrapContexts(cfg, contextName, keys[..i + 1])
            == BootstrapContexts(cfg, contextName, keys[..i])
               + (if keys[i] != contextName && keys[i] !in cfg.contextMap then [keys[i]] else [])
  {
    assert keys[..i + 1][..i] == keys[..i];
  }

  /**
   * One pass of the subscription loop for the group of `source`: the
   * subscription, preceded by the bootstrap of the source's topic when it
   * is a foreign context missing from the context map. A failed bootstrap
   * adds nothing.
   */
  method WireGroup(t: Template, cfg: Config, oracle: Oracle, contextName: string, source: string, list: seq<Subscription>)
    returns (calls: seq<Call>, failure: Option<DeployError>, bootstrapped: bool)
    modifies t
    ensures t.parameters == old(t.parameters) && t.outputs == old(t.outputs)
    ensures bootstrapped <==> |list| > 0 && source != contextName && source !in cfg.contextMap
    ensures bootstrapped ==> BootstrapCalls(cfg, oracle, source, calls) && failure == TopicBootstrapFailure(cfg, oracle, source)
    ensures !bootstrapped ==> calls == [] && failure.None?
    ensures failure.None? && |list| > 0 ==> t.resources == old(t.resources) + [SubscriptionFor(cfg.names, contextName, source, list)]
    ensures failure.Some? || |list| == 0 ==> t.resources == old(t.resources)
  {
    calls, failure, bootstrapped := [], None, false;
    if source == contextName && |list| > 0 {
      t.AddResource(SubscriptionFor(cfg.names, contextName, source, list));
    } else if |list| > 0 {
      if source !in cfg.contextMap {
        calls, failure := FindOrCreateTopic(cfg, oracle, source);
        bootstrapped := true;
        if failure.Some? {
          return;
        }
      }
      t.AddResource(SubscriptionFor(cfg.names, contextName, source, list));
    }
  }

  /**
   * The subscription loop: one subscription per group, own-topic or
   * foreign-topic; before a foreign subscription whose context is not in
   * the context map, that context's topic is bootstrapped. `parts` are the
   * requests of each bootstrap, in order.
   */
  method WireSubscriptions(t: Template, cfg: Config, oracle: Oracle, contextName: string,
                           subs: seq<Subscription>, g: Groups)
    returns (calls: seq<Call>, failure: Option<DeployError>, ghost boot: seq<string>, ghost parts: seq<seq<Call>>)
    requires g.keys == SourceContexts(subs)
    requires forall c :: c in g.lists <==> c in g.keys
    requires forall c :: c in g.lists ==> g.lists[c] == OfContext(subs, c)
    modifies t
    ensures t.parameters == old(t.parameters) && t.outputs == old(t.outputs)
    ensures calls == Concat(parts)
    ensures Bootstraps(cfg, oracle, boot, parts)
    ensures failure.None? ==> boot == BootstrapContexts(cfg, contextName, g.keys)
    ensures failure == FirstBootstrapFailure(cfg, oracle, BootstrapContexts(cfg, contextName, g.keys))
    ensures failure.None? ==> t.resources == old(t.resources) + SubscriptionResources(cfg.names, contextName, subs)
  {
    calls, failure, boot, parts := [], None, [], [];
    for i := 0 to |g.keys|
      invariant t.parameters == old(t.parameters) && t.outputs == old(t.outputs)
      invariant t.resources == old(t.resources) + GroupSubscriptions(cfg.names, contextName, subs, g.keys[..i])
      invariant calls == Concat(parts)
      invariant boot == BootstrapContexts(cfg, contextName, g.keys[..i])
      invariant Bootstraps(cfg, oracle, boot, parts)
      invariant FirstBootstrapFailure(cfg, oracle, boot) == None
    {
      var source := g.keys[i];
      var stop;
      calls, stop, boot, parts := WireNextGroup(t, cfg, oracle, contextName, subs, g.keys, i, g.lists[source],
                                                old(t.resources), calls, boot, parts);
      if stop.Some? {
        FirstFailureSticks(cfg, oracle, contextName, g.keys, i + 1);
        failure := stop;
        return;
      }
    }
    assert g.keys[..|g.keys|] == g.keys;
  }

  /** One turn of the subscription loop, as the loop's invariants see it. */
  method WireNextGroup(t: Template, cfg: Config, oracle: Oracle, contextName: string, subs: seq<Subscription>,
                       keys: seq<string>, i: nat, list: seq<Subscription>, ghost initial: seq<Resource>,
                       calls0: seq<Call>, ghost boot0: seq<string>, ghost parts0: seq<seq<Call>>)
    returns (calls: seq<Call>, failure: Option<DeployError>, ghost boot: seq<string>, ghost parts: seq<seq<Call>>)
    requires keys == SourceContexts(subs) && i < |keys| && list == OfContext(subs, keys[i])
    requires t.resources == initial + GroupSubscriptions(cfg.names, contextName, subs, keys[..i])
    requires calls0 == Concat(parts0) && Bootstraps(cfg, oracle, boot0, parts0)
    requires boot0 == BootstrapContexts(cfg, contextName, keys[..i])
    requires FirstBootstrapFailure(cfg, oracle, boot0) == None
    modifies t
    ensures t.parameters == old(t.parameters) && t.outputs == old(t.outputs)
    ensures calls == Concat(parts) && Bootstraps(cfg, oracle, boot, parts)
    ensures boot == BootstrapContexts(cfg, contextName, keys[..i + 1])
    ensures failure == FirstBootstrapFailure(cfg, oracle, boot)
    ensures failure.None? ==> t.resources == initial + GroupSubscriptions(cfg.names, contextName, subs, keys[..i + 1])
  {
    BootstrapContextsStep(cfg, contextName, keys, i);
    GroupsNonEmpty(subs, keys[i]);
    ghost var before := t.resources;
    var more, bootstrapped;
    more, failure, bootstrapped := WireGroup(t, cfg, oracle, contextName, keys[i], list);
    if failure.None? {
      GroupSubscriptionsStep(cfg.names, contextName, subs, keys, i, initial, before, t.resources);
    }
    calls, boot, parts := calls0, boot0, parts0;
    if bootstrapped {
      BootstrapsSnoc(cfg, oracle, boot0, parts0, keys[i], more);
      calls, parts, boot := calls0 + more, parts0 + [more], boot0 + [keys[i]];
      FirstBootstrapFailureSnoc(cfg, oracle, boot0, keys[i]);
    }
  }

  /** Every bootstrap looked its topic up. */
  lemma {:induction false} BootstrapLookups(cfg: Config, oracle: Oracle, boot: seq<string>, parts: seq<seq<Call>>)
    requires Bootstraps(cfg, oracle, boot, parts)
    ensures forall c :: c in boot ==> GetTopicAttributes(TopicLookupArn(cfg, c)) in Concat(parts)
  {
    if |parts| > 0 {
      BootstrapLookups(cfg, oracle, boot[..|boot| - 1], parts[..|parts| - 1]);
      assert boot == boot[..|boot| - 1] + [boot[|boot| - 1]];
      assert parts[|parts| - 1][0] in Concat(parts);
    }
  }

  /** Bootstrap requests are SNS and CloudFormation requests only. */
  lemma {:induction false} BootstrapShape(cfg: Config, oracle: Oracle, boot: seq<string>, parts: seq<seq<Call>>)
    requires Bootstraps(cfg, oracle, boot, parts)
    ensures forall c :: c in Concat(parts) ==> c.GetTopicAttributes? || StackCall(c)
  {
    if |parts| > 0 {
      BootstrapShape(cfg, oracle, boot[..|boot| - 1], parts[..|parts| - 1]);
    }
  }

  /** The parameters and the four function resources. */
  method AddFunctions(t: Template, cfg: Config, serviceName: string, env: Vars, codeKey: string)
    modifies t
    ensures t.parameters == old(t.parameters) + ServiceParameters(cfg, serviceName)
    ensures t.resources == old(t.resources) + FunctionResources(cfg, serviceName, env, codeKey)
    ensures t.outputs == old(t.outputs)
  {
    var prefix := cfg.names.lambdaResourceName(serviceName);
    t.AddParameter(Parameter(prefix + "MemorySize", if cfg.memory.Some? then cfg.memory.value else DefaultMemorySize));
    t.AddParameter(Parameter(prefix + "GatewayTimeout", "30"));
    t.AddParameter(Parameter(prefix + "AsyncTimeout", "900"));
    t.AddResource(Other("Role", prefix + "ExecutionRole"));
    t.AddResource(ServiceFunction(cfg, serviceName, "Sync", prefix + "GatewayTimeout", env, codeKey));
    t.AddResource(Other("Permission", prefix + "SyncPermission"));
    t.AddResource(ServiceFunction(cfg, serviceName, "Async", prefix + "AsyncTimeout", env, codeKey));
  }

  method AddApi(t: Template, names: Names, contextName: string)
    modifies t
    ensures t.resources == old(t.resources) + ApiResources(names, contextName)
    ensures t.parameters == old(t.parameters) && t.outputs == old(t.outputs)
  {
    t.AddResource(Other("Integration", names.integrationName(contextName)));
    t.AddResource(Other("Route", names.routeName(contextName) + "Base"));
    t.AddResource(Other("Route", names.routeName(contextName) + "Proxy"));
  }

  /** The queue pair with their policies, the event source mapping and the context's topic. */
  method AddQueues(t: Template, names: Names, contextName: string, keys: seq<string>)
    modifies t
    ensures t.resources == old(t.resources) + QueueResources(names, contextName, keys) + MappingAndTopic(names, contextName)
    ensures t.parameters == old(t.parameters) && t.outputs == old(t.outputs)
  {
    var dlq := DlqTitle(names, contextName);
    var queue := QueueTitle(names, contextName);
    t.AddResource(Queue(dlq, dlq, VisibilityTimeout, ReceiveMessageWaitTimeSeconds, MessageRetentionPeriod, None, []));
    t.AddResource(QueuePolicyFor(names, dlq, keys));
    t.AddResource(Queue(queue, queue, VisibilityTimeout, ReceiveMessageWaitTimeSeconds, MessageRetentionPeriod,
                        Some(Redrive(dlq, MaxReceiveCount)), [dlq]));
    t.AddResource(QueuePolicyFor(names, queue, keys));
    t.AddResource(Other("EventSourceMapping", names.lambdaResourceName(contextName) + "AsyncMapping"));
    t.AddResource(Topic(names.topicName(contextName), names.topicName(contextName)));
  }

  /** The failure of the first topic bootstrap the subscription loop for `subs` performs. */
  function EventingFailure(cfg: Config, oracle: Oracle, contextName: string, subs: seq<Subscription>): Option<DeployError>
  {
    FirstBootstrapFailure(cfg, oracle, BootstrapContexts(cfg, contextName, SourceContexts(subs)))
  }

  /**
   * The queues, the event-source mapping, the context's topic and one
   * subscription per source context, bootstrapping foreign topics on the way.
   */
  method AddEventing(t: Template, cfg: Config, oracle: Oracle, contextName: string, subs: seq<Subscription>)
    returns (calls: seq<Call>, failure: Option<DeployError>)
    modifies t
    ensures t.parameters == old(t.parameters) && t.outputs == old(t.outputs)
    ensures forall c :: c in calls ==> c.GetTopicAttributes? || StackCall(c)
    ensures failure == EventingFailure(cfg, oracle, contextName, subs)
    ensures failure.None? ==>
              && t.resources == old(t.resources) + QueueResources(cfg.names, contextName, SourceContexts(subs))
                                + MappingAndTopic(cfg.names, contextName) + SubscriptionResources(cfg.names, contextName, subs)
              && forall c :: c in BootstrapContexts(cfg, contextName, SourceContexts(subs)) ==>
                               GetTopicAttributes(TopicLookupArn(cfg, c)) in calls
  {
    var g := GroupByContext(subs);
    AddQueues(t, cfg.names, contextName, g.keys);
    ghost var boot, parts;
    calls, failure, boot, parts := WireSubscriptions(t, cfg, oracle, contextName, subs, g);
    BootstrapShape(cfg, oracle, boot, parts);
    BootstrapLookups(cfg, oracle, boot, parts);
  }

  /**
   * The template-building part of `_deploy_service`, from the parameters
   * to the output, with the topic bootstraps the subscription loop performs.
   * `subs` is the flattened subscription list.
   */
  method BuildServiceTemplate(cfg: Config, oracle: Oracle, serviceName: string, context: Context, env: Vars, codeKey: string)
    returns (t: Template, calls: seq<Call>, r: Result<seq<Subscription>, DeployError>)
    ensures fresh(t)
    ensures forall c :: c in calls ==> c.GetTopicAttributes? || StackCall(c)
    ensures Flattened(AllRefs(context.eventListeners)).Err? ==>
              r == Err(UnpackFailed(Flattened(AllRefs(context.eventListeners)).error)) && calls == []
    ensures Flattened(AllRefs(context.eventListeners)).Ok? ==>
              var failure := EventingFailure(cfg, oracle, context.name, Flattened(AllRefs(context.eventListeners)).value);
              && (r.Ok? <==> failure.None?)
              && (failure.Some? ==> r == Err(failure.value))
    ensures r.Ok? ==>
              && Flattened(AllRefs(context.eventListeners)) == Ok(r.value)
              && t.parameters == ServiceParameters(cfg, serviceName)
              && t.resources == ServiceResources(cfg, serviceName, context, env, codeKey, r.value)
              && t.outputs == ServiceOutputs
              && forall c :: c in BootstrapContexts(cfg, context.name, SourceContexts(r.value)) ==>
                               GetTopicAttributes(TopicLookupArn(cfg, c)) in calls
  {
    t := new Template();
    calls := [];
    AddFunctions(t, cfg, serviceName, env, codeKey);
    AddTimers(t, cfg.names, cfg.env, context.name, serviceName, context.commandHandlers);
    AddApi(t, cfg.names, context.name);
    AddAlerts(t, cfg, serviceName, context.name);
    ghost var front := FunctionResources(cfg, serviceName, env, codeKey)
                       + TimerResources(cfg.names, cfg.env, context.name, serviceName, context.commandHandlers)
                       + ApiResources(cfg.names, context.name)
                       + AlertResources(cfg, serviceName, context.name);
    assert t.resources == front;

    var flattened := GetSubscriptions(context.eventListeners);
    if flattened.Err? {
      return t, calls, Err(UnpackFailed(flattened.error));
    }
    var subs := flattened.value;
    var stop;
    calls, stop := AddEventing(t, cfg, oracle, context.name, subs);
    if stop.Some? {
      return t, calls, Err(stop.value);
    }
    t.AddResource(Other("Table", cfg.names.ddbResourceName(context.name)));
    t.AddOutput(Output("DDBTable"));
    ServiceResourcesInOrder(cfg, serviceName, context, env, codeKey, subs, front);
    r := Ok(subs);
  }

  /**
   * How a deployment reports a reconciliation's outcome: the action on
   * success, the ClientError that propagated, or a stack still in progress
   * when the poll feed ended.
   */
  predicate Reports(o: Outcome, stackName: string, r: Result<Action, DeployError>)
  {
    && (r.Ok? <==> o.Done?)
    && (o.Done? ==> r.value == o.action)
    && (o.Raised? ==> r == Err(ControlPlaneError(o.error)))
    && (o.StillWaiting? ==> r == Err(NeverSettles(stackName)))
  }

  /**
   * `_deploy_service`: everything from packaging to the stack
   * reconciliation. `env` is the environment both functions receive.
   */
  method DeployService(cfg: Config, oracle: Oracle, serviceName: string, context: Context,
                       codeKey: string, codePath: string, templateKey: string)
    returns (t: Template, env: Vars, calls: seq<Call>, r: Result<Action, DeployError>)
    ensures cfg.imageUri.None? ==>
              |calls| >= 2 && calls[..2] == [PutObject(cfg.bucket, codeKey, CodeArchive), ListObjects(cfg.bucket, codePath)]
    ensures cfg.imageUri.Some? ==>
              forall c :: c in calls ==> !c.ListObjects? && !c.DeleteObject? && (c.PutObject? ==> c.body.TemplateBody?)
    ensures forall k :: Get(env, k) ==
              if k == SlackErrorUrl && cfg.slackErrorUrl.Some? then cfg.slackErrorUrl
              else if context.environment.Some? && Get(context.environment.value, k).Some? then Get(context.environment.value, k)
              else Get(Defaults(cfg, context), k)
    ensures (Flattened(AllRefs(context.eventListeners)).Err? && (cfg.imageUri.Some? || oracle.listing(cfg.bucket, codePath).Some?))
              ==> r == Err(UnpackFailed(Flattened(AllRefs(context.eventListeners)).error))
    ensures cfg.imageUri.None? && oracle.listing(cfg.bucket, codePath).None? ==>
              r == Err(ListingKeyError(Retention.KeyError("Contents")))
    ensures (cfg.imageUri.Some? || oracle.listing(cfg.bucket, codePath).Some?) && Flattened(AllRefs(context.eventListeners)).Ok? ==>
              var failure := EventingFailure(cfg, oracle, context.name, Flattened(AllRefs(context.eventListeners)).value);
              var stack := cfg.names.stackName(context.name);
              && (failure.Some? ==> r == Err(failure.value))
              && (failure.None? ==> Reports(ServiceOutcome(stack, oracle.stacks(stack)), stack, r))
    ensures r.Ok? ==> Flattened(AllRefs(context.eventListeners)).Ok?
    ensures r.Ok? ==>
              var subs := Flattened(AllRefs(context.eventListeners)).value;
              && t.parameters == ServiceParameters(cfg, serviceName)
              && t.resources == ServiceResources(cfg, serviceName, context, env, codeKey, subs)
              && t.outputs == ServiceOutputs
              && PutObject(cfg.bucket, templateKey, TemplateBody(t.parameters, t.resources, t.outputs)) in calls
              && DescribeStacks(cfg.names.stackName(context.name)) in calls
              && forall c :: c in BootstrapContexts(cfg, context.name, SourceContexts(subs)) ==>
                               GetTopicAttributes(TopicLookupArn(cfg, c)) in calls
  {
    calls := [];
    env := LambdaVariables(cfg, context);
    if cfg.imageUri.None? {
      var uploaded, stop := UploadAndPrune(cfg, oracle, codeKey, codePath);
      calls := uploaded;
      if stop.Some? {
        t := new Template();
        return t, env, calls, Err(stop.value);
      }
    }
    ghost var packaging := calls;
    var built, subs;
    t, built, subs := BuildServiceTemplate(cfg, oracle, serviceName, context, env, codeKey);
    calls := calls + built;
    if subs.Err? {
      return t, env, calls, Err(subs.error);
    }

    var body := TemplateBody(t.parameters, t.resources, t.outputs);
    var url := oracle.presign(cfg.bucket, templateKey);
    var stack := cfg.names.stackName(context.name);
    var o, reconciled := ReconcileServiceStack(stack, PresignedUrl(url), oracle.stacks(stack));
    calls := calls + [PutObject(cfg.bucket, templateKey, body)] + reconciled;
    ServiceCalls(packaging, built, PutObject(cfg.bucket, templateKey, body), reconciled, calls);
    match o {
      case Done(a) => r := Ok(a);
      case Raised(e) => r := Err(ControlPlaneError(e));
      case StillWaiting => r := Err(NeverSettles(stack));
    }
  }

  /** Where the requests of a service deployment come from. */
  lemma ServiceCalls(packaging: seq<Call>, built: seq<Call>, put: Call, reconciled: seq<Call>, calls: seq<Call>)
    requires calls == packaging + built + [put] + reconciled && |reconciled| >= 1
    requires forall c :: c in built ==> c.GetTopicAttributes? || StackCall(c)
    requires put.PutObject? && put.body.TemplateBody?
    requires forall c :: c in reconciled ==> StackCall(c)
    ensures put in calls && reconciled[0] in calls
    ensures forall c :: c in built ==> c in calls
    ensures |packaging| >= 2 ==> calls[..2] == packaging[..2]
    ensures packaging == [] ==>
              forall c :: c in calls ==> !c.ListObjects? && !c.DeleteObject? && (c.PutObject? ==> c.body.TemplateBody?)
  {
    assert calls[|packaging| + |built|] == put;
    forall c | c in built ensures c in calls {
      var i :| 0 <= i < |built| && built[i] == c;
      assert calls[|packaging| + i] == c;
    }
  }

  lemma ServiceResourcesInOrder(cfg: Config, serviceName: string, context: Context, env: Vars, codeKey: string,
                                subs: seq<Subscription>, front: seq<Resource>)
    requires front == FunctionResources(cfg, serviceName, env, codeKey)
                      + TimerResources(cfg.names, cfg.env, context.name, serviceName, context.commandHandlers)
                      + ApiResources(cfg.names, context.name)
                      + AlertResources(cfg, serviceName, context.name)
    ensures ServiceResources(cfg, serviceName, context, env, codeKey, subs)
            == front + QueueResources(cfg.names, context.name, SourceContexts(subs)) + MappingAndTopic(cfg.names, context.name)
               + SubscriptionResources(cfg.names, context.name, subs) + [Other("Table", cfg.names.ddbResourceName(context.name))]
  {
  }
}
