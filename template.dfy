/**
 * The CloudFormation template as the deployment code builds it: an ordered
 * list of parameters, an ordered list of abstract resource records (kind,
 * logical title and the attributes the deployment decisions set) and an
 * ordered list of outputs. Rendering to JSON is not part of this model.
 */
module Templates {
  import opened Wrappers

  /** A `Code` property: a container image, or a zip archive in S3. */
  datatype Code =
    | ImageCode(imageUri: string)
    | S3Code(bucket: string, key: string, runtime: string, handler: string)

  datatype VpcConfig = VpcConfig(securityGroupIds: seq<string>, subnetIds: seq<string>)

  /** An SQS redrive policy: `GetAtt(deadLetterTarget, 'Arn')` and the receive ceiling. */
  datatype Redrive = Redrive(deadLetterTarget: string, maxReceiveCount: nat)

  /** An EventBridge rule target pointing at `GetAtt(functionTitle, 'Arn')`. */
  datatype Target = Target(title: string, functionTitle: string, id: string, input: string)

  datatype LifecycleRule = LifecycleRule(prefix: string, status: string, expirationInDays: nat)

  datatype Resource =
    | LambdaFunction(title: string, functionName: string, timeoutParameter: string,
                     environment: seq<(string, string)>, code: Code, vpc: Option<VpcConfig>)
      /** A scheduled rule; `schedule` is its ScheduleExpression. */
    | Rule(title: string, schedule: string, state: string, targets: seq<Target>)
      /** The invoke permission of a timer rule: FunctionName `Ref(functionTitle)`, SourceArn `GetAtt(ruleTitle, 'Arn')`. */
    | TimerPermission(title: string, action: string, principal: string, functionTitle: string, ruleTitle: string)
    | Topic(title: string, topicName: string)
    | EmailSubscription(title: string, endpoint: string, topicArn: string, dependsOn: seq<string>)
    | Queue(title: string, queueName: string, visibilityTimeout: nat, receiveWaitSeconds: nat,
            retentionSeconds: nat, redrive: Option<Redrive>, dependsOn: seq<string>)
      /** Allows `sqs:SendMessage` to `queueTitle` from any of `sourceArns`. */
    | QueuePolicy(title: string, queueTitle: string, sourceArns: seq<string>)
      /** An SNS-to-SQS subscription with a FilterPolicy on `_name`. */
    | Subscription(title: string, queueTitle: string, topicArn: string, filterNames: seq<string>,
                   deadLetterTarget: string, dependsOn: seq<string>)
    | Bucket(title: string, bucketName: string, lifecycleRules: seq<LifecycleRule>)
      /** Any other resource, kept only by kind and logical title. */
    | Other(kind: string, title: string)

  datatype Parameter = Parameter(title: string, default: string)

  datatype Output = Output(title: string)

  /** troposphere's `Template`, grown in place by `add_parameter`, `add_resource` and `add_output`. */
  class Template {
    var parameters: seq<Parameter>
    var resources: seq<Resource>
    var outputs: seq<Output>

    constructor ()
      ensures parameters == [] && resources == [] && outputs == []
    {
      parameters, resources, outputs := [], [], [];
    }

    method AddParameter(p: Parameter)
      modifies this
      ensures parameters == old(parameters) + [p]
      ensures resources == old(resources) && outputs == old(outputs)
    {
      parameters := parameters + [p];
    }

    method AddResource(r: Resource)
      modifies this
      ensures resources == old(resources) + [r]
      ensures parameters == old(parameters) && outputs == old(outputs)
    {
      resources := resources + [r];
    }

    method AddOutput(o: Output)
      modifies this
      ensures outputs == old(outputs) + [o]
      ensures parameters == old(parameters) && resources == old(resources)
    {
      outputs := outputs + [o];
    }
  }
}
