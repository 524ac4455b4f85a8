/**
 * What the agent reads from its configuration and environment, and the
 * resource-naming helpers it inherits. The naming helpers are defined
 * elsewhere in the framework, so they are carried here as uninterpreted
 * functions: the model only relies on them being functions of their inputs.
 */
module Settings {
  import opened Wrappers

  /** The `ResourceNameAware` helpers used by the agent, one field per helper and arity. */
  datatype Names = Names(
    serviceName: string -> string,                    // _service_name(name)
    lambdaResourceName: string -> string,             // _lambda_resource_name(name)
    queueName: string -> string,                      // _queue_name(context)
    topicName: string -> string,                      // _topic_name(context)
    topicArn: string -> string,                       // _topic_arn(context)
    subscriptionName: string -> string,               // _subscription_name(context)
    crossSubscriptionName: (string, string) -> string, // _subscription_name(context, source)
    stackName: string -> string,                      // _stack_name(context)
    projectStackName: string,                         // _stack_name()
    projectServiceName: string,                       // _service_name()
    ddbResourceName: string -> string,
    ddbTableName: string -> string,
    integrationName: string -> string,
    routeName: string -> string,
    alertTopicName: string -> string,
    alertTopicArn: string -> string,
    alarmSubscriptionName: string -> string,
    restApiName: string,                              // _rest_api_name()
    restApiReference: string,                         // _rest_api_reference()
    projectIntegrationName: string,                   // _integration_name()
    projectRouteName: string,                         // _route_name()
    bucketTitle: string -> string)                    // camelize(underscore(bucket))

  /** `errors.email.recipients`: a comma-separated list of addresses. */
  datatype EmailConfig = EmailConfig(recipients: string)

  /** The `errors` section; `email` is present or not. */
  datatype ErrorsConfig = ErrorsConfig(email: Option<EmailConfig>)

  /**
   * The agent's settings for one deployment run: the `firefly_aws` section,
   * the project name, the target environment, the account id, the optional
   * SLACK_ERROR_URL process variable and the names of the contexts in the
   * context map.
   */
  datatype Config = Config(
    project: string,
    env: string,
    accountId: string,
    region: string,
    bucket: string,
    memory: Option<string>,
    imageUri: Option<string>,
    securityGroupIds: Option<seq<string>>,
    subnetIds: Option<seq<string>>,
    errors: Option<ErrorsConfig>,
    slackErrorUrl: Option<string>,
    contextMap: set<string>,
    names: Names)

  /** Python truthiness of an optional list: present and non-empty. */
  predicate Truthy(ids: Option<seq<string>>)
  {
    ids.Some? && |ids.value| > 0
  }
}
