/**
 * The boundary with AWS: the requests the agent issues (S3, SNS and
 * CloudFormation) and the responses they get, given as an oracle.
 */
module Cloud {
  import opened Wrappers
  import opened Templates

  /** botocore's `ClientError`, known by the text of `str(e)`. */
  datatype ClientError = ClientError(message: string)

  /** One row of an S3 `list_objects` response. */
  datatype Artifact = Artifact(key: string, lastModified: int)

  /** The `TemplateURL` argument: a presigned URL string, or a template object passed in its place. */
  datatype TemplateRef = PresignedUrl(url: string) | InlineTemplate(resources: seq<Resource>)

  datatype Body = TemplateBody(parameters: seq<Parameter>, resources: seq<Resource>, outputs: seq<Output>)
                | CodeArchive
                | Text(text: string)

  const Capabilities: seq<string> := ["CAPABILITY_IAM"]

  /** A request sent to AWS, in the order the agent sends them. */
  datatype Call =
    | PutObject(bucket: string, key: string, body: Body)
    | ListObjects(bucket: string, prefix: string)
    | DeleteObject(bucket: string, key: string)
    | GetTopicAttributes(topicArn: string)
    | DescribeStacks(stackName: string)
    | CreateStack(stackName: string, template: TemplateRef, capabilities: seq<string>)
    | UpdateStack(stackName: string, template: TemplateRef, capabilities: seq<string>)

  /** What one `describe_stacks` poll returns: the stack's status, or an error. */
  datatype Poll = Status(status: string) | PollError(error: ClientError)

  /**
   * The control plane's answers for one stack name: the existence probe
   * (None when `describe_stacks` succeeds), `create_stack`, `update_stack`
   * (None when they are accepted) and the successive status polls.
   */
  datatype StackResponses = StackResponses(
    describe: Option<ClientError>,
    create: Option<ClientError>,
    update: Option<ClientError>,
    polls: seq<Poll>)

  /**
   * Every external answer the deployment depends on: per stack name, per
   * topic ARN (None when `get_topic_attributes` succeeds), presigned URLs
   * per (bucket, key), and `list_objects(...)['Contents']` per (bucket, prefix),
   * None when the response has no `Contents`.
   */
  datatype Oracle = Oracle(
    stacks: string -> StackResponses,
    topicAttributes: string -> Option<ClientError>,
    presign: (string, string) -> string,
    listing: (string, string) -> Option<seq<Artifact>>)
}
