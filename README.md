# firefly-aws deployment core, modelled in Dafny

This project models the part of the firefly-aws extension that turns a
firefly deployment into AWS CloudFormation stacks, and two small runtime
services that ship beside it.

- **The AWS agent** builds one service stack per context. The stack holds:
  - the sync and async Lambda functions, with code from S3 or from a container image and an optional VPC;
  - the timer rules and their permissions;
  - the HTTP API integration and routes;
  - the error-alert topic and its e-mail subscriptions;
  - the queue and its dead-letter queue, with their policies;
  - one SNS subscription per source context of the events the context listens to;
  - the document table.

  In S3 mode the agent uploads the code archive and keeps only the two newest archives.
  In image mode packaging is skipped.
  A context whose topic is not known yet gets a topic-only stack first.
  The agent then uploads the template and creates or updates the stack, depending on a `describe_stacks` probe.
  It polls until the stack leaves an `_IN_PROGRESS` status.
  The project stack is built the same way. It holds the deployment bucket, which expires `tmp` objects after a day, and the project HTTP API.
- **The Cognito authenticator** finds the bearer token of a secured HTTP message. It decodes the token and records the claims on the message, with `scope` split into `scopes`.
- **The large-payload store** moves a payload longer than 64,000 characters to `tmp/<uuid>.json` in the bucket. It replaces the payload with an envelope naming that key.

The cloud is a value:
- `Cloud.Oracle` gives the answer to every request the agent can make: the per-stack responses, topic lookups, bucket listings and presigned URLs.
- Every operation returns the requests it issued, as a `Cloud.Call` log, in order.

The template is a `Templates.Template` object that grows by `AddParameter`, `AddResource` and `AddOutput`. The agent's loops are methods over it, and each is proved against a function that gives the whole resource list.

Modules and files:

| file | module | models |
|---|---|---|
| wrappers.dfy | Wrappers | `Option`, `Result` |
| strings.dfy | Strings | `str.split`, `'sep'.join`, `v.split(' ')[-1]`, ASCII `lower`, `startswith`, `endswith`, `in` |
| domain.dfy | Domain | contexts, command handlers, timers, event references |
| settings.dfy | Settings | the agent's configuration and naming helpers |
| template.dfy | Templates | the CloudFormation template and its resources |
| cloud.dfy | Cloud | the AWS responses and the request log |
| timers.dfy | Timers | the timer loop |
| subscriptions.dfy | Subscriptions | `_get_subscriptions` and the grouping by source context |
| messaging.dfy | Messaging | queues, queue policies, the dead-letter redrive, subscriptions |
| lambda_environment.dfy | LambdaEnvironment | `_lambda_environment` |
| retention.dfy | Retention | `_clean_up_old_artifacts` |
| reconciler.dfy | Reconciler | `_create_stack`, `_update_stack`, `_wait_for_stack`, the stack probes |
| deployment.dfy | Deployment | `_deploy_service`, `_find_or_create_topic`, packaging |
| project_stack.dfy | ProjectStack | `_create_project_stack` |
| large_payloads.dfy | LargePayloads | `StoreLargePayloadsInS3.__call__` |
| cognito_authenticator.dfy | CognitoAuthenticator | `CognitoAuthenticator.handle` |

## Model

| member | source | states |
|---|---|---|
| Strings.JoinSplit | src/firefly_aws/infrastructure/service/aws_agent.py:473 | `str.split` loses nothing: joining the pieces with the separator gives the string back |
| Strings.SplitLength | src/firefly_aws/infrastructure/service/aws_agent.py:473 | splitting gives one more piece than there are separators, so `a.b` unpacks into two names exactly when it holds one dot |
| Strings.LastSegmentIsSuffix | src/firefly_aws/application/authentication/cognito_authenticator.py:36 | `v.split(' ')[-1]` holds no space and ends `v` |
| Timers.ScheduledExactly | src/firefly_aws/infrastructure/service/aws_agent.py:226-230 | a handler is scheduled if and only if it has a timer whose environment is unset or the agent's own, so a timer is skipped exactly when its environment is set and differs |
| Timers.AddTimers | src/firefly_aws/infrastructure/service/aws_agent.py:225-254 | the loop appends exactly the timer resources of the handlers, in order, and changes no parameter or output |
| Timers.TimerResourcesArePairs | src/firefly_aws/infrastructure/service/aws_agent.py:231-254 | each scheduled handler gives a rule then a permission. The rule is named after the command, its schedule is `cron(...)`, and its one target is the async function with the `_context`/`_type`/`_name` input. The permission names that rule and that function. |
| Timers.SkippedTimerLeavesNoTrace | src/firefly_aws/infrastructure/service/aws_agent.py:229-230 | a handler whose timer belongs to another environment contributes nothing: removing it leaves the resources unchanged |
| Subscriptions.ResolveQualified | src/firefly_aws/infrastructure/service/aws_agent.py:472-476 | a string reference unpacks exactly when it holds one dot; context and name are then the two dot-free halves around it |
| Subscriptions.FlattenedOnePerReference | src/firefly_aws/infrastructure/service/aws_agent.py:467-482 | flattening succeeds exactly when every reference resolves. It then gives one subscription per reference, in order. A failure is the error of some reference. |
| Subscriptions.GetSubscriptions | src/firefly_aws/infrastructure/service/aws_agent.py:467-482 | the nested loop over listeners and their event types returns exactly the flattening of all references, stopping at the first bad one |
| Subscriptions.ErrorAbortsFlattening | src/firefly_aws/infrastructure/service/aws_agent.py:473 | once a prefix of the references fails to unpack, the whole flattening fails with that error |
| Subscriptions.GroupByContext | src/firefly_aws/infrastructure/service/aws_agent.py:309-313 | the dictionary's keys are the source contexts in first-seen order, and each list holds that context's subscriptions in order |
| Subscriptions.SourceContextsCover | src/firefly_aws/infrastructure/service/aws_agent.py:309-313 | a context is a key exactly when some subscription comes from it |
| Subscriptions.SourceContextsDistinct | src/firefly_aws/infrastructure/service/aws_agent.py:311-312 | no context is a key twice |
| Subscriptions.OfContextMembers | src/firefly_aws/infrastructure/service/aws_agent.py:313 | a group holds exactly the subscriptions from its context |
| Subscriptions.GroupsNonEmpty | src/firefly_aws/infrastructure/service/aws_agent.py:311-313 | every key's list is non-empty |
| Subscriptions.GroupsPartition | src/firefly_aws/infrastructure/service/aws_agent.py:309-313 | the group sizes add up to the number of subscriptions, so grouping neither drops nor duplicates |
| Messaging.QueuePolicyAdmitsSubscribedTopics | src/firefly_aws/infrastructure/service/aws_agent.py:315-336 | the main queue redrives to the dead-letter queue after 1000 receives. Both policies admit the same list of topic ARNs, one per source context. Every subscribed context's topic is admitted, and nothing else is. |
| Messaging.OneSubscriptionPerGroup | src/firefly_aws/infrastructure/service/aws_agent.py:351-381 | one subscription per source context, on that context's topic, delivering to the queue, with the dead-letter queue as its redrive target. The own context's subscription is titled by the context and depends on the own topic; a foreign one is titled by both contexts. Each filter names the group's events and is non-empty. Every listened event passes the filter of its context's subscription. |
| Retention.SortNewestFirstCorrect | src/firefly_aws/infrastructure/service/aws_agent.py:543 | sorting by last-modified in reverse gives a newest-first permutation of the listing |
| Retention.SortNewestFirstStable | src/firefly_aws/infrastructure/service/aws_agent.py:543 | the sort is stable: archives with the same modification time keep their listing order |
| Retention.RetentionKeepsTwoNewest | src/firefly_aws/infrastructure/service/aws_agent.py:540-545 | fewer than three archives: nothing is deleted. Otherwise all but two are deleted. Survivors and deleted archives together are the listing, and no deleted archive is newer than a survivor. |
| Retention.CleanUpOldArtifacts | src/firefly_aws/infrastructure/service/aws_agent.py:531-545 | a listing without `Contents` raises `KeyError('Contents')`; otherwise the deleted keys are those of the older archives |
| Retention.DeletedKeysAndSurvivorKeys | src/firefly_aws/infrastructure/service/aws_agent.py:538-545 | the keys deleted and the keys kept are, counted with multiplicity, exactly the listed keys: no key is lost and none is deleted twice |
| Retention.FiveArchivesKeepNewestTwo | src/firefly_aws/infrastructure/service/aws_agent.py:540-545 | of five archives, the newest two survive and the other three are deleted, newest first |
| Reconciler.WaitForStack | src/firefly_aws/infrastructure/service/aws_agent.py:767-772 | the polling loop ends where `Settle` says: at the first status that does not end in `_IN_PROGRESS`, or at the first failing poll. Every earlier poll was still in progress. |
| Reconciler.SettleStopsAtFirstSettled | src/firefly_aws/infrastructure/service/aws_agent.py:767-772 | the wait stops at the first failing or settled poll, after only in-progress polls, and the feed runs out exactly when every poll is in progress |
| Reconciler.CreateStack | src/firefly_aws/infrastructure/service/aws_agent.py:746-752 | `create_stack` comes first and then only polls. A create error propagates. Otherwise the outcome is where the wait ends: Created with the settled status, the poll's error, or still waiting. |
| Reconciler.UpdateStack | src/firefly_aws/infrastructure/service/aws_agent.py:754-765 | `update_stack` and then only polls. A settled wait reports Updated. An error from the update or from a poll saying "No updates are to be performed" means nothing to update; any other propagates. |
| Reconciler.ReconcileServiceStack | src/firefly_aws/infrastructure/service/aws_agent.py:425-434 | `describe_stacks` first. On success the stack is updated, with the update's outcome. An error from the probe, the update or an update poll that names the stack as nonexistent leads to a create, with the create's outcome; any other probe error propagates alone. |
| Reconciler.ServiceOutcomeExplained | src/firefly_aws/infrastructure/service/aws_agent.py:425-434 | a stack reported updated passed its probe and its update and settled in a poll; one reported created was found missing by the probe or the update and settled in a poll; "nothing to update" came from the update or its polls |
| Reconciler.ProjectProbeIsLooser | src/firefly_aws/infrastructure/service/aws_agent.py:547-554 | every probe error that sends a service stack to the create sends the project stack there too, with the same outcome; a bare "does not exist" error creates the project stack but is raised for a service stack |
| Reconciler.ServiceNotExistIsProjectNotExist | src/firefly_aws/infrastructure/service/aws_agent.py:431 | every service "Stack with id ... does not exist" message also passes the project stack's "does not exist" test |
| Reconciler.ReconcileProjectStack | src/firefly_aws/infrastructure/service/aws_agent.py:692-695 | the probe's verdict picks `update_stack` or `create_stack`, and the outcome is that of the update (including a quiet "No updates are to be performed") or of the create |
| LambdaEnvironment.GetUpdateWith | src/firefly_aws/infrastructure/service/aws_agent.py:786-787 | after `dict.update`, a key reads its value from the update if it has one, else the old value |
| LambdaEnvironment.UpdateWithKeys | src/firefly_aws/infrastructure/service/aws_agent.py:786-787 | `dict.update` keeps the existing keys in place and adds no duplicate |
| LambdaEnvironment.GetPut | src/firefly_aws/infrastructure/service/aws_agent.py:789-790 | item assignment changes that key only |
| LambdaEnvironment.LambdaVariables | src/firefly_aws/infrastructure/service/aws_agent.py:774-795 | each variable comes from `SLACK_ERROR_URL`, else the context's `environment`, else the seven defaults. The defaults keep the first seven places, and no name repeats. |
| Deployment.FunctionConfiguration | src/firefly_aws/infrastructure/service/aws_agent.py:133-223 | both functions share code, VPC and environment, and each has its own timeout parameter. Image code is used exactly when `image_uri` is set; otherwise the code is the archive in the bucket. A VPC is attached exactly when both id lists are non-empty. |
| Deployment.AddFunctions | src/firefly_aws/infrastructure/service/aws_agent.py:109-223 | the three parameters, the role, the sync function, its API permission (`…SyncPermission`) and the async function are appended in that order |
| Deployment.OneAlarmSubscriptionPerRecipient | src/firefly_aws/infrastructure/service/aws_agent.py:291-305 | the alert topic, then one e-mail subscription per comma-separated recipient, all under one title. Joining the endpoints with commas gives the recipients back. |
| Deployment.AddAlerts | src/firefly_aws/infrastructure/service/aws_agent.py:291-305 | appends exactly the alert resources the configuration asks for |
| Deployment.AddAlarmSubscriptions | src/firefly_aws/infrastructure/service/aws_agent.py:297-305 | the recipient loop appends one subscription per address, in order |
| Deployment.AddApi | src/firefly_aws/infrastructure/service/aws_agent.py:256-287 | appends the integration and the routes of the context |
| Deployment.AddQueues | src/firefly_aws/infrastructure/service/aws_agent.py:315-349 | appends the dead-letter queue, the queue, their policies, the event source mapping and the context's topic |
| Deployment.UploadAndPrune | src/firefly_aws/infrastructure/service/aws_agent.py:520-545 | the archive is uploaded and the prefix listed, then exactly the older archives are deleted. A listing without `Contents` stops after the two requests with `KeyError`. |
| Deployment.FindOrCreateTopic | src/firefly_aws/infrastructure/service/aws_agent.py:453-465 | the topic is looked up first; only a failed lookup creates the topic-only stack. The deployment stops exactly when that create fails or never settles. |
| Deployment.BootstrapContextsMembers | src/firefly_aws/infrastructure/service/aws_agent.py:366-368 | a topic is bootstrapped for exactly the foreign source contexts that are not in the context map |
| Deployment.FirstFailureSticks | src/firefly_aws/infrastructure/service/aws_agent.py:366-368 | the first failed topic bootstrap stops the subscription loop, whatever groups come after it |
| Deployment.BootstrapLookups | src/firefly_aws/infrastructure/service/aws_agent.py:366-368 | every bootstrapped context had its topic looked up |
| Deployment.BootstrapShape | src/firefly_aws/infrastructure/service/aws_agent.py:453-465 | bootstrapping issues only topic lookups and stack requests |
| Deployment.WireGroup | src/firefly_aws/infrastructure/service/aws_agent.py:351-381 | one group: bootstrap exactly when the source is foreign and unmapped, then append its one subscription unless that failed |
| Deployment.WireSubscriptions | src/firefly_aws/infrastructure/service/aws_agent.py:351-381 | the group loop appends one subscription per source context and bootstraps exactly the foreign unmapped ones, in order, and stops with the first failed bootstrap |
| Deployment.AddEventing | src/firefly_aws/infrastructure/service/aws_agent.py:307-381 | queues, policies, mapping, topic and subscriptions, in that order, plus a topic lookup for every bootstrapped context |
| Deployment.BuildServiceTemplate | src/firefly_aws/infrastructure/service/aws_agent.py:109-407 | an event reference that does not unpack aborts before any request. Otherwise the template's parameters, resources and outputs are exactly those of the service. |
| Deployment.DeployService | src/firefly_aws/infrastructure/service/aws_agent.py:104-434 | S3 mode uploads the archive and lists the prefix first, and a listing without `Contents` ends the deployment with the KeyError; image mode never lists or deletes and puts only the template. A failed topic bootstrap ends it with that failure. Otherwise the result is the stack reconciliation's outcome. The Lambda environment is the merged one, and on success the uploaded template is the service's whole template. |
| ProjectStack.ProjectBucketExpiresTmp | src/firefly_aws/infrastructure/service/aws_agent.py:572-578 | the project stack declares one bucket, the deployment bucket, and it expires `tmp` objects after one day |
| ProjectStack.BuildProjectTemplate | src/firefly_aws/infrastructure/service/aws_agent.py:557-677 | the two parameters, the bucket, the API with its function, route and stages, and the API reference output |
| ProjectStack.DeployProjectStack | src/firefly_aws/infrastructure/service/aws_agent.py:547-695 | probe first: an unexpected probe error stops everything. Otherwise the template is uploaded, then the stack is updated if the probe succeeded or created if it said "does not exist", and the result is that update's or create's outcome. |
| LargePayloads.OffloadKeyRoundTrip | src/firefly_aws/domain/service/store_large_payloads_in_s3.py:20 | the uuid can be read back out of the key |
| LargePayloads.OffloadKeyInjective | src/firefly_aws/domain/service/store_large_payloads_in_s3.py:20 | distinct uuids give distinct keys, so offloaded payloads never overwrite each other |
| LargePayloads.StoreLargePayload | src/firefly_aws/domain/service/store_large_payloads_in_s3.py:19-34 | up to 64,000 characters the payload passes unchanged, with no request. Beyond that it is put under its `tmp/` key and the caller gets the serialized envelope naming that key. |
| LargePayloads.OffloadedPayloadsExpire | src/firefly_aws/domain/service/store_large_payloads_in_s3.py:20 | offload keys lie under the prefix the project bucket expires after one day |
| CognitoAuthenticator.LastTokenIsLastAuthorization | src/firefly_aws/application/authentication/cognito_authenticator.py:32-36 | the kept token is that of the last `Authorization` header, whatever its case; there is none exactly when no such header exists |
| CognitoAuthenticator.TokenEndsValue | src/firefly_aws/application/authentication/cognito_authenticator.py:36 | the token holds no space and ends the header value |
| Strings.LowerIgnoresCase | src/firefly_aws/application/authentication/cognito_authenticator.py:33-34 | lowering makes strings that differ only in ASCII letter case equal, so `Authorization`, `AUTHORIZATION` and `authorization` are the same header |
| Strings.LowerIdempotent | src/firefly_aws/application/authentication/cognito_authenticator.py:33-34 | lowering an already lowered string changes nothing |
| CognitoAuthenticator.FindToken | src/firefly_aws/application/authentication/cognito_authenticator.py:31-38 | the header loop refuses exactly when some `Authorization` value does not start with `bearer`; otherwise it keeps the last token |
| CognitoAuthenticator.WithScopesKeepsClaims | src/firefly_aws/application/authentication/cognito_authenticator.py:42-45 | `scopes` is added only when `scope` is present, and every other claim is kept. Joining the scopes with spaces gives `scope` back. A non-text `scope` is an error. |
| CognitoAuthenticator.Handle | src/firefly_aws/application/authentication/cognito_authenticator.py:29-50 | an unsecured or non-HTTP message returns `secured is not True` and is left untouched. A bearer violation or a missing token refuses. Otherwise the decoded claims, with scopes, are recorded and the message is admitted, unless a claim lookup fails. |

## Left out

- Packaging (`_package_and_deploy_code` up to the upload) runs pip, zip and filesystem steps. It is reduced to the upload of one `CodeArchive` object.
- The pre- and post-deployment hooks are foreign callbacks, and `_migrate_schema` calls into the storage layer. Neither is modelled.
- These resources are kept as titled records only, with their properties dropped: the IAM role and its policy document (`_add_role`), the sync function's API permission, the HTTP integration, routes and stages, the event source mapping, the DynamoDB table (its `pk`/`sk` keys, on-demand billing and TTL attribute), and the project's API, role, inline-code function and deployments. Their properties are constants with no logic.
- Template rendering (`to_json`) is not modelled. The uploaded body is the template's parameter, resource and output lists.
- `Agent.__call__` is not modelled. It reads the configuration, builds the timestamped code and template keys, and raises a missing-bucket error. The model takes its results as inputs.
- The naming helpers (`_stack_name`, `_queue_name` and so on) belong to a mixin that is not part of this model. They are uninterpreted functions of the configuration.
- `sleep(5)` and logging are left out, and so are the `print` calls of the payload store.
- Reconciler.WaitForStack: the source polls forever while a stack stays in progress. The model reads a finite list of poll responses. Running out of them is reported as `StillWaiting`, and by the deployment as `NeverSettles`.
- Deployment.FindOrCreateTopic: the source passes a template object where CloudFormation expects a URL. The model records it as an inline template and does not say what CloudFormation does with it.
- `context_name not in self._context_map.contexts` is modelled as membership of the name in the set of mapped context names.
- Strings.Lower: only ASCII letters are lowered. Unicode case mapping is not modelled.
- Settings.Config: the configuration is typed as well-formed. A malformed `errors` section raises in the source (aws_agent.py:297-298): a null `errors` is a TypeError at `'email' in None`, and a null `email` or a missing `recipients` is an AttributeError. This is not modelled.
- CognitoAuthenticator.Handle: the JWT decoder is a parameter, and its own errors are not modelled. So is a request without a `headers` entry (a KeyError). The `secured` header is reduced to four cases: unset, `True`, another truthy value and a falsy one.
- LargePayloads.StoreLargePayload: the uuid and the serializer are parameters. Payload length counts characters, as Python's `len` on `str` does.
- LambdaEnvironment.LambdaVariables: the process environment's `SLACK_ERROR_URL` is a configuration value.
- The duplicate titles of the e-mail alarm subscriptions (one title per context) are kept as written. CloudFormation's rejection of duplicate logical ids is not modelled.
