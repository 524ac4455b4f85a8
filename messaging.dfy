/**
 * The queue side of a context's topology: the dead-letter queue and the
 * main queue, each with a policy admitting the topics the context subscribes
 * to, and one SNS subscription per source-context group.
 */
module Messaging {
  import opened Wrappers
  import opened Templates
  import opened Settings
  import opened Subscriptions

  const VisibilityTimeout: nat := 905
  const ReceiveMessageWaitTimeSeconds: nat := 20
  const MessageRetentionPeriod: nat := 1209600
  const MaxReceiveCount: nat := 1000

  function QueueTitle(names: Names, contextName: string): string
  {
    names.queueName(contextName)
  }

  function DlqTitle(names: Names, contextName: string): string
  {
    names.queueName(contextName) + "Dlq"
  }

  /** `aws:SourceArn` of a queue policy: one topic ARN per group key, in key order. */
  function SourceArns(names: Names, keys: seq<string>): seq<string>
  {
    seq(|keys|, i requires 0 <= i < |keys| => names.topicArn(keys[i]))
  }

  /** `_queue_policy`: `sqs:SendMessage` to the queue from the subscribed topics only. */
  function QueuePolicyFor(names: Names, queueTitle: string, keys: seq<string>): Resource
  {
    QueuePolicy(queueTitle + "Policy", queueTitle, SourceArns(names, keys))
  }

  /** The dead-letter queue, its policy, the main queue redriving to it, and the main queue's policy. */
  function QueueResources(names: Names, contextName: string, keys: seq<string>): seq<Resource>
  {
    var dlq := DlqTitle(names, contextName);
    var queue := QueueTitle(names, contextName);
    [ Queue(dlq, dlq, VisibilityTimeout, ReceiveMessageWaitTimeSeconds, MessageRetentionPeriod, None, []),
      QueuePolicyFor(names, dlq, keys),
      Queue(queue, queue, VisibilityTimeout, ReceiveMessageWaitTimeSeconds, MessageRetentionPeriod,
            Some(Redrive(dlq, MaxReceiveCount)), [dlq]),
      QueuePolicyFor(names, queue, keys) ]
  }

  /**
   * The queue pair: the main queue redrives to the dead-letter queue after
   * 1000 receives; both policies admit exactly the topics of the contexts the
   * entries come from, one ARN per source context, none when there are no
   * subscriptions.
   */
  lemma QueuePolicyAdmitsSubscribedTopics(names: Names, contextName: string, subs: seq<Subscription>)
    ensures var rs := QueueResources(names, contextName, SourceContexts(subs));
            && rs[2].Queue? && rs[2].redrive == Some(Redrive(rs[0].title, 1000)) && rs[0].redrive.None?
            && rs[1].queueTitle == rs[0].title && rs[3].queueTitle == rs[2].title
            && rs[1].sourceArns == rs[3].sourceArns
            && |rs[1].sourceArns| == |SourceContexts(subs)|
            && (subs == [] ==> rs[1].sourceArns == [])
            && (forall s :: s in subs ==> names.topicArn(s.context) in rs[1].sourceArns)
            && (forall a :: a in rs[1].sourceArns ==> exists s :: s in subs && a == names.topicArn(s.context))
  {
    var keys := SourceContexts(subs);
    var arns := SourceArns(names, keys);
    forall s | s in subs ensures names.topicArn(s.context) in arns {
      var k :| 0 <= k < |subs| && subs[k] == s;
      SourceContextsCover(subs, s.context);
      var i :| 0 <= i < |keys| && keys[i] == s.context;
      assert arns[i] == names.topicArn(s.context);
    }
    forall a | a in arns ensures exists s :: s in subs && a == names.topicArn(s.context) {
      var i :| 0 <= i < |arns| && arns[i] == a;
      SourceContextsCover(subs, keys[i]);
      var k :| 0 <= k < |subs| && subs[k].context == keys[i];
      assert subs[k] in subs;
    }
  }

  /** The FilterPolicy `_name` list: the group's event names, in order. */
  function EventNames(entries: seq<Subscription>): seq<string>
  {
    seq(|entries|, i requires 0 <= i < |entries| => entries[i].name)
  }

  /**
   * The subscription for one group: from the context's own topic (depending
   * on that topic) when the source is the context itself, otherwise from the
   * source context's topic.
   */
  function SubscriptionFor(names: Names, contextName: string, source: string, entries: seq<Subscription>): Resource
  {
    var queue := QueueTitle(names, contextName);
    var dlq := DlqTitle(names, contextName);
    if source == contextName then
      Resource.Subscription(names.subscriptionName(source), queue, names.topicArn(contextName), EventNames(entries), dlq,
                   [queue, dlq, names.topicName(contextName)])
    else
      Resource.Subscription(names.crossSubscriptionName(contextName, source), queue, names.topicArn(source), EventNames(entries), dlq,
                   [queue, dlq])
  }

  /** The subscriptions of the groups `keys` of `subs`, in key order. */
  function GroupSubscriptions(names: Names, contextName: string, subs: seq<Subscription>, keys: seq<string>): seq<Resource>
  {
    if |keys| == 0 then []
    else
      var source := keys[|keys| - 1];
      GroupSubscriptions(names, contextName, subs, keys[..|keys| - 1])
      + [SubscriptionFor(names, contextName, source, OfContext(subs, source))]
  }

  lemma {:induction false} GroupSubscriptionsAt(names: Names, contextName: string, subs: seq<Subscription>, keys: seq<string>)
    ensures var rs := GroupSubscriptions(names, contextName, subs, keys);
            |rs| == |keys|
            && forall i :: 0 <= i < |keys| ==> rs[i] == SubscriptionFor(names, contextName, keys[i], OfContext(subs, keys[i]))
  {
    if |keys| > 0 {
      GroupSubscriptionsAt(names, contextName, subs, keys[..|keys| - 1]);
    }
  }

  /** One subscription per group, in group order. */
  function SubscriptionResources(names: Names, contextName: string, subs: seq<Subscription>): seq<Resource>
  {
    GroupSubscriptions(names, contextName, subs, SourceContexts(subs))
  }

  /**
   * Each group yields exactly one subscription to its source context's topic,
   * delivering into the context's queue with the dead-letter queue as
   * redrive target, whose filter lists that group's event names in order and
   * is never empty; only the context's own group depends on its own topic.
   * Every entry's event name is admitted by the subscription of its source.
   */
  lemma OneSubscriptionPerGroup(names: Names, contextName: string, subs: seq<Subscription>)
    ensures var keys := SourceContexts(subs);
            var rs := SubscriptionResources(names, contextName, subs);
            |rs| == |keys|
            && (forall i :: 0 <= i < |keys| ==>
                  && rs[i].Subscription?
                  && rs[i].title == (if keys[i] == contextName then names.subscriptionName(contextName)
                                     else names.crossSubscriptionName(contextName, keys[i]))
                  && rs[i].topicArn == names.topicArn(keys[i])
                  && rs[i].queueTitle == QueueTitle(names, contextName)
                  && rs[i].deadLetterTarget == DlqTitle(names, contextName)
                  && rs[i].filterNames == EventNames(OfContext(subs, keys[i]))
                  && |rs[i].filterNames| > 0
                  && (keys[i] == contextName ==> names.topicName(contextName) in rs[i].dependsOn)
                  && (keys[i] != contextName ==> rs[i].dependsOn == [QueueTitle(names, contextName), DlqTitle(names, contextName)]))
            && (forall s :: s in subs ==> exists i :: 0 <= i < |keys| && keys[i] == s.context && s.name in rs[i].filterNames)
  {
    var keys := SourceContexts(subs);
    var rs := SubscriptionResources(names, contextName, subs);
    GroupSubscriptionsAt(names, contextName, subs, keys);
    forall i | 0 <= i < |keys| ensures |rs[i].filterNames| > 0 {
      GroupsNonEmpty(subs, keys[i]);
    }
    forall s | s in subs ensures exists i :: 0 <= i < |keys| && keys[i] == s.context && s.name in rs[i].filterNames {
      SourceContextsCover(subs, s.context);
      var i :| 0 <= i < |keys| && keys[i] == s.context;
      OfContextMembers(subs, s.context);
      var entries := OfContext(subs, s.context);
      var k :| 0 <= k < |entries| && entries[k] == s;
      assert rs[i].filterNames[k] == s.name;
    }
  }
}
