/**
 * Create-or-update reconciliation of one CloudFormation stack, and the wait
 * for the stack to leave its `_IN_PROGRESS` state. Errors are recognised,
 * as in the agent, by the text of the ClientError.
 */
module Reconciler {
  import opened Wrappers
  import opened Strings
  import opened Cloud

  const InProgressSuffix := "_IN_PROGRESS"
  const NoUpdatesText := "No updates are to be performed"
  /** The looser text the project-stack probe looks for. */
  const NotExistText := "does not exist"

  /** The text a service-stack probe or update error must contain for the stack to be created. */
  function StackNotExistText(stackName: string): string
  {
    "Stack with id " + stackName + " " + NotExistText
  }

  predicate InProgress(status: string)
  {
    EndsWith(status, InProgressSuffix)
  }

  /** A poll that keeps the wait loop going. */
  predicate StillRunning(p: Poll)
  {
    p.Status? && InProgress(p.status)
  }

  /**
   * How a wait ended: at a settled status, with an error raised by a poll
   * (both after `polls` polls), or with the finite poll feed exhausted while
   * the stack was still in progress (the agent would keep polling).
   */
  datatype WaitResult = Reached(status: string, polls: nat) | PollFailed(error: ClientError, polls: nat) | FeedExhausted

  /** How a reconciliation ended. */
  datatype Action = Created(status: string) | Updated(status: string) | NothingToUpdate
  datatype Outcome = Done(action: Action) | Raised(error: ClientError) | StillWaiting

  /** A CloudFormation request. */
  predicate StackCall(c: Call)
  {
    c.DescribeStacks? || c.CreateStack? || c.UpdateStack?
  }

  /** `n` `describe_stacks` requests for the stack. */
  function Polls(stackName: string, n: nat): (calls: seq<Call>)
    ensures |calls| == n && forall c :: c in calls ==> c == DescribeStacks(stackName)
  {
    seq(n, i => DescribeStacks(stackName))
  }

  /**
   * Where a wait that has already seen `i` in-progress polls ends: at the
   * first later poll that fails or reports a settled status, or nowhere
   * when the feed runs out first.
   */
  function SettleFrom(polls: seq<Poll>, i: nat): (w: WaitResult)
    requires i <= |polls|
    ensures !w.FeedExhausted? ==> i < w.polls <= |polls|
    decreases |polls| - i
  {
    if i == |polls| then FeedExhausted
    else match polls[i]
      case PollError(e) => PollFailed(e, i + 1)
      case Status(status) => if InProgress(status) then SettleFrom(polls, i + 1) else Reached(status, i + 1)
  }

  /** Where the wait ends for a given poll feed. */
  function Settle(polls: seq<Poll>): WaitResult
  {
    SettleFrom(polls, 0)
  }

  /**
   * The wait stops at the first poll that either fails or reports a status
   * not ending in `_IN_PROGRESS`; every poll before it was still in
   * progress, and only a feed of in-progress polls is exhausted.
   */
  lemma {:induction false} SettleStopsAtFirstSettled(polls: seq<Poll>, i: nat)
    requires i <= |polls|
    ensures var w := SettleFrom(polls, i);
            && (w.Reached? ==> polls[w.polls - 1] == Status(w.status) && !InProgress(w.status))
            && (w.PollFailed? ==> polls[w.polls - 1] == PollError(w.error))
            && (!w.FeedExhausted? ==> forall j :: i <= j < w.polls - 1 ==> StillRunning(polls[j]))
            && (w.FeedExhausted? <==> forall j :: i <= j < |polls| ==> StillRunning(polls[j]))
    decreases |polls| - i
  {
    if i < |polls| && StillRunning(polls[i]) {
      SettleStopsAtFirstSettled(polls, i + 1);
    }
  }

  /** `_wait_for_stack`: poll until the status no longer ends in `_IN_PROGRESS`. */
  method WaitForStack(polls: seq<Poll>) returns (w: WaitResult)
    ensures w == Settle(polls)
    ensures w.Reached? ==> 1 <= w.polls <= |polls| && polls[w.polls - 1] == Status(w.status) && !InProgress(w.status)
    ensures w.PollFailed? ==> 1 <= w.polls <= |polls| && polls[w.polls - 1] == PollError(w.error)
    ensures !w.FeedExhausted? ==> forall j :: 0 <= j < w.polls - 1 ==> StillRunning(polls[j])
    ensures w.FeedExhausted? ==> forall j :: 0 <= j < |polls| ==> StillRunning(polls[j])
  {
    var i := 0;
    while i < |polls|
      invariant 0 <= i <= |polls|
      invariant forall j :: 0 <= j < i ==> StillRunning(polls[j])
      invariant SettleFrom(polls, i) == Settle(polls)
    {
      match polls[i]
      case PollError(e) =>
        return PollFailed(e, i + 1);
      case Status(status) =>
        if !InProgress(status) {
          return Reached(status, i + 1);
        }
      i := i + 1;
    }
    return FeedExhausted;
  }

  /** The number of polls a wait consumed. */
  function Consumed(w: WaitResult, polls: seq<Poll>): nat
  {
    if w.FeedExhausted? then |polls| else w.polls
  }

  /** What `_create_stack` ends with: the create's error, or where the wait after it ends. */
  function CreateOutcome(create: Option<ClientError>, polls: seq<Poll>): Outcome
  {
    if create.Some? then Raised(create.value)
    else match Settle(polls)
      case Reached(status, _) => Done(Created(status))
      case PollFailed(e, _) => Raised(e)
      case FeedExhausted => StillWaiting
  }

  /** `_update_stack`'s `except`: "No updates are to be performed" returns quietly, anything else is re-raised. */
  function UpdateFailure(e: ClientError): Outcome
  {
    if Contains(e.message, NoUpdatesText) then Done(NothingToUpdate) else Raised(e)
  }

  /** What `_update_stack` ends with; an error from a poll goes through the same `except` as the update's own. */
  function UpdateOutcome(update: Option<ClientError>, polls: seq<Poll>): Outcome
  {
    if update.Some? then UpdateFailure(update.value)
    else match Settle(polls)
      case Reached(status, _) => Done(Updated(status))
      case PollFailed(e, _) => UpdateFailure(e)
      case FeedExhausted => StillWaiting
  }

  /** The polls `_update_stack` consumes; a create that follows it reads the rest. */
  function UpdateUsed(update: Option<ClientError>, polls: seq<Poll>): (used: nat)
    ensures used <= |polls|
  {
    if update.Some? then 0 else Consumed(Settle(polls), polls)
  }

  /**
   * The service-stack reconciliation: the probe's error, if it does not
   * name the stack as missing, propagates; otherwise the stack is created.
   * After a successful probe the stack is updated, and an update (or update
   * poll) error that names the stack as missing falls through to the create.
   */
  function ServiceOutcome(stackName: string, r: StackResponses): Outcome
  {
    if r.describe.Some? then
      if Contains(r.describe.value.message, StackNotExistText(stackName)) then CreateOutcome(r.create, r.polls)
      else Raised(r.describe.value)
    else
      var u := UpdateOutcome(r.update, r.polls);
      if u.Raised? && Contains(u.error.message, StackNotExistText(stackName)) then
        CreateOutcome(r.create, r.polls[UpdateUsed(r.update, r.polls)..])
      else u
  }

  /** The project-stack reconciliation: the probe's verdict picks the update or the create. */
  function ProjectOutcome(r: StackResponses): Outcome
  {
    match ProbeProjectStack(r.describe)
    case Err(e) => Raised(e)
    case Ok(update) => if update then UpdateOutcome(r.update, r.polls) else CreateOutcome(r.create, r.polls)
  }

  /** `_create_stack`: issue the create, then wait; a create error propagates. */
  method CreateStack(stackName: string, template: TemplateRef, create: Option<ClientError>, polls: seq<Poll>)
    returns (o: Outcome, calls: seq<Call>)
    ensures |calls| >= 1 && calls[0] == Call.CreateStack(stackName, template, Capabilities)
    ensures create.Some? ==> o == Raised(create.value) && calls == [calls[0]]
    ensures o == CreateOutcome(create, polls)
    ensures create.None? ==> calls == [calls[0]] + Polls(stackName, Consumed(Settle(polls), polls))
    ensures o.Done? ==> o.action.Created? && !InProgress(o.action.status)
    ensures o.Done? ==> Status(o.action.status) in polls
    ensures o.Raised? ==> create == Some(o.error) || PollError(o.error) in polls
  {
    calls := [Call.CreateStack(stackName, template, Capabilities)];
    if create.Some? {
      return Raised(create.value), calls;
    }
    var w := WaitForStack(polls);
    calls := calls + Polls(stackName, Consumed(w, polls));
    match w
    case Reached(status, _) => o := Done(Created(status));
    case PollFailed(e, _) => o := Raised(e);
    case FeedExhausted => o := StillWaiting;
  }

  /**
   * `_update_stack`: issue the update, then wait. Its `try` covers the wait
   * as well, so any error, from the update or from a poll, whose text says
   * there is nothing to update ends the update quietly; any other propagates.
   * `used` is the number of polls consumed.
   */
  method UpdateStack(stackName: string, template: TemplateRef, update: Option<ClientError>, polls: seq<Poll>)
    returns (o: Outcome, calls: seq<Call>, used: nat)
    ensures o == UpdateOutcome(update, polls) && used == UpdateUsed(update, polls)
    ensures calls == [Call.UpdateStack(stackName, template, Capabilities)] + Polls(stackName, used)
    ensures update.Some? ==> used == 0
    ensures update.Some? && Contains(update.value.message, NoUpdatesText) ==> o == Done(NothingToUpdate)
    ensures update.Some? && !Contains(update.value.message, NoUpdatesText) ==> o == Raised(update.value)
    ensures o.Raised? ==> !Contains(o.error.message, NoUpdatesText)
    ensures o.Raised? ==> update == Some(o.error) || PollError(o.error) in polls
    ensures o.Done? && o.action.Updated? ==> !InProgress(o.action.status) && Status(o.action.status) in polls
    ensures !o.Done? || o.action.Updated? || o.action.NothingToUpdate?
  {
    calls := [Call.UpdateStack(stackName, template, Capabilities)];
    var failure: Option<ClientError> := None;
    used := 0;
    if update.Some? {
      failure := update;
    } else {
      var w := WaitForStack(polls);
      used := Consumed(w, polls);
      calls := calls + Polls(stackName, used);
      match w
      case Reached(status, _) => return Done(Updated(status)), calls, used;
      case PollFailed(e, _) => failure := Some(e);
      case FeedExhausted => return StillWaiting, calls, used;
    }
    if Contains(failure.value.message, NoUpdatesText) {
      o := Done(NothingToUpdate);
    } else {
      o := Raised(failure.value);
    }
  }

  /**
   * The service-stack reconciliation: probe, then update; an error from the
   * probe or from the update whose text names this stack as not existing
   * leads to a create; any other error propagates.
   */
  method ReconcileServiceStack(stackName: string, template: TemplateRef, r: StackResponses)
    returns (o: Outcome, calls: seq<Call>)
    ensures o == ServiceOutcome(stackName, r)
    ensures |calls| >= 1 && calls[0] == DescribeStacks(stackName)
    ensures |calls| == 1 <==> r.describe.Some? && !Contains(r.describe.value.message, StackNotExistText(stackName))
    ensures r.describe.None? ==> calls[1] == Call.UpdateStack(stackName, template, Capabilities)
    ensures (r.describe.Some? && !Contains(r.describe.value.message, StackNotExistText(stackName)))
              ==> o == Raised(r.describe.value) && calls == [DescribeStacks(stackName)]
    ensures (r.describe.Some? && Contains(r.describe.value.message, StackNotExistText(stackName)))
              ==> calls[1] == Call.CreateStack(stackName, template, Capabilities)
    ensures (r.describe.None? && r.update.Some? && Contains(r.update.value.message, NoUpdatesText))
              ==> o == Done(NothingToUpdate) && calls == [DescribeStacks(stackName), Call.UpdateStack(stackName, template, Capabilities)]
    ensures (r.describe.None? && r.update.Some? && !Contains(r.update.value.message, NoUpdatesText)
              && Contains(r.update.value.message, StackNotExistText(stackName)))
              ==> |calls| >= 3 && calls[2] == Call.CreateStack(stackName, template, Capabilities)
    ensures o.Done? && o.action.Created? ==> Call.CreateStack(stackName, template, Capabilities) in calls
    ensures (Call.CreateStack(stackName, template, Capabilities) in calls)
              ==> (r.describe.Some? && Contains(r.describe.value.message, StackNotExistText(stackName)))
                  || (r.describe.None? && UpdateRaisedNotExist(stackName, r))
    ensures (r.describe.None? && UpdateOutcome(r.update, r.polls).Raised?
             && Contains(UpdateOutcome(r.update, r.polls).error.message, StackNotExistText(stackName)))
              ==> Call.CreateStack(stackName, template, Capabilities) in calls
    ensures forall c :: c in calls ==> StackCall(c)
  {
    calls := [DescribeStacks(stackName)];
    var failure: ClientError;
    var remaining := r.polls;
    if r.describe.None? {
      var uo, ucalls, used := UpdateStack(stackName, template, r.update, r.polls);
      calls := calls + ucalls;
      if !uo.Raised? {
        return uo, calls;
      }
      failure := uo.error;
      remaining := r.polls[used..];
    } else {
      failure := r.describe.value;
    }
    if Contains(failure.message, StackNotExistText(stackName)) {
      var co, ccalls := CreateStack(stackName, template, r.create, remaining);
      o, calls := co, calls + ccalls;
    } else {
      o := Raised(failure);
    }
  }

  /**
   * The update of an existing stack raised (from the update request or a
   * poll) an error that says the stack does not exist and is not the
   * nothing-to-update error.
   */
  ghost predicate UpdateRaisedNotExist(stackName: string, r: StackResponses)
  {
    exists e: ClientError ::
      (r.update == Some(e) || PollError(e) in r.polls)
      && !Contains(e.message, NoUpdatesText) && Contains(e.message, StackNotExistText(stackName))
  }

  /**
   * The project-stack probe: True (update) when the stack exists, False
   * (create) on any error mentioning "does not exist"; other errors propagate.
   */
  function ProbeProjectStack(describe: Option<ClientError>): (r: Result<bool, ClientError>)
    ensures r.Ok? ==> (r.value <==> describe.None?)
    ensures r.Err? ==> Some(r.error) == describe && !Contains(r.error.message, NotExistText)
  {
    match describe
    case None => Ok(true)
    case Some(e) => if Contains(e.message, NotExistText) then Ok(false) else Err(e)
  }

  /** Every error the service-stack probe treats as "create" is also "create" to the project-stack probe. */
  lemma ServiceNotExistIsProjectNotExist(stackName: string, message: string)
    requires Contains(message, StackNotExistText(stackName))
    ensures Contains(message, NotExistText)
  {
    ContainsSuffix(StackNotExistText(stackName), "Stack with id " + stackName + " ", NotExistText);
    ContainsTransitive(message, StackNotExistText(stackName), NotExistText);
  }

  /**
   * The project-stack probe is looser than the service-stack one: a probe
   * error that sends a service stack to the create sends the project stack
   * there too, with the same outcome; a bare "does not exist" error creates
   * the project stack but is raised for a service stack.
   */
  lemma ProjectProbeIsLooser(stackName: string, r: StackResponses)
    ensures r.describe.Some? && Contains(r.describe.value.message, StackNotExistText(stackName)) ==>
              ProbeProjectStack(r.describe) == Ok(false) && ServiceOutcome(stackName, r) == ProjectOutcome(r)
    ensures r.describe == Some(ClientError(NotExistText)) ==>
              && ProjectOutcome(r) == CreateOutcome(r.create, r.polls)
              && ServiceOutcome(stackName, r) == Raised(ClientError(NotExistText))
  {
    if r.describe.Some? && Contains(r.describe.value.message, StackNotExistText(stackName)) {
      ServiceNotExistIsProjectNotExist(stackName, r.describe.value.message);
    }
    if r.describe == Some(ClientError(NotExistText)) {
      BareNotExist(stackName);
    }
  }

  /** "does not exist" alone passes the project-stack test and fails the service-stack one. */
  lemma BareNotExist(stackName: string)
    ensures Contains(NotExistText, NotExistText)
    ensures !Contains(NotExistText, StackNotExistText(stackName))
  {
    assert StartsWith(NotExistText, NotExistText);
    assert |StackNotExistText(stackName)| > |NotExistText|;
    NotContainsLonger(NotExistText, StackNotExistText(stackName));
  }

  /** A settled status or a failing poll the wait stops at is one of the polls. */
  lemma SettleSeen(polls: seq<Poll>)
    ensures Settle(polls).Reached? ==> Status(Settle(polls).status) in polls && !InProgress(Settle(polls).status)
    ensures Settle(polls).PollFailed? ==> PollError(Settle(polls).error) in polls
  {
    SettleStopsAtFirstSettled(polls, 0);
  }

  lemma SuffixMember(polls: seq<Poll>, k: nat, p: Poll)
    requires k <= |polls| && p in polls[k..]
    ensures p in polls
  {
    var j :| 0 <= j < |polls[k..]| && polls[k..][j] == p;
    assert polls[k + j] == p;
  }

  /**
   * What a service-stack reconciliation's outcome says about the control
   * plane's answers: a stack reported updated passed its probe and its
   * update and settled in a poll; one reported created was missing (by the
   * probe or by the update) and settled in a poll; "nothing to update" was
   * said by the update or one of its polls.
   */
  lemma {:induction false} ServiceOutcomeExplained(stackName: string, r: StackResponses)
    ensures var o := ServiceOutcome(stackName, r);
            && (o.Done? && o.action.Updated? ==>
                  r.describe.None? && r.update.None? && Status(o.action.status) in r.polls && !InProgress(o.action.status))
            && (o.Done? && o.action.Created? ==>
                  && r.create.None? && Status(o.action.status) in r.polls && !InProgress(o.action.status)
                  && ((r.describe.Some? && Contains(r.describe.value.message, StackNotExistText(stackName)))
                      || (r.describe.None? && UpdateRaisedNotExist(stackName, r))))
            && (o == Done(NothingToUpdate) ==>
                  r.describe.None? && exists e :: (r.update == Some(e) || PollError(e) in r.polls) && Contains(e.message, NoUpdatesText))
  {
    var o := ServiceOutcome(stackName, r);
    SettleSeen(r.polls);
    if r.describe.None? {
      var u := UpdateOutcome(r.update, r.polls);
      var used := UpdateUsed(r.update, r.polls);
      if u.Raised? && Contains(u.error.message, StackNotExistText(stackName)) {
        var rest := r.polls[used..];
        SettleSeen(rest);
        if Settle(rest).Reached? {
          SuffixMember(r.polls, used, Status(Settle(rest).status));
        }
        assert r.update == Some(u.error) || PollError(u.error) in r.polls;
      } else if u == Done(NothingToUpdate) {
        var e := if r.update.Some? then r.update.value else Settle(r.polls).error;
        assert (r.update == Some(e) || PollError(e) in r.polls) && Contains(e.message, NoUpdatesText);
      }
    }
  }

  /** The project stack after the probe: update when it exists, otherwise create. */
  method ReconcileProjectStack(stackName: string, template: TemplateRef, update: bool, r: StackResponses)
    returns (o: Outcome, calls: seq<Call>)
    ensures |calls| >= 1
    ensures update ==> calls[0] == Call.UpdateStack(stackName, template, Capabilities)
    ensures !update ==> calls[0] == Call.CreateStack(stackName, template, Capabilities)
    ensures update ==> o == UpdateOutcome(r.update, r.polls) && (!o.Done? || !o.action.Created?)
    ensures !update ==> o == CreateOutcome(r.create, r.polls) && (!o.Done? || o.action.Created?)
    ensures forall c :: c in calls ==> StackCall(c)
  {
    if update {
      var used;
      o, calls, used := UpdateStack(stackName, template, r.update, r.polls);
    } else {
      o, calls := CreateStack(stackName, template, r.create, r.polls);
    }
  }
}
