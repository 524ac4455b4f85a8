/**
 * Scheduled triggers: each command handler whose timer is not restricted to
 * another environment gets an EventBridge rule targeting the service's
 * asynchronous function, and a permission letting that rule invoke it.
 */
module Timers {
  import opened Wrappers
  import opened Templates
  import opened Settings
  import opened Domain

  /** A timer declared for another environment than the one being deployed. */
  predicate Skipped(t: Timer, env: string)
  {
    t.environment.Some? && t.environment.value != env
  }

  /** The command string itself, or the command class's `__name__`. */
  function TimerName(c: CommandRef): string
  {
    match c
    case CommandString(command) => command
    case CommandClass(className) => className
  }

  /** The JSON message the rule sends: the context, type `command` and the handler class. */
  function TimerInput(contextName: string, handlerClass: string): string
  {
    "{\"_context\": \"" + contextName + "\", \"_type\": \"command\", \"_name\": \"" + handlerClass + "\"}"
  }

  /** The logical title of the service's asynchronous function. */
  function AsyncTitle(names: Names, serviceName: string): string
  {
    names.lambdaResourceName(serviceName) + "Async"
  }

  function TimerRule(names: Names, contextName: string, serviceName: string, handlerClass: string, t: Timer): Resource
  {
    Rule(TimerName(t.command) + "TimerRule", "cron(" + t.cron + ")", "ENABLED",
         [Target(names.serviceName(serviceName) + "AsyncTarget", AsyncTitle(names, serviceName),
                 AsyncTitle(names, serviceName), TimerInput(contextName, handlerClass))])
  }

  function TimerRulePermission(names: Names, serviceName: string, t: Timer): Resource
  {
    TimerPermission(TimerName(t.command) + "TimerPermission", "lambda:invokeFunction", "events.amazonaws.com",
                    AsyncTitle(names, serviceName), TimerName(t.command) + "TimerRule")
  }

  /** What one handler contributes: nothing, or its rule followed by its permission. */
  function HandlerTimerResources(names: Names, env: string, contextName: string, serviceName: string,
                                 h: CommandHandler): seq<Resource>
  {
    if h.timer.None? || Skipped(h.timer.value, env) then []
    else [TimerRule(names, contextName, serviceName, h.className, h.timer.value),
          TimerRulePermission(names, serviceName, h.timer.value)]
  }

  /** The resources the timer loop adds, handler by handler, in order. */
  function TimerResources(names: Names, env: string, contextName: string, serviceName: string,
                          handlers: seq<CommandHandler>): seq<Resource>
    decreases |handlers|
  {
    if |handlers| == 0 then []
    else TimerResources(names, env, contextName, serviceName, handlers[..|handlers| - 1])
         + HandlerTimerResources(names, env, contextName, serviceName, handlers[|handlers| - 1])
  }

  /** The handlers whose timer is scheduled in `env`, in order. */
  function Scheduled(handlers: seq<CommandHandler>, env: string): (s: seq<CommandHandler>)
    ensures forall j :: 0 <= j < |s| ==> s[j].timer.Some? && !Skipped(s[j].timer.value, env)
    decreases |handlers|
  {
    if |handlers| == 0 then []
    else
      var last := handlers[|handlers| - 1];
      Scheduled(handlers[..|handlers| - 1], env)
      + (if last.timer.Some? && !Skipped(last.timer.value, env) then [last] else [])
  }

  /**
   * A handler's timer is scheduled exactly when the handler has a timer
   * whose environment is unset or the one being deployed.
   */
  lemma {:induction false} ScheduledExactly(handlers: seq<CommandHandler>, env: string)
    ensures forall h :: h in Scheduled(handlers, env) <==> h in handlers && h.timer.Some? && !Skipped(h.timer.value, env)
    ensures |Scheduled(handlers, env)| <= |handlers|
    decreases |handlers|
  {
    if |handlers| > 0 {
      ScheduledExactly(handlers[..|handlers| - 1], env);
      assert handlers == handlers[..|handlers| - 1] + [handlers[|handlers| - 1]];
    }
  }

  /** The timer loop of the service deployment. */
  method AddTimers(template: Template, names: Names, env: string, contextName: string, serviceName: string,
                   handlers: seq<CommandHandler>)
    modifies template
    ensures template.resources == old(template.resources) + TimerResources(names, env, contextName, serviceName, handlers)
    ensures template.parameters == old(template.parameters) && template.outputs == old(template.outputs)
  {
    for i := 0 to |handlers|
      invariant template.resources == old(template.resources) + TimerResources(names, env, contextName, serviceName, handlers[..i])
      invariant template.parameters == old(template.parameters) && template.outputs == old(template.outputs)
    {
      assert handlers[..i + 1][..i] == handlers[..i];
      var cls := handlers[i];
      if cls.timer.Some? {
        var timer := cls.timer.value;
        if timer.environment.Some? && timer.environment.value != env {
          continue;
        }
        template.AddResource(TimerRule(names, contextName, serviceName, cls.className, timer));
        template.AddResource(TimerRulePermission(names, serviceName, timer));
      }
    }
    assert handlers[..|handlers|] == handlers;
  }

  /**
   * Every scheduled timer adds exactly one rule and one permission, in
   * handler order: the rule fires `cron(<cron>)` at the asynchronous
   * function with a message naming the context, type `command` and the
   * handler class, and the permission lets exactly that rule invoke exactly
   * that function.
   */
  lemma {:induction false} TimerResourcesArePairs(names: Names, env: string, contextName: string, serviceName: string,
                                                  handlers: seq<CommandHandler>)
    ensures var rs := TimerResources(names, env, contextName, serviceName, handlers);
            var sch := Scheduled(handlers, env);
            |rs| == 2 * |sch|
            && forall j :: 0 <= j < |sch| ==>
                 var t := sch[j].timer.value;
                 && rs[2 * j].Rule?
                 && rs[2 * j].schedule == "cron(" + t.cron + ")"
                 && rs[2 * j].title == TimerName(t.command) + "TimerRule"
                 && |rs[2 * j].targets| == 1
                 && rs[2 * j].targets[0].functionTitle == AsyncTitle(names, serviceName)
                 && rs[2 * j].targets[0].input == TimerInput(contextName, sch[j].className)
                 && rs[2 * j + 1].TimerPermission?
                 && rs[2 * j + 1].title == TimerName(t.command) + "TimerPermission"
                 && rs[2 * j + 1].ruleTitle == rs[2 * j].title
                 && rs[2 * j + 1].functionTitle == AsyncTitle(names, serviceName)
    decreases |handlers|
  {
    if |handlers| > 0 {
      var init := handlers[..|handlers| - 1];
      var last := handlers[|handlers| - 1];
      TimerResourcesArePairs(names, env, contextName, serviceName, init);
      var front := TimerResources(names, env, contextName, serviceName, init);
      var rs := TimerResources(names, env, contextName, serviceName, handlers);
      var sch0 := Scheduled(init, env);
      assert rs == front + HandlerTimerResources(names, env, contextName, serviceName, last);
      if last.timer.Some? && !Skipped(last.timer.value, env) {
        var sch := Scheduled(handlers, env);
        assert sch == sch0 + [last];
        forall j | 0 <= j < |sch| ensures rs[2 * j] == (if j < |sch0| then front[2 * j] else TimerRule(names, contextName, serviceName, last.className, last.timer.value))
                                      && rs[2 * j + 1] == (if j < |sch0| then front[2 * j + 1] else TimerRulePermission(names, serviceName, last.timer.value))
                                      && sch[j] == (if j < |sch0| then sch0[j] else last) {
        }
      }
    }
  }

  lemma {:induction false} TimerResourcesAppend(names: Names, env: string, contextName: string, serviceName: string,
                                                a: seq<CommandHandler>, b: seq<CommandHandler>)
    ensures TimerResources(names, env, contextName, serviceName, a + b)
            == TimerResources(names, env, contextName, serviceName, a) + TimerResources(names, env, contextName, serviceName, b)
    decreases |b|
  {
    if |b| > 0 {
      var b' := b[..|b| - 1];
      assert (a + b)[..|a + b| - 1] == a + b';
      assert (a + b)[|a + b| - 1] == b[|b| - 1];
      TimerResourcesAppend(names, env, contextName, serviceName, a, b');
    } else {
      assert a + b == a;
    }
  }

  /** A timer declared for another environment leaves no trace: the result is as if its handler had no timer. */
  lemma {:induction false} SkippedTimerLeavesNoTrace(names: Names, env: string, contextName: string, serviceName: string,
                                                     handlers: seq<CommandHandler>, i: nat)
    requires i < |handlers| && handlers[i].timer.Some? && handlers[i].timer.value.environment.Some?
    requires handlers[i].timer.value.environment.value != env
    ensures TimerResources(names, env, contextName, serviceName, handlers)
            == TimerResources(names, env, contextName, serviceName, handlers[..i] + handlers[i + 1..])
  {
    var pre, mid, post := handlers[..i], [handlers[i]], handlers[i + 1..];
    assert handlers == pre + (mid + post);
    assert mid[..0] == [];
    assert TimerResources(names, env, contextName, serviceName, mid) == [];
    TimerResourcesAppend(names, env, contextName, serviceName, mid, post);
    assert TimerResources(names, env, contextName, serviceName, mid + post)
        == TimerResources(names, env, contextName, serviceName, post);
    TimerResourcesAppend(names, env, contextName, serviceName, pre, mid + post);
    TimerResourcesAppend(names, env, contextName, serviceName, pre, post);
  }
}
