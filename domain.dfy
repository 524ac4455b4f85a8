/**
 * The read-only domain model the agent deploys: contexts with their command
 * handlers (some carrying a timer) and their event listeners, and services.
 */
module Domain {
  import opened Wrappers

  /** A timer's command: a command string, or a command class known by its `__name__`. */
  datatype CommandRef = CommandString(command: string) | CommandClass(className: string)

  datatype Timer = Timer(cron: string, environment: Option<string>, command: CommandRef)

  /** A command handler class, by `__name__`, with the timer `get_timer()` returns when `has_timer()`. */
  datatype CommandHandler = CommandHandler(className: string, timer: Option<Timer>)

  /** An event reference: a string `"context.Event"`, or an event class with its context. */
  datatype EventRef = Qualified(reference: string) | EventClass(context: string, className: string)

  /**
   * A context. `eventListeners` is the ordered `event_listeners` dictionary
   * (listening service to its event references); `environment` is
   * `extensions.firefly_aws.environment` of its configuration, None when any
   * level is missing.
   */
  datatype Context = Context(
    name: string,
    commandHandlers: seq<CommandHandler>,
    eventListeners: seq<(string, seq<EventRef>)>,
    environment: Option<seq<(string, string)>>)

  datatype Service = Service(name: string)
}
