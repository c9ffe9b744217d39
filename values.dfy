/**
 * Values the error-handling core passes around: PHP error levels, throwables,
 * the ErrorObject wrapper, what the collaborators the core cannot see do
 * (configuration loading, notifiers, callbacks), and the events a run leaves
 * behind for an observer.
 */
module Values {

  datatype Option<T> = None | Some(value: T)

  /** A PHP integer used as an error-level bit mask (64-bit two's complement). */
  type Level = bv64

  const E_ERROR: Level := 1
  const E_USER_ERROR: Level := 256
  const E_RECOVERABLE_ERROR: Level := 4096

  /** The two levels after whose notification the handler forces an exit. */
  const ForcedExitLevels: Level := E_RECOVERABLE_ERROR | E_USER_ERROR

  /** PHP's `0 != (a & b)`. */
  predicate Intersects(a: Level, b: Level) {
    a & b != 0
  }

  /** A PHP \Throwable: an \ErrorException built by an error handler, or any other throwable. */
  datatype Throwable =
    | ErrorException(message: string, code: Level, severity: Level, file: string, line: int)
    | Thrown(name: string, level: Level)

  /** The level ErrorObject::getCode reports for a wrapped throwable. */
  function LevelOf(t: Throwable): Level {
    match t
    case ErrorException(_, _, severity, _, _) => severity
    case Thrown(_, level) => level
  }

  /** `new \ErrorException($message, $code, $code, $file, $line)`, as both error handlers build it. */
  function FromError(code: Level, message: string, file: string, line: int): (r: Throwable)
    ensures r.ErrorException? && r.code == code && r.severity == code && LevelOf(r) == code
    ensures r.message == message && r.file == file && r.line == line
  {
    ErrorException(message, code, code, file, line)
  }

  /** The wrapper Helper::handle builds around a throwable, tagged with its `$handler` argument. */
  datatype ErrorObject = ErrorObject(error: Throwable, handler: string) {
    function Code(): Level {
      LevelOf(error)
    }
  }

  /** What SelfErrorHandler::report receives: a bare throwable or a wrapped one. */
  datatype Reportable = Raw(t: Throwable) | Wrapped(eo: ErrorObject)

  /** An entry of PHP's error-handler stack: `[$errorHandler, 'error']`, `[$helper, 'error']`, or one the core did not install. */
  datatype Handler = Foreign(id: nat) | InterceptorError | HelperError

  /** A callable registered with addErrorCallback or addUserCallback. */
  datatype Callback = Callback(id: nat)

  /** A value a notifier stores with addErrorCallbackData. */
  datatype Value = Value(id: nat)

  type CallbackData = map<string, seq<Value>>

  /** One notifier of the configuration and its `enabled` mask. */
  datatype NotifierEntry = NotifierEntry(cls: string, enabled: Level)

  /**
   * The surface of ConfigObject the core uses: getErrorReporting, getNotifiers
   * (in configuration order) and the current-notifier cursor set by setNotifierClass.
   */
  datatype ConfigObject = ConfigObject(errorReporting: Level, notifiers: seq<NotifierEntry>, notifierClass: Option<string>)

  /** What `new ConfigObject($configFile)` does. */
  datatype ConfigOutcome =
    | Built(errorReporting: Level, notifiers: seq<NotifierEntry>)
    | ConstructionThrows(t: Throwable)
    | ConstructionFatal(t: Throwable)

  /** What `new $notifierClass(...)` followed by `notify()` does. */
  datatype NotifierOutcome =
    | ConstructorThrows(t: Throwable)
    | NotAbstractNotifier
    | NotifyThrows(t: Throwable)
    | Returns(result: bool)
    | NotifyFatal(t: Throwable)

  /** What `call_user_func($callback, $data)` does. */
  datatype CallbackOutcome = Completes | CallbackThrows(t: Throwable) | CallbackFatal(t: Throwable)

  /** The behaviour of every collaborator the core calls but does not define. */
  datatype Env = Env(
    config: ConfigOutcome,
    factory: (string, ErrorObject) -> NotifierOutcome,
    callbacks: (Callback, Option<CallbackData>) -> CallbackOutcome)

  /** What an observer of the process sees. */
  datatype Event =
    | SelfReport(item: Reportable)
    | NotifierConstructed(cls: string, eo: ErrorObject)
    | NotifierNotified(cls: string)
    | CallbackRun(cb: Callback, data: Option<CallbackData>)
    | Exited
    | Died(t: Throwable)
}
