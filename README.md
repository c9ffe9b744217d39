# Micro-error-handler core in Dafny

This project models the two-part error-handling controller of
Micro-error-handler (`src/Core/ErrorHandler.php` and `src/Core/Helper.php`).
It states and proves what the controller does with each fault.

- **ErrorHandler** is the process-wide singleton that PHP calls on an error,
  on an uncaught exception and at shutdown.
  - It remembers the last fault.
  - It creates the Helper once.
  - It keeps a deferred-data store: a map from key to an append-only list.
  - It keeps two callback registries and runs both at shutdown. Each callback
    runs inside a bracket that pushes and pops the error-handler stack.
- **Helper** does the rest.
  - It builds the configuration once, under the `innerShutdownFatal` guard flag.
  - It decides whether a fault is dropped, reported to the self error handler
    or passed to the notifiers.
  - It runs the notifiers in configuration order.
  - It reports its own failures to the self error handler.
  - It takes the exit decision.

The PHP runtime is reduced to state (`Php.RuntimeState`):

- set_error_handler / restore_error_handler become a stack of handlers.
- `exit`, and a fatal error nobody catches, become an `exited` flag. Once it
  is set, the rest of the running call stack does not run, `finally` blocks
  included.
- Everything an observer can see becomes an event trace:
  - self-error-handler reports;
  - notifier construction and `notify()` calls;
  - callback runs;
  - exits and deaths.

The collaborators the core calls but does not define are given as an `Env`:
what `new ConfigObject(...)` does, what each notifier class does when it is
constructed and notified, and what each callback does. What
`error_get_last()` returns at shutdown is a parameter.

Each operation appears twice:

- as a transition function (`AfterHandle`, `AfterNotify`, `AfterShutdown`, …)
  on the state of the controller and of the runtime;
- as a method of the classes `CoreHelper.Helper` and
  `CoreErrorHandler.ErrorHandler`.

Every method's postcondition states its new state as that function of the old
state. The loops of `notify` and `invokeCallbacks` are `while` loops, and
their invariants tie each iteration to the function. The properties are lemmas
about the functions, in `HelperProperties` and `ErrorHandlerProperties`.

Where the documentation (including the doc comments at src/Core/ErrorHandler.php:131-143 and
src/Core/Helper.php:136-140) and the code disagree, the model follows the code:

- **No log-only filter.** The notifier loop has no log-only (`ignoreLogType`)
  check. The `$logType` that ErrorHandler::exception receives lands in
  Helper::handle's `$handler` parameter and tags the ErrorObject. The
  exception's third argument is dropped.
- **The last return decides.** `$exit` is overwritten by each notifier that
  returns. The exit after a pass follows the last notifier that returned, not
  "any notifier that returned true" (`HelperProperties.LaterReturnOverrides`).
- **Nothing is drained.** invokeDeferred keeps the registry and the data, so a
  second call runs the same callbacks again (`ErrorHandlerProperties.DeferredRepeatable`).
- **Exits skip the finally blocks.** The handler stack is restored on every
  path except an `exit` or a fatal error inside a bracket, because PHP runs no
  `finally` block then.
- **No helper, deferred callbacks registered.** invokeDeferred then installs
  `[null, 'error']`. Under PHP 8 set_error_handler rejects it with a
  TypeError, and the catch block calls `exception()` on null, which throws an
  \Error. The finally block pops one handler, and that \Error leaves
  invokeCallbacks and invokeDeferred before any callback has run.
  - Called directly, as the docblock of invokeDeferred suggests before
    fastcgi_finish_request(), the script goes on. The \Error is in the
    caller's hands, and the stack is one handler short.
  - Called from shutdown, the \Error is uncaught in a shutdown function, and
    the script dies.

  `ErrorHandlerProperties.DeferredWithoutHelper` states both cases.

## Model

| member | source | states |
|---|---|---|
| Php.Runtime.SetErrorHandler | src/Core/Helper.php:79 | set_error_handler pushes the new handler on top of the stack, and nothing else changes |
| Php.Runtime.RestoreErrorHandler | src/Core/Helper.php:86 | restore_error_handler drops the top handler, and nothing else changes |
| Php.Runtime.Exit | src/Core/Helper.php:129 | `exit` sets the exited flag and records the exit |
| Php.Runtime.Die | src/Core/Helper.php:170 | a fatal error nobody catches (here inside a notifier's notify()) sets the exited flag and records the death, keeping the handler stack as it is |
| Php.Runtime.Record | src/Core/Helper.php:227 | an observable step (here a self-error-handler report) is appended at the end of the trace, and nothing else changes |
| Values.FromError | src/Core/ErrorHandler.php:121 | the \ErrorException both error handlers build: code and severity are both the given code, so its level is that code, with the given message, file and line |
| CoreHelper.NotAbstractError | src/Core/Helper.php:163-166 | the \ErrorException Helper::error builds from the loop's trigger_error: level E_USER_ERROR, message "<class> must extend …AbstractNotifier", raised at the trigger_error call |
| CoreHelper.AfterReport | src/Core/Helper.php:223-228 | Helper::exception: the self error handler exists afterwards; an existing one is kept, and a new one is created only when absent, knowing whether a config was present; exactly one report of the item is appended; configuration, guard flag, handler stack and exited flag are unchanged |
| CoreHelper.AfterCreateConfig | src/Core/Helper.php:75-89 | building the configuration: a built config is stored with its mask and notifiers and no cursor. A throw stores nothing and produces exactly one raw self report. Except on a fatal construction, the guard flag is false afterwards and the handler stack is back to its prior depth. A fatal construction leaves the flag set and the script dead |
| CoreHelper.Helper.CreateConfigObject | src/Core/Helper.php:75-89 | the method's new helper and runtime state equal AfterCreateConfig of the old state |
| CoreHelper.Helper.constructor | src/Core/Helper.php:62-66 | a new helper keeps its config file and runtime; it has no config, no self error handler and the flag down |
| CoreHelper.AfterHandle | src/Core/Helper.php:103-131 | without a config: exactly one wrapped self report, no exit, flag unchanged. A level outside error_reporting: nothing changes. After a notify pass that did not end the script: an exit exactly when the level intersects E_RECOVERABLE_ERROR or E_USER_ERROR. The config stays present or absent. A live run leaves the stack at its depth |
| CoreHelper.Helper.Handle | src/Core/Helper.php:103-131 | the method's new state equals AfterHandle of the old state, tagging the ErrorObject with `handler` |
| CoreHelper.AfterNotify | src/Core/Helper.php:146-185 | the notifier pass keeps the configuration's mask and notifiers. When it does not end the script, it clears the guard flag and leaves the stack at its depth |
| CoreHelper.Helper.Notify | src/Core/Helper.php:146-185 | the loop over the configured notifiers ends in the state AfterNotify gives. The loop invariant ties the first `i` iterations to NotifyUpTo |
| CoreHelper.NotifyUpTo | src/Core/Helper.php:150-178 | the first `n` iterations of the notifier loop keep the config's mask, notifiers and the guard flag. When nothing died, the stack is back at its depth |
| CoreHelper.NotifyIteration | src/Core/Helper.php:150-178 | iteration `n` runs after the first `n - 1` unless one of them died, with the same preserved facts as NotifyUpTo |
| CoreHelper.NotifyUpToStaysDead | src/Core/Helper.php:150-178 | once an iteration has died, no later iteration changes anything |
| CoreHelper.Visit | src/Core/Helper.php:151-158 | one iteration keeps mask, notifiers and flag, and on a live run leaves the stack at its depth (push, then pop in the finally block) |
| CoreHelper.Helper.NotifyOne | src/Core/Helper.php:151-158 | the method's new state and `$exit` equal Visit of the old ones: push, move the cursor, and skip a notifier whose mask excludes the code, before constructing it |
| CoreHelper.Reached | src/Core/Helper.php:160-177 | the try body of an enabled notifier keeps config and flag, and pops the handler unless notify() died |
| CoreHelper.Helper.Reach | src/Core/Helper.php:160-177 | the method's new state and `$exit` equal Reached of the old ones: construct, reject a non-notifier through trigger_error and Helper::error, call notify(), report a throw |
| CoreHelper.Helper.GetInnerShutdownFatal | src/Core/Helper.php:194-197 | returns the guard flag |
| CoreHelper.Helper.Error | src/Core/Helper.php:210-214 | returns true and reports exactly one \ErrorException whose code and severity are both `code` |
| CoreHelper.Helper.Exception | src/Core/Helper.php:223-228 | the method's new state equals AfterReport of the old state: the self error handler is created only the first time, and one report of `item` is recorded |
| HelperProperties.VisitEvents | src/Core/Helper.php:150-177 | one iteration adds exactly that notifier's events and dies exactly when it is enabled and its notify() is fatal. A disabled notifier adds nothing. A construction throw reports the ErrorObject and then the throwable. A non-notifier is reported once and its notify() is not called. A throw from notify() reports the ErrorObject, then the throwable. The cursor ends on this notifier, and `$exit` changes only to the value of a notify() that returned |
| HelperProperties.NotifyUpToEvents | src/Core/Helper.php:150-178 | the first `n` iterations add exactly the notifiers' events in configuration order, up to the first that dies. They die exactly when one of them died. On a live run they leave the cursor on the last of them |
| HelperProperties.NotifyUpToExit | src/Core/Helper.php:149-170 | in a pass without a death, `$exit` is null exactly when no notifier returned; otherwise it holds the value of the last notifier that returned |
| HelperProperties.LastReturnIndex | src/Core/Helper.php:170 | when some notifier among the first `n` returned, there is a last one that did |
| HelperProperties.NotifyOutcome | src/Core/Helper.php:146-185 | the notifier pass leaves its events, then an exit exactly when the pass completes and the last returning notifier returned true. A death leaves the guard flag set; otherwise the flag is cleared |
| HelperProperties.LaterReturnOverrides | src/Core/Helper.php:170-184 | true from the first notifier and then false from the second: no exit |
| HelperProperties.HandleExitIff | src/Core/Helper.php:116-130 | with a config, an unmasked level and no notifier dying: an exit exactly when the notifiers asked for one or the level intersects E_RECOVERABLE_ERROR \| E_USER_ERROR; the guard flag is cleared |
| HelperProperties.HandleTrace | src/Core/Helper.php:103-131 | handle adds exactly HandleEvents. Without a config that is one wrapped report; below the mask, nothing; otherwise the pass's events and then the exit if one is due |
| HelperProperties.HandleEndsIff | src/Core/Helper.php:103-131 | handle ends the script exactly when there is a config, the level is unmasked, and a notifier died, the notifiers asked for an exit, or the level forces one |
| HelperProperties.HandleFlag | src/Core/Helper.php:103-131 | the guard flag is set after handle only when it was set before or the script died |
| CoreErrorHandler.Statics.constructor | src/Core/ErrorHandler.php:36 | the static `$instance` starts unset |
| CoreErrorHandler.ErrorHandler.constructor | src/Core/ErrorHandler.php:87-94 | a new interceptor keeps its config file; it has no helper, no last error, no data and empty registries |
| CoreErrorHandler.ErrorHandler.Instance | src/Core/ErrorHandler.php:102-105 | returns the stored instance when there is one; otherwise it creates, stores and returns a fresh one holding this call's config file |
| CoreErrorHandler.InstanceTwice | src/Core/ErrorHandler.php:102-105 | two calls of instance() return the same object, and it holds the first call's config file |
| CoreErrorHandler.AfterException | src/Core/ErrorHandler.php:149-157 | the last error becomes the fault and a helper exists afterwards. The data and the registries are unchanged. An existing helper keeps its config present or absent. A first fault's helper has a config exactly when construction built one. A live run leaves the stack at its depth |
| CoreErrorHandler.ErrorHandler.Exception | src/Core/ErrorHandler.php:149-157 | the method's new state equals AfterException of the old state. The helper is created only when absent and reused otherwise, and `logType` is passed on as handle's tag |
| CoreErrorHandler.ErrorHandler.Error | src/Core/ErrorHandler.php:119-123 | returns true, and its new state equals AfterException of an \ErrorException whose code and severity are both `code`, with the empty logType |
| ErrorHandlerProperties.ExceptionTrace | src/Core/ErrorHandler.php:149-157 | exception() adds exactly one Helper::handle of the fault, tagged with `logType`, and reuses an existing helper. A first fault first builds the config: a throw adds its raw report before the wrapped fault; a fatal construction ends the script before the fault is handled, with the guard flag left set |
| ErrorHandlerProperties.ConfigBuiltOnce | src/Core/ErrorHandler.php:152-155 | with a helper in place, what building the configuration would do makes no difference: it is built at most once |
| ErrorHandlerProperties.InnerFlagOnlyByDeath | src/Core/ErrorHandler.php:149-157 | the guard flag outlives exception() only when the call died |
| ErrorHandlerProperties.BrokenConfigStaysBroken | src/Core/Helper.php:111-114 | once the config is missing, each later error() fault is reported wrapped, once, in order. Nothing is notified, nothing exits, and the stack is unchanged |
| ErrorHandlerProperties.HandleEventsNoRuns | src/Core/Helper.php:103-131 | handling a fault runs no callback |
| ErrorHandlerProperties.PassEventsNoRuns | src/Core/Helper.php:150-178 | a notifier pass runs no callback |
| ErrorHandlerProperties.ExceptionRunsNothing | src/Core/ErrorHandler.php:149-157 | exception() runs no callback |
| CoreErrorHandler.ShutdownError | src/Core/ErrorHandler.php:171 | the \ErrorException shutdown builds from error_get_last(): code and severity are both the reported type, with its message, file and line |
| CoreErrorHandler.AfterShutdownFault | src/Core/ErrorHandler.php:170-183 | with no last error nothing changes; otherwise data and registries are unchanged and a live run leaves the stack at its depth |
| ErrorHandlerProperties.ShutdownFaultRoute | src/Core/ErrorHandler.php:170-183 | with the helper's flag set: the self error handler gets the last fault, then the new one, in that order; the last error and the config stay, and exception() is not entered. Otherwise the new fault goes through exception() with the empty logType |
| ErrorHandlerProperties.ShutdownFaultRunsNothing | src/Core/ErrorHandler.php:170-183 | the fault part of shutdown runs no callback |
| ErrorHandlerProperties.FatalConfigReachesShutdown | src/Core/Helper.php:75-89 | a config file that dies while it loads ends the script with only that death. At shutdown the self error handler then gets the unhandled fault and the one error_get_last() reports |
| CoreErrorHandler.AfterRun | src/Core/ErrorHandler.php:221-226 | after the callback is entered, data and registries are unchanged. With the helper as target, the last error is unchanged and the helper stays. With the interceptor as target, a throwing callback goes to ErrorHandler::exception: the throwable becomes the last error and a helper exists. A live run pops the handler the iteration pushed |
| CoreErrorHandler.ErrorHandler.Run | src/Core/ErrorHandler.php:221-226 | the method's new state equals AfterRun of the old state: a throw goes to the target's exception(), and the finally block pops |
| CoreErrorHandler.AfterCall | src/Core/ErrorHandler.php:218-227 | one iteration, given the handler object its target needs, keeps data and registries and an existing helper, and on a live run leaves the stack at its depth |
| CoreErrorHandler.ErrorHandler.Call | src/Core/ErrorHandler.php:218-227 | given the handler object its target needs, the method's new state equals AfterCall of the old state |
| ErrorHandlerProperties.RunRunsNothing | src/Core/ErrorHandler.php:221-226 | once the callback is entered, nothing else in its iteration runs a callback |
| ErrorHandlerProperties.CallRuns | src/Core/ErrorHandler.php:218-227 | one iteration shows exactly one run of its callback with `data`, whether the callback completes, throws or dies |
| ErrorHandlerProperties.CallRunsBounded | src/Core/ErrorHandler.php:218-227 | one iteration keeps the runs already shown and adds at most its own |
| CoreErrorHandler.InvokeFrom | src/Core/ErrorHandler.php:217-228 | the loop keeps data and registries and an existing helper, and on a live run leaves the stack at its depth |
| CoreErrorHandler.InvokeIteration | src/Core/ErrorHandler.php:217-228 | the first iteration and then the rest, unless the first ended the script; same preserved facts as InvokeFrom |
| CoreErrorHandler.AfterInvokeCallbacks | src/Core/ErrorHandler.php:215-229 | invokeCallbacks keeps data and registries. With the helper as handler object, no helper and callbacks registered, the \Error escapes the first iteration: the state and the trace are unchanged, the script goes on, and one handler is popped. Otherwise a live run keeps the stack depth |
| CoreErrorHandler.ErrorHandler.InvokeCallbacks | src/Core/ErrorHandler.php:215-229 | the method's new state equals AfterInvokeCallbacks of the old state, and `escaped` is what the source throws to its caller: NullHelperError exactly in the no-helper case, otherwise nothing. The loop invariant ties what remains to InvokeFrom of the rest |
| CoreErrorHandler.ErrorHandler.CallFirst | src/Core/ErrorHandler.php:217-228 | after the next iteration, the loop's result over the rest equals its result over the whole |
| ErrorHandlerProperties.InvokeRunsAll | src/Core/ErrorHandler.php:217-228 | when nothing ends the script, every callback runs once, in registry order, with `data`; a throwing callback does not stop the rest |
| ErrorHandlerProperties.InvokeRunsGrow | src/Core/ErrorHandler.php:217-228 | however the loop ends, the runs shown before it are still there |
| ErrorHandlerProperties.InvokeRunsPrefix | src/Core/ErrorHandler.php:217-228 | however the loop ends, what it shows is a prefix of the registry in order |
| ErrorHandlerProperties.InvokeStage | src/Core/ErrorHandler.php:215-229 | the three facts above together: earlier runs kept, a prefix of the plan, all of it on a live run |
| ErrorHandlerProperties.HelperCallTrace | src/Core/ErrorHandler.php:218-227 | with the helper as handler, one iteration adds the run and either nothing, one raw self report of the throw, or the death. It dies exactly when the callback is fatal |
| ErrorHandlerProperties.InterceptorThrowTrace | src/Core/ErrorHandler.php:218-227 | for the interceptor's own callbacks with a helper in place, a throwing callback is passed once to ErrorHandler::exception: the throwable becomes the last error, and the trace gains the run and then exactly one Helper::handle of it with the empty tag |
| ErrorHandlerProperties.HelperInvokeTrace | src/Core/ErrorHandler.php:217-228 | with the helper as handler, the loop adds exactly each callback's events in order, up to the first fatal one, and dies exactly when some callback is fatal |
| ErrorHandlerProperties.HelperInvokeKeepsHelper | src/Core/ErrorHandler.php:217-228 | with the helper as handler, the loop leaves the config and the guard flag as they were |
| CoreErrorHandler.AfterInvokeDeferred | src/Core/ErrorHandler.php:197-202 | with an empty deferred registry nothing changes at all. Otherwise data, registries, last error and helper presence are kept. With no helper, the \Error escapes having run no callback: the trace is unchanged, the script goes on, and one handler is popped. With a helper, a live run keeps the stack depth |
| CoreErrorHandler.ErrorHandler.InvokeDeferred | src/Core/ErrorHandler.php:197-202 | the method's new state equals AfterInvokeDeferred of the old state, with the same helper. `escaped` is the \Error that a direct call hands back to its caller: NullHelperError exactly when there is no helper and the registry is non-empty, otherwise nothing |
| ErrorHandlerProperties.DeferredRepeatable | src/Core/ErrorHandler.php:197-202 | invokeDeferred keeps the registry and the data. It adds the deferred callbacks' events on the stored data, and a second call adds the same events again |
| ErrorHandlerProperties.DeferredWithoutHelper | src/Core/ErrorHandler.php:197-202 | with deferred callbacks but no helper, no callback runs and NullHelperError escapes. Called directly, the state and the trace are unchanged, the script goes on, and one handler is popped. As the last step of shutdown, the script dies with that \Error |
| ErrorHandlerProperties.DeferredStage | src/Core/ErrorHandler.php:187 | the invokeDeferred step of shutdown runs the deferred callbacks with the stored data in registry order, a prefix when cut short; with no helper it runs none and the script dies |
| CoreErrorHandler.AfterUserCallbacks | src/Core/ErrorHandler.php:184-186 | with no user callbacks nothing changes at all; otherwise data and registries are kept and, on a live run, the stack depth |
| ErrorHandlerProperties.UserStage | src/Core/ErrorHandler.php:184-186 | the user callbacks run with null in registry order, only when there are any, a prefix when cut short |
| CoreErrorHandler.AfterShutdown | src/Core/ErrorHandler.php:168-188 | shutdown keeps data and registries and, on a live run, the stack depth |
| CoreErrorHandler.ErrorHandler.Shutdown | src/Core/ErrorHandler.php:168-188 | the method's new state equals AfterShutdown of the old state, with `last` as error_get_last(); an \Error escaping invokeDeferred becomes a death |
| CoreErrorHandler.AfterShutdownDeferred | src/Core/ErrorHandler.php:187 | the last step of shutdown keeps data and registries and, on a live run, the stack depth; when invokeDeferred throws, the script dies |
| ErrorHandlerProperties.QuietShutdown | src/Core/ErrorHandler.php:168-188 | a shutdown with no last error and both registries empty changes nothing, so a process that saw no fault (no helper) is not handed to `[null, 'error']` |
| ErrorHandlerProperties.ShutdownOrder | src/Core/ErrorHandler.php:168-188 | the runs shutdown shows are every user callback with null, then every deferred callback with the stored data, in registry order; a prefix of that when the script ends early |
| CoreErrorHandler.AppendData | src/Core/ErrorHandler.php:243 | `v` is appended at the end of the list under `k`, after its earlier values. Every other key keeps its list, and the keys gain only `k` |
| CoreErrorHandler.ErrorHandler.AddErrorCallbackData | src/Core/ErrorHandler.php:241-244 | only the data store changes, to AppendData of the old store; the class invariant is kept |
| CoreErrorHandler.ErrorHandler.AddErrorCallback | src/Core/ErrorHandler.php:254-257 | only the deferred registry changes: the callback is appended at its end; the class invariant is kept |
| CoreErrorHandler.ErrorHandler.AddUserCallback | src/Core/ErrorHandler.php:267-270 | only the user registry changes: the callback is appended at its end; the class invariant is kept |

## Left out

- Runtime registration is not modelled: ini_set, set_error_handler, set_exception_handler and register_shutdown_function in the ErrorHandler constructor (src/Core/ErrorHandler.php:89-92). Only the handler stack that the bracketed regions push and pop is modelled. The handler that PHP consults for an error raised inside a bracket is the top of that stack.
- `exit` and fatal errors are a terminal flag. The host's restart for shutdown functions is `Php.Runtime.BeginShutdown`, which clears the flag. Output, headers and process status are not modelled.
- error_get_last() is the `last` parameter of Shutdown. call_user_func, `new ConfigObject` and `new $notifierClass` are the outcome functions of `Env`. These outcomes depend only on their arguments, so a notifier or callback that changes the controller's state is not modelled. That includes a notifier calling addErrorCallbackData or addErrorCallback during a pass.
- Non-fatal PHP errors (warnings, notices) that a notifier, a callback or the configuration raises inside a bracket are not modelled. Only the outcomes "returns", "throws" and "dies" are modelled, plus the one E_USER_ERROR the loop raises itself.
- ConfigObject, ErrorObject, SelfErrorHandler and the concrete notifiers are not part of this model. Only the surface the core calls is modelled.
  - ErrorObject::getCode is taken as the severity of an \ErrorException and as a given level for any other throwable.
  - SelfErrorHandler::report is one trace event.
  - SelfErrorHandler is given a reference to the Helper's ConfigObject (src/Core/Helper.php:226), so later setNotifierClass calls move its cursor too. The model keeps only whether a configuration was present when it was created; that sharing is not modelled.
  - `get('enabled')` is the notifier entry's mask.
- Line numbers inside events are not modelled. The \ErrorException from the loop's trigger_error carries src/Core/Helper.php and line 163 as constants.
- The Helper's back-reference to the ErrorHandler is only handed on to notifiers, so the model does not keep it.
- `notify()` return values that are not booleans are not modelled. A notifier's result is a `bool`, and `$exit` is tested as `== Some(true)`.
- CoreErrorHandler.ErrorHandler.Instance: the config file is a `string`, so the strict-types TypeError that a null config file raises in `new Helper(...)` (src/Core/Helper.php:62) is not modelled.
- The model follows PHP 8.0 and 8.1. PHP 7 answers set_error_handler with an invalid callable by a warning instead of a TypeError; that behaviour is not modelled.
- CoreErrorHandler.AfterException: the PHP 8.2 deprecation of dynamic properties is not modelled. Helper declares no `$configFile` property, yet its constructor assigns one (src/Core/Helper.php:65), so from PHP 8.2 `new Helper` raises E_DEPRECATED. When a first fault reaches exception() through the exception handler, or at shutdown, the interceptor's error() is the current handler. It re-enters exception() while the helper is still null. An inner Helper is built, configured and given the deprecation, and the last error becomes the deprecation. Then the outer assignment replaces that Helper and the configuration is built a second time.
- ErrorHandlerProperties.ConfigBuiltOnce: holds for PHP 8.0 and 8.1 only; from PHP 8.2 one first fault can build the configuration twice, as the AfterException line describes.
- HelperProperties.VisitEvents: the PHP 8.4 deprecation of trigger_error with E_USER_ERROR is not modelled. From PHP 8.4 the call at src/Core/Helper.php:163-166 first raises E_DEPRECATED, which Helper::error reports too, so a class that is not an AbstractNotifier gives two self reports where this lemma and CoreHelper.Reached give one.
- ErrorHandlerProperties.ShutdownOrder: when the script ends early, it states only that the runs are a prefix of the planned order, not which callback ended it.
- Error/Core/ErrorHandler.php is not part of this model. It is a legacy wrapper around debug_backtrace and output buffering, with no decision logic.
- Error/settings.php is not part of this model. It is static configuration data.
- Concurrency does not arise, because PHP runs these handlers single-threaded. Re-entry is modelled only through the handler stack and the guard flag.
