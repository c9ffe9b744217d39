/**
 * The first half of the controller (src/Core/ErrorHandler.php): the
 * process-wide singleton the runtime calls on an error, an uncaught
 * exception and at shutdown. It creates the Helper once, keeps the last
 * fault, stores data for deferred notification and runs the user and
 * deferred callbacks at shutdown.
 *
 * As for the Helper, each operation is a transition function `After...` on
 * the interceptor's state and the runtime's, and a method of class
 * ErrorHandler whose postcondition ties the new state to that function.
 */
module CoreErrorHandler {
  import opened Values
  import opened Php
  import opened CoreHelper

  datatype CoreState = CoreState(
    helper: Option<HelperState>,
    lastError: Option<Throwable>,
    callbackData: CallbackData,
    errorCallbacks: seq<Callback>,
    userCallbacks: seq<Callback>)

  /** The interceptor together with the runtime it acts on. */
  datatype World = World(c: CoreState, rt: RuntimeState)

  const InitialCore := CoreState(None, None, map[], [], [])

  /** The object whose `error` method invokeCallbacks installs and whose `exception` method it reports to. */
  datatype Target = TheInterceptor | TheHelper

  /** What error_get_last() returns at shutdown. */
  datatype LastError = LastError(errorType: Level, message: string, file: string, line: int)

  /** The \ErrorException shutdown() builds from error_get_last(). */
  function ShutdownError(el: LastError): (r: Throwable)
    ensures r.ErrorException? && r.code == el.errorType && r.severity == el.errorType && LevelOf(r) == el.errorType
    ensures r.message == el.message && r.file == el.file && r.line == el.line
  {
    FromError(el.errorType, el.message, el.file, el.line)
  }

  /**
   * Thrown when invokeCallbacks runs with no helper: set_error_handler rejects
   * `[null, 'error']` with a TypeError, and calling exception() on null in the
   * catch block throws an \Error that nothing in invokeCallbacks catches.
   */
  const NullHelperError := Thrown("Error", E_ERROR)

  /**
   * What invokeCallbacks throws to its caller: with the helper as the handler
   * object and no helper yet, its first iteration throws NullHelperError;
   * nothing else escapes it.
   */
  function Escape(c: CoreState, target: Target, callbacks: seq<Callback>): Option<Throwable> {
    if target == TheHelper && c.helper.None? && callbacks != [] then Some(NullHelperError) else None
  }

  /** What invokeDeferred throws to its caller. */
  function DeferredEscape(c: CoreState): Option<Throwable> {
    Escape(c, TheHelper, c.errorCallbacks)
  }

  /** `$callbackData[$key][] = $value`. */
  function AppendData(d: CallbackData, key: string, value: Value): (r: CallbackData)
    ensures key in r && r[key] == (if key in d then d[key] else []) + [value]
    ensures forall k :: k in d && k != key ==> k in r && r[k] == d[k]
    ensures r.Keys == d.Keys + {key}
  {
    d[key := (if key in d then d[key] else []) + [value]]
  }

  /** ErrorHandler::exception: remember the fault, create the helper once, hand the fault over. */
  function AfterException(w: World, e: Throwable, logType: string, env: Env): (r: World)
    ensures r.c.lastError == Some(e) && r.c.helper.Some?
    ensures r.c.callbackData == w.c.callbackData
    ensures r.c.errorCallbacks == w.c.errorCallbacks && r.c.userCallbacks == w.c.userCallbacks
    ensures w.c.helper.Some? ==> (r.c.helper.value.configObject.None? <==> w.c.helper.value.configObject.None?)
    ensures w.c.helper.None? ==> (r.c.helper.value.configObject.None? <==> !env.config.Built?)
    ensures !r.rt.exited ==> r.rt.handlers == w.rt.handlers
  {
    var c := w.c.(lastError := Some(e));
    var m :=
      if c.helper.Some? then Machine(c.helper.value, w.rt)
      else AfterCreateConfig(Machine(InitialHelper, w.rt), env.config);
    if m.rt.exited then World(c.(helper := Some(m.h)), m.rt)
    else
      var n := AfterHandle(m, e, logType, env.factory);
      World(c.(helper := Some(n.h)), n.rt)
  }

  /** The first part of ErrorHandler::shutdown: the fault error_get_last() reports, if any. */
  function AfterShutdownFault(w: World, last: Option<LastError>, env: Env): (r: World)
    requires w.c.helper.Some? ==> w.c.lastError.Some?
    ensures last.None? ==> r == w
    ensures r.c.callbackData == w.c.callbackData
    ensures r.c.errorCallbacks == w.c.errorCallbacks && r.c.userCallbacks == w.c.userCallbacks
    ensures !r.rt.exited ==> r.rt.handlers == w.rt.handlers
  {
    match last
    case None => w
    case Some(el) =>
      var e := ShutdownError(el);
      if w.c.helper.Some? && w.c.helper.value.innerShutdownFatal then
        var m := AfterReport(AfterReport(Machine(w.c.helper.value, w.rt), Raw(w.c.lastError.value)), Raw(e));
        World(w.c.(helper := Some(m.h)), m.rt)
      else AfterException(w, e, "", env)
  }

  /**
   * The try block and the finally block of one invokeCallbacks iteration once
   * the handler is installed and the callback has been entered: an exception
   * goes to the installed handler's owner, and the finally block pops the
   * handler unless the script ended.
   */
  function AfterRun(w: World, target: Target, cb: Callback, data: Option<CallbackData>, env: Env): (r: World)
    requires target == TheHelper ==> w.c.helper.Some?
    ensures r.c.callbackData == w.c.callbackData
    ensures r.c.errorCallbacks == w.c.errorCallbacks && r.c.userCallbacks == w.c.userCallbacks
    ensures r.c.helper.Some? || w.c.helper.None?
    ensures target == TheHelper ==> r.c.lastError == w.c.lastError && r.c.helper.Some?
    ensures target == TheInterceptor && env.callbacks(cb, data).CallbackThrows? ==>
      r.c.lastError == Some(env.callbacks(cb, data).t) && r.c.helper.Some?
    ensures !r.rt.exited ==> r.rt.handlers == Pop(w.rt).handlers
  {
    match env.callbacks(cb, data)
    case Completes => World(w.c, Pop(w.rt))
    case CallbackFatal(t) => World(w.c, AfterFatal(w.rt, t))
    case CallbackThrows(t) =>
      if target == TheHelper then
        var m := AfterReport(Machine(w.c.helper.value, w.rt), Raw(t));
        World(w.c.(helper := Some(m.h)), Pop(m.rt))
      else
        var x := AfterException(w, t, "", env);
        if x.rt.exited then x else World(x.c, Pop(x.rt))
  }

  /** One iteration of the loop of ErrorHandler::invokeCallbacks, inside its try/finally bracket. */
  function AfterCall(w: World, target: Target, cb: Callback, data: Option<CallbackData>, env: Env): (r: World)
    requires target == TheHelper ==> w.c.helper.Some?
    ensures r.c.callbackData == w.c.callbackData
    ensures r.c.errorCallbacks == w.c.errorCallbacks && r.c.userCallbacks == w.c.userCallbacks
    ensures w.c.helper.Some? ==> r.c.helper.Some?
    ensures target == TheHelper ==> r.c.lastError == w.c.lastError && (r.c.helper.Some? <==> w.c.helper.Some?)
    ensures !r.rt.exited ==> r.rt.handlers == w.rt.handlers
  {
    var entered := Recorded(Push(w.rt, if target == TheHelper then HelperError else InterceptorError), CallbackRun(cb, data));
    AfterRun(World(w.c, entered), target, cb, data, env)
  }

  /** The loop of ErrorHandler::invokeCallbacks over `callbacks`, in order; exit or a fatal error ends it. */
  function InvokeFrom(w: World, target: Target, callbacks: seq<Callback>, data: Option<CallbackData>, env: Env): (r: World)
    requires target == TheHelper && callbacks != [] ==> w.c.helper.Some?
    ensures r.c.callbackData == w.c.callbackData
    ensures r.c.errorCallbacks == w.c.errorCallbacks && r.c.userCallbacks == w.c.userCallbacks
    ensures w.c.helper.Some? ==> r.c.helper.Some?
    ensures target == TheHelper ==> r.c.lastError == w.c.lastError && (r.c.helper.Some? <==> w.c.helper.Some?)
    ensures !r.rt.exited ==> r.rt.handlers == w.rt.handlers
    decreases |callbacks|, 1
  {
    if callbacks == [] then w else InvokeIteration(w, target, callbacks, data, env)
  }

  /** The first callback's iteration, then the rest of the loop unless it ended the script. */
  function InvokeIteration(w: World, target: Target, callbacks: seq<Callback>, data: Option<CallbackData>, env: Env): (r: World)
    requires callbacks != [] && (target == TheHelper ==> w.c.helper.Some?)
    ensures r.c.callbackData == w.c.callbackData
    ensures r.c.errorCallbacks == w.c.errorCallbacks && r.c.userCallbacks == w.c.userCallbacks
    ensures w.c.helper.Some? ==> r.c.helper.Some?
    ensures target == TheHelper ==> r.c.lastError == w.c.lastError && (r.c.helper.Some? <==> w.c.helper.Some?)
    ensures !r.rt.exited ==> r.rt.handlers == w.rt.handlers
    decreases |callbacks|, 0
  {
    var w1 := AfterCall(w, target, callbacks[0], data, env);
    if w1.rt.exited then w1
    else
      var r := InvokeFrom(w1, target, callbacks[1..], data, env);
      r
  }

  /** One step of InvokeFrom, with the call's outcome `w1` named. */
  lemma InvokeFromStep(w: World, target: Target, callbacks: seq<Callback>, data: Option<CallbackData>, env: Env, w1: World)
    requires callbacks != [] && (target == TheHelper ==> w.c.helper.Some?)
    requires w1 == AfterCall(w, target, callbacks[0], data, env)
    ensures w1.rt.exited ==> InvokeFrom(w, target, callbacks, data, env) == w1
    ensures !w1.rt.exited ==> InvokeFrom(w, target, callbacks, data, env) == InvokeFrom(w1, target, callbacks[1..], data, env)
  {
  }

  /**
   * ErrorHandler::invokeCallbacks. When Escape says it throws, the finally
   * block of the first iteration has popped one handler on the way out and no
   * callback has run.
   */
  function AfterInvokeCallbacks(w: World, target: Target, callbacks: seq<Callback>, data: Option<CallbackData>, env: Env): (r: World)
    ensures r.c.callbackData == w.c.callbackData
    ensures r.c.errorCallbacks == w.c.errorCallbacks && r.c.userCallbacks == w.c.userCallbacks
    ensures !r.rt.exited && Escape(w.c, target, callbacks).None? ==> r.rt.handlers == w.rt.handlers
    ensures Escape(w.c, target, callbacks).Some? ==>
      r.rt.exited == w.rt.exited && r.rt.handlers == Pop(w.rt).handlers && r.rt.trace == w.rt.trace && r.c == w.c
  {
    if Escape(w.c, target, callbacks).Some? then World(w.c, Pop(w.rt))
    else InvokeFrom(w, target, callbacks, data, env)
  }

  /** ErrorHandler::invokeDeferred. */
  function AfterInvokeDeferred(w: World, env: Env): (r: World)
    ensures r.c.callbackData == w.c.callbackData
    ensures r.c.errorCallbacks == w.c.errorCallbacks && r.c.userCallbacks == w.c.userCallbacks
    ensures !r.rt.exited && DeferredEscape(w.c).None? ==> r.rt.handlers == w.rt.handlers
    ensures DeferredEscape(w.c).Some? ==> r.rt.exited == w.rt.exited && r.rt.handlers == Pop(w.rt).handlers && r.rt.trace == w.rt.trace
    ensures r.c.lastError == w.c.lastError && (r.c.helper.Some? <==> w.c.helper.Some?)
    ensures w.c.errorCallbacks == [] ==> r == w
  {
    if w.c.errorCallbacks != [] then AfterInvokeCallbacks(w, TheHelper, w.c.errorCallbacks, Some(w.c.callbackData), env)
    else w
  }

  /** The user-callback step of ErrorHandler::shutdown: the user callbacks run with null data, when there are any. */
  function AfterUserCallbacks(w: World, env: Env): (r: World)
    ensures r.c.callbackData == w.c.callbackData
    ensures r.c.errorCallbacks == w.c.errorCallbacks && r.c.userCallbacks == w.c.userCallbacks
    ensures !r.rt.exited ==> r.rt.handlers == w.rt.handlers
    ensures w.c.userCallbacks == [] ==> r == w
  {
    if w.c.userCallbacks != [] then AfterInvokeCallbacks(w, TheInterceptor, w.c.userCallbacks, None, env)
    else w
  }

  /** ErrorHandler::shutdown. */
  function AfterShutdown(w: World, last: Option<LastError>, env: Env): (r: World)
    requires w.c.helper.Some? ==> w.c.lastError.Some?
    ensures r.c.callbackData == w.c.callbackData
    ensures r.c.errorCallbacks == w.c.errorCallbacks && r.c.userCallbacks == w.c.userCallbacks
    ensures !r.rt.exited ==> r.rt.handlers == w.rt.handlers
  {
    var f := AfterShutdownFault(w, last, env);
    if f.rt.exited then f
    else
      var u := AfterUserCallbacks(f, env);
      if u.rt.exited then u
      else
        var d := AfterShutdownDeferred(u, env);
        d
  }

  /**
   * The last step of ErrorHandler::shutdown: invokeDeferred, where an \Error
   * it throws escapes the shutdown function and so is an uncaught fatal error.
   */
  function AfterShutdownDeferred(w: World, env: Env): (r: World)
    ensures r.c.callbackData == w.c.callbackData
    ensures r.c.errorCallbacks == w.c.errorCallbacks && r.c.userCallbacks == w.c.userCallbacks
    ensures !r.rt.exited ==> r.rt.handlers == w.rt.handlers
    ensures DeferredEscape(w.c).Some? ==> r.rt.exited
  {
    var d := AfterInvokeDeferred(w, env);
    if DeferredEscape(w.c).Some? then World(d.c, AfterFatal(d.rt, DeferredEscape(w.c).value)) else d
  }

  /** The static property ErrorHandler::$instance. */
  class Statics {
    var instance: ErrorHandler?

    constructor ()
      ensures instance == null
    {
      instance := null;
    }
  }

  class ErrorHandler {
    const rt: Runtime
    const configFile: string
    var helper: Helper?
    var lastError: Option<Throwable>
    var callbackData: CallbackData
    var errorCallbacks: seq<Callback>
    var userCallbacks: seq<Callback>

    /** The helper, once created, acts on the same runtime, and a fault has been seen. */
    ghost predicate Valid()
      reads this, helper
    {
      helper != null ==> helper.rt == rt && helper.configFile == configFile && lastError.Some?
    }

    function State(): CoreState
      reads this, helper
    {
      CoreState(if helper == null then None else Some(helper.State()), lastError, callbackData, errorCallbacks, userCallbacks)
    }

    function Snapshot(): World
      reads this, helper, rt
    {
      World(State(), rt.State())
    }

    /** The registration with the runtime the source does here is not part of this model. */
    constructor (configFile: string, rt: Runtime)
      ensures this.configFile == configFile && this.rt == rt
      ensures Valid() && State() == InitialCore
    {
      this.configFile := configFile;
      this.rt := rt;
      helper := null;
      lastError := None;
      callbackData := map[];
      errorCallbacks := [];
      userCallbacks := [];
    }

    /** ErrorHandler::instance: the first call creates the singleton; every later call returns it. */
    static method Instance(statics: Statics, rt: Runtime, configFile: string) returns (eh: ErrorHandler)
      modifies statics
      ensures statics.instance == eh
      ensures old(statics.instance) != null ==> eh == old(statics.instance)
      ensures old(statics.instance) == null ==>
        fresh(eh) && eh.rt == rt && eh.configFile == configFile && eh.Valid() && eh.State() == InitialCore
    {
      if statics.instance == null {
        eh := new ErrorHandler(configFile, rt);
        statics.instance := eh;
      } else {
        eh := statics.instance;
      }
    }

    /** ErrorHandler::error: the error handler the runtime calls. */
    method Error(code: Level, message: string, file: string, line: int, env: Env) returns (handled: bool)
      requires Valid() && !rt.exited
      modifies this, rt, helper
      ensures Valid() && helper != null
      ensures old(helper) != null ==> helper == old(helper)
      ensures old(helper) == null ==> fresh(helper)
      ensures handled
      ensures Snapshot() == AfterException(old(Snapshot()), FromError(code, message, file, line), "", env)
    {
      Exception(FromError(code, message, file, line), "", "error", env);
      handled := true;
    }

    /**
     * ErrorHandler::exception. The source passes `logType` on as Helper::handle's
     * `$handler` parameter and drops `handler`, which Helper::handle does not take.
     */
    method Exception(e: Throwable, logType: string, handler: string, env: Env)
      requires Valid() && !rt.exited
      modifies this, rt, helper
      ensures Valid() && helper != null
      ensures old(helper) != null ==> helper == old(helper)
      ensures old(helper) == null ==> fresh(helper)
      ensures Snapshot() == AfterException(old(Snapshot()), e, logType, env)
    {
      lastError := Some(e);
      if helper == null {
        helper := new Helper(configFile, rt);
        helper.CreateConfigObject(env.config);
        if rt.exited {
          return;
        }
      }
      helper.Handle(e, logType, env.factory);
    }

    /** ErrorHandler::shutdown, with error_get_last() given as `last`. */
    method Shutdown(last: Option<LastError>, env: Env)
      requires Valid() && !rt.exited
      modifies this, rt, helper
      ensures Valid()
      ensures old(helper) != null ==> helper == old(helper)
      ensures old(helper) == null ==> helper == null || fresh(helper)
      ensures Snapshot() == AfterShutdown(old(Snapshot()), last, env)
    {
      if last.Some? {
        var e := ShutdownError(last.value);
        var inner := false;
        if helper != null {
          inner := helper.GetInnerShutdownFatal();
        }
        if inner {
          helper.Exception(Raw(lastError.value));
          helper.Exception(Raw(e));
        } else {
          Exception(e, "", "shutdown", env);
        }
        if rt.exited {
          return;
        }
      }
      if userCallbacks != [] {
        var _ := InvokeCallbacks(TheInterceptor, userCallbacks, None, env);
        if rt.exited {
          return;
        }
      }
      var escaped := InvokeDeferred(env);
      if escaped.Some? {
        // Uncaught in a shutdown function: a fatal error.
        rt.Die(escaped.value);
      }
    }

    /**
     * ErrorHandler::invokeDeferred: runs the deferred callbacks with the stored
     * data; nothing is drained. `escaped` is what it throws to its caller.
     */
    method InvokeDeferred(env: Env) returns (escaped: Option<Throwable>)
      requires Valid() && !rt.exited
      modifies this, rt, helper
      ensures Valid() && helper == old(helper)
      ensures escaped == DeferredEscape(old(Snapshot()).c)
      ensures Snapshot() == AfterInvokeDeferred(old(Snapshot()), env)
    {
      escaped := None;
      if errorCallbacks != [] {
        escaped := InvokeCallbacks(TheHelper, errorCallbacks, Some(callbackData), env);
      }
    }

    /** ErrorHandler::invokeCallbacks; `escaped` is what it throws to its caller. */
    method InvokeCallbacks(target: Target, callbacks: seq<Callback>, data: Option<CallbackData>, env: Env)
      returns (escaped: Option<Throwable>)
      requires Valid() && !rt.exited
      modifies this, rt, helper
      ensures Valid()
      ensures old(helper) != null ==> helper == old(helper)
      ensures old(helper) == null ==> helper == null || fresh(helper)
      ensures target == TheHelper ==> helper == old(helper)
      ensures escaped == Escape(old(Snapshot()).c, target, callbacks)
      ensures Snapshot() == AfterInvokeCallbacks(old(Snapshot()), target, callbacks, data, env)
    {
      escaped := None;
      if target == TheHelper && helper == null && callbacks != [] {
        // set_error_handler([null, 'error']) throws, null->exception() throws
        // again, and the finally block pops before the \Error leaves the loop.
        rt.RestoreErrorHandler();
        escaped := Some(NullHelperError);
        return;
      }
      ghost var start := Snapshot();
      var rest := callbacks;
      while rest != []
        invariant Valid() && !rt.exited
        invariant old(helper) != null ==> helper == old(helper)
        invariant old(helper) == null ==> helper == null || fresh(helper)
        invariant target == TheHelper ==> helper == old(helper)
        invariant target == TheHelper ==> helper != null || rest == []
        invariant InvokeFrom(Snapshot(), target, rest, data, env) == InvokeFrom(start, target, callbacks, data, env)
        decreases |rest|
      {
        CallFirst(target, rest, data, env);
        if rt.exited {
          return;
        }
        rest := rest[1..];
      }
    }

    /** The next iteration of the loop of ErrorHandler::invokeCallbacks, with `rest` the callbacks still to run. */
    method CallFirst(target: Target, rest: seq<Callback>, data: Option<CallbackData>, env: Env)
      requires Valid() && !rt.exited && rest != [] && (target == TheHelper ==> helper != null)
      modifies this, rt, helper
      ensures Valid()
      ensures old(helper) != null ==> helper == old(helper)
      ensures old(helper) == null ==> helper == null || fresh(helper)
      ensures target == TheHelper ==> helper == old(helper)
      ensures rt.exited ==> Snapshot() == InvokeFrom(old(Snapshot()), target, rest, data, env)
      ensures !rt.exited ==> InvokeFrom(Snapshot(), target, rest[1..], data, env) == InvokeFrom(old(Snapshot()), target, rest, data, env)
    {
      ghost var before := Snapshot();
      Call(target, rest[0], data, env);
      InvokeFromStep(before, target, rest, data, env, Snapshot());
    }

    /** One iteration of the loop of ErrorHandler::invokeCallbacks. */
    method Call(target: Target, cb: Callback, data: Option<CallbackData>, env: Env)
      requires Valid() && !rt.exited && (target == TheHelper ==> helper != null)
      modifies this, rt, helper
      ensures Valid()
      ensures old(helper) != null ==> helper == old(helper)
      ensures old(helper) == null ==> helper == null || fresh(helper)
      ensures target == TheHelper ==> helper == old(helper)
      ensures Snapshot() == AfterCall(old(Snapshot()), target, cb, data, env)
    {
      rt.SetErrorHandler(if target == TheHelper then HelperError else InterceptorError);
      rt.Record(CallbackRun(cb, data));
      Run(target, cb, data, env);
    }

    /** The try block and the finally block of one invokeCallbacks iteration, after the callback has been entered. */
    method Run(target: Target, cb: Callback, data: Option<CallbackData>, env: Env)
      requires Valid() && !rt.exited && (target == TheHelper ==> helper != null)
      modifies this, rt, helper
      ensures Valid()
      ensures old(helper) != null ==> helper == old(helper)
      ensures old(helper) == null ==> helper == null || fresh(helper)
      ensures target == TheHelper ==> helper == old(helper)
      ensures Snapshot() == AfterRun(old(Snapshot()), target, cb, data, env)
    {
      match env.callbacks(cb, data) {
        case Completes =>
        case CallbackFatal(t) =>
          rt.Die(t);
          return;
        case CallbackThrows(t) =>
          if target == TheHelper {
            helper.Exception(Raw(t));
          } else {
            Exception(t, "", "exception", env);
            if rt.exited {
              return;
            }
          }
      }
      rt.RestoreErrorHandler();
    }

    /** ErrorHandler::addErrorCallbackData. */
    method AddErrorCallbackData(key: string, value: Value)
      requires Valid()
      modifies this
      ensures Valid() && helper == old(helper)
      ensures State() == old(State()).(callbackData := AppendData(old(callbackData), key, value))
    {
      callbackData := AppendData(callbackData, key, value);
    }

    /** ErrorHandler::addErrorCallback. */
    method AddErrorCallback(callback: Callback)
      requires Valid()
      modifies this
      ensures Valid() && helper == old(helper)
      ensures State() == old(State()).(errorCallbacks := old(errorCallbacks) + [callback])
    {
      errorCallbacks := errorCallbacks + [callback];
    }

    /** ErrorHandler::addUserCallback. */
    method AddUserCallback(callback: Callback)
      requires Valid()
      modifies this
      ensures Valid() && helper == old(helper)
      ensures State() == old(State()).(userCallbacks := old(userCallbacks) + [callback])
    {
      userCallbacks := userCallbacks + [callback];
    }
  }

  /** Two calls of instance(): the same object, holding the first call's configuration file. */
  method InstanceTwice(statics: Statics, rt: Runtime, first: string, second: string) returns (a: ErrorHandler, b: ErrorHandler)
    requires statics.instance == null
    modifies statics
    ensures a == b && b.configFile == first
  {
    a := ErrorHandler.Instance(statics, rt, first);
    b := ErrorHandler.Instance(statics, rt, second);
  }
}
