/**
 * What the interceptor promises, proved about the transition functions of
 * CoreErrorHandler: the fault is handled exactly once with the configuration
 * built at most once; a configuration that failed stays failed; callbacks run
 * in registry order, the user callbacks with null before the deferred ones
 * with the stored data; invokeDeferred can be repeated; at shutdown a fault
 * that arrives while the guard flag is set bypasses exception().
 */
module ErrorHandlerProperties {
  import opened Values
  import opened Php
  import opened CoreHelper
  import opened CoreErrorHandler
  import opened HelperProperties

  /** The callback runs a stretch of trace shows, in order. */
  function Runs(s: seq<Event>): (r: seq<Event>)
    ensures |r| <= |s|
    ensures forall i :: 0 <= i < |r| ==> r[i].CallbackRun?
    decreases |s|
  {
    if s == [] then [] else (if s[0].CallbackRun? then [s[0]] else []) + Runs(s[1..])
  }

  /** `callbacks` run one after another, each given `data`. */
  function RunsOf(callbacks: seq<Callback>, data: Option<CallbackData>): seq<Event>
    decreases |callbacks|
  {
    if callbacks == [] then [] else [CallbackRun(callbacks[0], data)] + RunsOf(callbacks[1..], data)
  }

  predicate IsPrefix(a: seq<Event>, b: seq<Event>) {
    |a| <= |b| && b[..|a|] == a
  }

  lemma {:induction false} RunsAppend(a: seq<Event>, b: seq<Event>)
    ensures Runs(a + b) == Runs(a) + Runs(b)
    decreases |a|
  {
    if a == [] {
      assert [] + b == b;
    } else {
      assert (a + b)[0] == a[0];
      assert (a + b)[1..] == a[1..] + b;
      RunsAppend(a[1..], b);
    }
  }

  lemma {:induction false} NoRuns(s: seq<Event>)
    requires forall i :: 0 <= i < |s| ==> !s[i].CallbackRun?
    ensures Runs(s) == []
    decreases |s|
  {
    if s != [] {
      NoRuns(s[1..]);
    }
  }

  lemma {:induction false} PassEventsNoRuns(ns: seq<NotifierEntry>, eo: ErrorObject, factory: (string, ErrorObject) -> NotifierOutcome,
                                            n: nat)
    requires n <= |ns|
    ensures Runs(PassEvents(ns, eo, factory, n)) == []
    decreases n
  {
    if n > 0 {
      var tail := if AnyDies(ns, eo, factory, n - 1) then [] else EntryEvents(ns[n - 1], eo, factory);
      PassEventsNoRuns(ns, eo, factory, n - 1);
      NoRuns(tail);
      RunsAppend(PassEvents(ns, eo, factory, n - 1), tail);
    }
  }

  /** Handling a fault runs no callback. */
  lemma HandleEventsNoRuns(h: HelperState, e: Throwable, handler: string, factory: (string, ErrorObject) -> NotifierOutcome)
    ensures Runs(HandleEvents(h, e, handler, factory)) == []
  {
    var eo := ErrorObject(e, handler);
    if h.configObject.None? {
      NoRuns([SelfReport(Wrapped(eo))]);
    } else if Intersects(LevelOf(e), h.configObject.value.errorReporting) {
      var ns := h.configObject.value.notifiers;
      var tail: seq<Event> :=
        if !AnyDies(ns, eo, factory, |ns|) && (ExitRequested(ns, eo, factory) || Intersects(LevelOf(e), ForcedExitLevels)) then [Exited]
        else [];
      PassEventsNoRuns(ns, eo, factory, |ns|);
      NoRuns(tail);
      RunsAppend(PassEvents(ns, eo, factory, |ns|), tail);
    }
  }

  /** The helper a first fault creates, by what the configuration's construction does. */
  function CreatedHelper(outcome: ConfigOutcome): HelperState {
    match outcome
    case Built(mask, notifiers) => HelperState(Some(ConfigObject(mask, notifiers, None)), None, false)
    case ConstructionThrows(_) => HelperState(None, Some(SelfErrorHandler(false)), false)
    case ConstructionFatal(_) => HelperState(None, None, true)
  }

  /**
   * ErrorHandler::exception hands the fault to Helper::handle exactly once,
   * tagged with `logType`. An existing helper is reused and the configuration
   * is not built again; a first fault builds it, and when that construction
   * dies the fault is never handled and the guard flag stays set.
   */
  lemma ExceptionTrace(w: World, e: Throwable, logType: string, env: Env)
    requires !w.rt.exited
    ensures w.c.helper.Some? ==>
      AfterException(w, e, logType, env).rt.trace == w.rt.trace + HandleEvents(w.c.helper.value, e, logType, env.factory)
    ensures w.c.helper.None? && env.config.Built? ==>
      AfterException(w, e, logType, env).rt.trace == w.rt.trace + HandleEvents(CreatedHelper(env.config), e, logType, env.factory)
    ensures w.c.helper.None? && env.config.ConstructionThrows? ==>
      AfterException(w, e, logType, env).rt.trace ==
        w.rt.trace + [SelfReport(Raw(env.config.t)), SelfReport(Wrapped(ErrorObject(e, logType)))]
    ensures w.c.helper.None? && env.config.ConstructionFatal? ==>
      AfterException(w, e, logType, env).rt.trace == w.rt.trace + [Died(env.config.t)] &&
      AfterException(w, e, logType, env).rt.exited && AfterException(w, e, logType, env).c.helper.value.innerShutdownFatal
  {
    if w.c.helper.Some? {
      HandleTrace(Machine(w.c.helper.value, w.rt), e, logType, env.factory);
    } else {
      var m := AfterCreateConfig(Machine(InitialHelper, w.rt), env.config);
      assert m.h == CreatedHelper(env.config);
      if !env.config.ConstructionFatal? {
        HandleTrace(m, e, logType, env.factory);
      }
    }
  }

  /** With a helper in place, what building the configuration would do no longer matters: it is built at most once. */
  lemma ConfigBuiltOnce(w: World, e: Throwable, logType: string, env1: Env, env2: Env)
    requires w.c.helper.Some? && env1.factory == env2.factory
    ensures AfterException(w, e, logType, env1) == AfterException(w, e, logType, env2)
  {
  }

  /** Neither exception() nor what it calls runs a callback. */
  lemma ExceptionRunsNothing(w: World, e: Throwable, logType: string, env: Env)
    requires !w.rt.exited
    ensures Runs(AfterException(w, e, logType, env).rt.trace) == Runs(w.rt.trace)
  {
    var r := AfterException(w, e, logType, env);
    ExceptionTrace(w, e, logType, env);
    if w.c.helper.Some? {
      HandleEventsNoRuns(w.c.helper.value, e, logType, env.factory);
      RunsAppend(w.rt.trace, HandleEvents(w.c.helper.value, e, logType, env.factory));
    } else {
      match env.config
      case Built(_, _) =>
        HandleEventsNoRuns(CreatedHelper(env.config), e, logType, env.factory);
        RunsAppend(w.rt.trace, HandleEvents(CreatedHelper(env.config), e, logType, env.factory));
      case ConstructionThrows(t) =>
        NoRuns([SelfReport(Raw(t)), SelfReport(Wrapped(ErrorObject(e, logType)))]);
        RunsAppend(w.rt.trace, [SelfReport(Raw(t)), SelfReport(Wrapped(ErrorObject(e, logType)))]);
      case ConstructionFatal(t) =>
        NoRuns([Died(t)]);
        RunsAppend(w.rt.trace, [Died(t)]);
    }
  }

  /** The guard flag outlives exception() only when the call died inside a guarded region. */
  lemma InnerFlagOnlyByDeath(w: World, e: Throwable, logType: string, env: Env)
    requires !w.rt.exited && (w.c.helper.Some? ==> !w.c.helper.value.innerShutdownFatal)
    ensures AfterException(w, e, logType, env).c.helper.value.innerShutdownFatal ==> AfterException(w, e, logType, env).rt.exited
  {
    if w.c.helper.Some? {
      HandleFlag(Machine(w.c.helper.value, w.rt), e, logType, env.factory);
    } else {
      var m := AfterCreateConfig(Machine(InitialHelper, w.rt), env.config);
      if !m.rt.exited {
        HandleFlag(m, e, logType, env.factory);
      }
    }
  }

  /** A run of errors passed to ErrorHandler::error, each as the \ErrorException it builds; exit or a fatal error ends it. */
  function AfterErrors(w: World, es: seq<Throwable>, env: Env): World
    decreases |es|
  {
    if es == [] || w.rt.exited then w else AfterErrors(AfterException(w, es[0], "", env), es[1..], env)
  }

  /** Each fault reported wrapped, with the empty tag error() passes on, in order. */
  function WrappedReports(es: seq<Throwable>): seq<Event>
    decreases |es|
  {
    if es == [] then [] else [SelfReport(Wrapped(ErrorObject(es[0], "")))] + WrappedReports(es[1..])
  }

  /**
   * Once the configuration has failed it stays failed: every later fault goes
   * to the self error handler, wrapped, once, and nothing is notified, exits or
   * is left on the handler stack.
   */
  lemma {:induction false} BrokenConfigStaysBroken(w: World, es: seq<Throwable>, env: Env)
    requires !w.rt.exited && w.c.helper.Some? && w.c.helper.value.configObject.None?
    ensures AfterErrors(w, es, env).rt.trace == w.rt.trace + WrappedReports(es)
    ensures !AfterErrors(w, es, env).rt.exited && AfterErrors(w, es, env).rt.handlers == w.rt.handlers
    ensures AfterErrors(w, es, env).c.helper.Some? && AfterErrors(w, es, env).c.helper.value.configObject.None?
    decreases |es|
  {
    if es != [] {
      var w1 := AfterException(w, es[0], "", env);
      HandleEndsIff(Machine(w.c.helper.value, w.rt), es[0], "", env.factory);
      ExceptionTrace(w, es[0], "", env);
      assert w1.rt.trace == w.rt.trace + [SelfReport(Wrapped(ErrorObject(es[0], "")))];
      assert !w1.rt.exited;
      BrokenConfigStaysBroken(w1, es[1..], env);
    }
  }

  /** After the callback has been entered, nothing more in its iteration runs a callback. */
  lemma RunRunsNothing(w: World, target: Target, cb: Callback, data: Option<CallbackData>, env: Env)
    requires !w.rt.exited && (target == TheHelper ==> w.c.helper.Some?)
    ensures Runs(AfterRun(w, target, cb, data, env).rt.trace) == Runs(w.rt.trace)
  {
    match env.callbacks(cb, data)
    case Completes =>
    case CallbackFatal(t) =>
      NoRuns([Died(t)]);
      RunsAppend(w.rt.trace, [Died(t)]);
    case CallbackThrows(t) =>
      if target == TheHelper {
        NoRuns([SelfReport(Raw(t))]);
        RunsAppend(w.rt.trace, [SelfReport(Raw(t))]);
      } else {
        ExceptionRunsNothing(w, t, "", env);
      }
  }

  /** One iteration of invokeCallbacks shows exactly one callback run, its own, however the callback ends. */
  lemma CallRuns(w: World, target: Target, cb: Callback, data: Option<CallbackData>, env: Env)
    requires !w.rt.exited && (target == TheHelper ==> w.c.helper.Some?)
    ensures Runs(AfterCall(w, target, cb, data, env).rt.trace) == Runs(w.rt.trace) + [CallbackRun(cb, data)]
  {
    var entered := Recorded(Push(w.rt, if target == TheHelper then HelperError else InterceptorError), CallbackRun(cb, data));
    RunsAppend(w.rt.trace, [CallbackRun(cb, data)]);
    assert Runs([CallbackRun(cb, data)]) == [CallbackRun(cb, data)];
    RunRunsNothing(World(w.c, entered), target, cb, data, env);
  }

  /**
   * invokeCallbacks runs the callbacks in registry order, each with `data`; a
   * callback that throws does not stop the rest, so when the loop is not cut
   * short every callback runs.
   */
  lemma {:induction false} InvokeRunsAll(w: World, target: Target, callbacks: seq<Callback>, data: Option<CallbackData>, env: Env)
    requires !w.rt.exited && (target == TheHelper ==> w.c.helper.Some?) && !InvokeFrom(w, target, callbacks, data, env).rt.exited
    ensures Runs(InvokeFrom(w, target, callbacks, data, env).rt.trace) == Runs(w.rt.trace) + RunsOf(callbacks, data)
    decreases |callbacks|
  {
    if callbacks == [] {
      assert Runs(w.rt.trace) + [] == Runs(w.rt.trace);
    } else {
      var w1 := AfterCall(w, target, callbacks[0], data, env);
      InvokeFromStep(w, target, callbacks, data, env, w1);
      CallRunsLive(w, target, callbacks[0], data, env);
      InvokeRunsAll(w1, target, callbacks[1..], data, env);
      AppendAssociative(Runs(w.rt.trace), [CallbackRun(callbacks[0], data)], RunsOf(callbacks[1..], data));
    }
  }

  lemma CallRunsLive(w: World, target: Target, cb: Callback, data: Option<CallbackData>, env: Env)
    requires !w.rt.exited && (target == TheHelper ==> w.c.helper.Some?) && !AfterCall(w, target, cb, data, env).rt.exited
    ensures Runs(AfterCall(w, target, cb, data, env).rt.trace) == Runs(w.rt.trace) + [CallbackRun(cb, data)]
  {
    CallRuns(w, target, cb, data, env);
  }

  /** One iteration of invokeCallbacks shows at most the run of its own callback. */
  lemma CallRunsBounded(w: World, target: Target, cb: Callback, data: Option<CallbackData>, env: Env)
    requires !w.rt.exited && (target == TheHelper ==> w.c.helper.Some?)
    ensures IsPrefix(Runs(w.rt.trace), Runs(AfterCall(w, target, cb, data, env).rt.trace))
    ensures IsPrefix(Runs(AfterCall(w, target, cb, data, env).rt.trace), Runs(w.rt.trace) + [CallbackRun(cb, data)])
  {
    CallRuns(w, target, cb, data, env);
  }

  lemma PrefixTransitive(a: seq<Event>, b: seq<Event>, c: seq<Event>)
    requires IsPrefix(a, b) && IsPrefix(b, c)
    ensures IsPrefix(a, c)
  {
    assert c[..|a|] == c[..|b|][..|a|];
  }

  /** However invokeCallbacks ends, the runs shown before it are still there. */
  lemma {:induction false} InvokeRunsGrow(w: World, target: Target, callbacks: seq<Callback>, data: Option<CallbackData>, env: Env)
    requires !w.rt.exited && (target == TheHelper ==> w.c.helper.Some?)
    ensures IsPrefix(Runs(w.rt.trace), Runs(InvokeFrom(w, target, callbacks, data, env).rt.trace))
    decreases |callbacks|
  {
    if callbacks != [] {
      var w1 := AfterCall(w, target, callbacks[0], data, env);
      CallRunsBounded(w, target, callbacks[0], data, env);
      InvokeFromStep(w, target, callbacks, data, env, w1);
      if !w1.rt.exited {
        InvokeRunsGrow(w1, target, callbacks[1..], data, env);
        PrefixTransitive(Runs(w.rt.trace), Runs(w1.rt.trace), Runs(InvokeFrom(w1, target, callbacks[1..], data, env).rt.trace));
      }
    }
  }

  /** Whatever cuts invokeCallbacks short, the runs it shows are a prefix of the registry order. */
  lemma {:induction false} InvokeRunsPrefix(w: World, target: Target, callbacks: seq<Callback>, data: Option<CallbackData>, env: Env)
    requires !w.rt.exited && (target == TheHelper ==> w.c.helper.Some?)
    ensures IsPrefix(Runs(InvokeFrom(w, target, callbacks, data, env).rt.trace), Runs(w.rt.trace) + RunsOf(callbacks, data))
    decreases |callbacks|
  {
    if callbacks == [] {
      assert Runs(w.rt.trace) + [] == Runs(w.rt.trace);
    } else {
      var w1 := AfterCall(w, target, callbacks[0], data, env);
      var run := [CallbackRun(callbacks[0], data)];
      var rest := RunsOf(callbacks[1..], data);
      AppendAssociative(Runs(w.rt.trace), run, rest);
      InvokeFromStep(w, target, callbacks, data, env, w1);
      if w1.rt.exited {
        CallRunsBounded(w, target, callbacks[0], data, env);
        PrefixExtend(Runs(w1.rt.trace), Runs(w.rt.trace) + run, rest);
      } else {
        CallRunsLive(w, target, callbacks[0], data, env);
        InvokeRunsPrefix(w1, target, callbacks[1..], data, env);
      }
    }
  }

  /** What one callback adds to the trace when the helper is the handler: exceptions go to the self error handler. */
  function HelperCallEvents(cb: Callback, data: Option<CallbackData>, env: Env): seq<Event> {
    match env.callbacks(cb, data)
    case Completes => [CallbackRun(cb, data)]
    case CallbackThrows(t) => [CallbackRun(cb, data), SelfReport(Raw(t))]
    case CallbackFatal(t) => [CallbackRun(cb, data), Died(t)]
  }

  /** What invokeCallbacks with the helper as handler adds to the trace, callback after callback up to the first that dies. */
  function HelperRunEvents(callbacks: seq<Callback>, data: Option<CallbackData>, env: Env): seq<Event>
    decreases |callbacks|
  {
    if callbacks == [] then []
    else
      HelperCallEvents(callbacks[0], data, env) +
      if env.callbacks(callbacks[0], data).CallbackFatal? then [] else HelperRunEvents(callbacks[1..], data, env)
  }

  /** One iteration of invokeCallbacks with the helper in place as handler. */
  lemma HelperCallTrace(w: World, cb: Callback, data: Option<CallbackData>, env: Env)
    requires !w.rt.exited && w.c.helper.Some?
    ensures AfterCall(w, TheHelper, cb, data, env).rt.trace == w.rt.trace + HelperCallEvents(cb, data, env)
    ensures AfterCall(w, TheHelper, cb, data, env).rt.exited <==> env.callbacks(cb, data).CallbackFatal?
  {
  }

  /**
   * One iteration of invokeCallbacks for the interceptor's own callbacks, with
   * a helper in place: a throwing callback is passed once to
   * ErrorHandler::exception, so the fault becomes the last error and the trace
   * gains the run and then exactly one Helper::handle of the throwable.
   */
  lemma InterceptorThrowTrace(w: World, cb: Callback, data: Option<CallbackData>, env: Env)
    requires !w.rt.exited && w.c.helper.Some? && env.callbacks(cb, data).CallbackThrows?
    ensures AfterCall(w, TheInterceptor, cb, data, env).c.lastError == Some(env.callbacks(cb, data).t)
    ensures AfterCall(w, TheInterceptor, cb, data, env).rt.trace ==
      w.rt.trace + [CallbackRun(cb, data)] + HandleEvents(w.c.helper.value, env.callbacks(cb, data).t, "", env.factory)
  {
    var entered := Recorded(Push(w.rt, InterceptorError), CallbackRun(cb, data));
    ExceptionTrace(World(w.c, entered), env.callbacks(cb, data).t, "", env);
  }

  predicate SomeCallbackDies(callbacks: seq<Callback>, data: Option<CallbackData>, env: Env) {
    exists i :: 0 <= i < |callbacks| && env.callbacks(callbacks[i], data).CallbackFatal?
  }

  lemma SomeCallbackDiesCons(callbacks: seq<Callback>, data: Option<CallbackData>, env: Env)
    requires callbacks != []
    ensures SomeCallbackDies(callbacks, data, env) <==>
      env.callbacks(callbacks[0], data).CallbackFatal? || SomeCallbackDies(callbacks[1..], data, env)
  {
    if SomeCallbackDies(callbacks, data, env) {
      var i :| 0 <= i < |callbacks| && env.callbacks(callbacks[i], data).CallbackFatal?;
      if i > 0 {
        assert callbacks[1..][i - 1] == callbacks[i];
      }
    }
    if SomeCallbackDies(callbacks[1..], data, env) {
      var i :| 0 <= i < |callbacks[1..]| && env.callbacks(callbacks[1..][i], data).CallbackFatal?;
      assert callbacks[i + 1] == callbacks[1..][i];
    }
  }

  /**
   * With the helper as handler, invokeCallbacks adds exactly HelperRunEvents
   * and ends the script only when a callback dies.
   */
  lemma {:induction false} HelperInvokeTrace(w: World, callbacks: seq<Callback>, data: Option<CallbackData>, env: Env)
    requires !w.rt.exited && w.c.helper.Some?
    ensures InvokeFrom(w, TheHelper, callbacks, data, env).rt.trace == w.rt.trace + HelperRunEvents(callbacks, data, env)
    ensures InvokeFrom(w, TheHelper, callbacks, data, env).rt.exited <==> SomeCallbackDies(callbacks, data, env)
    decreases |callbacks|
  {
    if callbacks != [] {
      var w1 := AfterCall(w, TheHelper, callbacks[0], data, env);
      HelperCallTrace(w, callbacks[0], data, env);
      SomeCallbackDiesCons(callbacks, data, env);
      InvokeFromStep(w, TheHelper, callbacks, data, env, w1);
      if !w1.rt.exited {
        HelperInvokeTrace(w1, callbacks[1..], data, env);
        AppendAssociative(w.rt.trace, HelperCallEvents(callbacks[0], data, env), HelperRunEvents(callbacks[1..], data, env));
      }
    }
  }

  /** With the helper as handler, invokeCallbacks leaves the configuration and the guard flag as they were. */
  lemma {:induction false} HelperInvokeKeepsHelper(w: World, callbacks: seq<Callback>, data: Option<CallbackData>, env: Env)
    requires w.c.helper.Some?
    ensures InvokeFrom(w, TheHelper, callbacks, data, env).c.helper.value.configObject == w.c.helper.value.configObject
    ensures InvokeFrom(w, TheHelper, callbacks, data, env).c.helper.value.innerShutdownFatal == w.c.helper.value.innerShutdownFatal
    decreases |callbacks|
  {
    if callbacks != [] {
      var w1 := AfterCall(w, TheHelper, callbacks[0], data, env);
      InvokeFromStep(w, TheHelper, callbacks, data, env, w1);
      if !w1.rt.exited {
        HelperInvokeKeepsHelper(w1, callbacks[1..], data, env);
      }
    }
  }

  /** The events one invokeDeferred adds: the deferred callbacks run with the stored data. */
  function DeferredEvents(c: CoreState, env: Env): seq<Event> {
    if c.errorCallbacks == [] then [] else HelperRunEvents(c.errorCallbacks, Some(c.callbackData), env)
  }

  /**
   * invokeDeferred drains nothing: the registry and the data stay, and a second
   * call runs the same callbacks on the same data, adding the same events.
   */
  lemma DeferredRepeatable(w: World, env: Env)
    requires !w.rt.exited && w.c.helper.Some?
    ensures AfterInvokeDeferred(w, env).c.errorCallbacks == w.c.errorCallbacks
    ensures AfterInvokeDeferred(w, env).c.callbackData == w.c.callbackData
    ensures AfterInvokeDeferred(w, env).rt.trace == w.rt.trace + DeferredEvents(w.c, env)
    ensures !AfterInvokeDeferred(w, env).rt.exited ==>
      AfterInvokeDeferred(AfterInvokeDeferred(w, env), env).rt.trace == AfterInvokeDeferred(w, env).rt.trace + DeferredEvents(w.c, env)
  {
    var w1 := AfterInvokeDeferred(w, env);
    if w.c.errorCallbacks != [] {
      HelperInvokeTrace(w, w.c.errorCallbacks, Some(w.c.callbackData), env);
      if !w1.rt.exited {
        HelperInvokeTrace(w1, w1.c.errorCallbacks, Some(w1.c.callbackData), env);
      }
    }
  }

  /**
   * invokeDeferred before any fault has created the helper, with callbacks
   * registered: set_error_handler rejects the missing handler, the catch block
   * calls exception() on null, and the finally block pops a handler before
   * the second \Error leaves invokeDeferred, no callback having run. Called
   * directly, the script goes on with that \Error in the caller's hands and
   * one handler fewer; called from shutdown, the \Error is uncaught there and
   * ends the script.
   */
  lemma DeferredWithoutHelper(w: World, env: Env)
    requires !w.rt.exited && w.c.helper.None? && w.c.errorCallbacks != []
    ensures DeferredEscape(w.c) == Some(NullHelperError)
    ensures AfterInvokeDeferred(w, env).c == w.c && !AfterInvokeDeferred(w, env).rt.exited
    ensures AfterInvokeDeferred(w, env).rt.trace == w.rt.trace
    ensures AfterInvokeDeferred(w, env).rt.handlers == Pop(w.rt).handlers
    ensures AfterShutdownDeferred(w, env).rt.exited
    ensures AfterShutdownDeferred(w, env).rt.trace == w.rt.trace + [Died(NullHelperError)]
  {
  }

  /**
   * The fault part of shutdown: while the guard flag is set, the self error
   * handler gets the last fault and then the new one, and exception() is not
   * entered (the last fault stays what it was); otherwise the new fault goes
   * through exception() tagged with the empty logType.
   */
  lemma ShutdownFaultRoute(w: World, el: LastError, env: Env)
    requires w.c.helper.Some? ==> w.c.lastError.Some?
    ensures w.c.helper.Some? && w.c.helper.value.innerShutdownFatal ==>
      AfterShutdownFault(w, Some(el), env).rt ==
        w.rt.(trace := w.rt.trace + [SelfReport(Raw(w.c.lastError.value)), SelfReport(Raw(ShutdownError(el)))]) &&
      AfterShutdownFault(w, Some(el), env).c.lastError == w.c.lastError &&
      AfterShutdownFault(w, Some(el), env).c.helper.value.configObject == w.c.helper.value.configObject
    ensures !(w.c.helper.Some? && w.c.helper.value.innerShutdownFatal) ==>
      AfterShutdownFault(w, Some(el), env) == AfterException(w, ShutdownError(el), "", env)
  {
  }

  /** The fault part of shutdown runs no callback. */
  lemma ShutdownFaultRunsNothing(w: World, last: Option<LastError>, env: Env)
    requires !w.rt.exited && (w.c.helper.Some? ==> w.c.lastError.Some?)
    ensures Runs(AfterShutdownFault(w, last, env).rt.trace) == Runs(w.rt.trace)
  {
    if last.Some? {
      var e := ShutdownError(last.value);
      if w.c.helper.Some? && w.c.helper.value.innerShutdownFatal {
        var reports := [SelfReport(Raw(w.c.lastError.value)), SelfReport(Raw(e))];
        assert AfterShutdownFault(w, last, env).rt.trace == w.rt.trace + reports;
        NoRuns(reports);
        RunsAppend(w.rt.trace, reports);
      } else {
        ExceptionRunsNothing(w, e, "", env);
      }
    }
  }

  lemma PrefixExtend(a: seq<Event>, b: seq<Event>, c: seq<Event>)
    requires IsPrefix(a, b)
    ensures IsPrefix(a, b + c)
  {
    assert (b + c)[..|a|] == b[..|a|];
  }

  /**
   * One invokeCallbacks over a registry: the runs shown so far stay, the new
   * ones are a prefix of the registry in order, and all of it when nothing
   * ended the script.
   */
  predicate RunsStage(before: seq<Event>, after: World, planned: seq<Event>) {
    IsPrefix(before, Runs(after.rt.trace)) && IsPrefix(Runs(after.rt.trace), before + planned) &&
    (!after.rt.exited ==> Runs(after.rt.trace) == before + planned)
  }

  lemma InvokeStage(w: World, target: Target, callbacks: seq<Callback>, data: Option<CallbackData>, env: Env)
    requires !w.rt.exited && (target == TheHelper ==> w.c.helper.Some?)
    ensures RunsStage(Runs(w.rt.trace), InvokeFrom(w, target, callbacks, data, env), RunsOf(callbacks, data))
  {
    InvokeRunsGrow(w, target, callbacks, data, env);
    InvokeRunsPrefix(w, target, callbacks, data, env);
    if !InvokeFrom(w, target, callbacks, data, env).rt.exited {
      InvokeRunsAll(w, target, callbacks, data, env);
    }
  }

  lemma EmptyStage(w: World, callbacks: seq<Callback>, data: Option<CallbackData>)
    requires callbacks == []
    ensures RunsStage(Runs(w.rt.trace), w, RunsOf(callbacks, data))
  {
    assert Runs(w.rt.trace) + [] == Runs(w.rt.trace);
  }

  /** The user-callback step of shutdown runs the user callbacks, with null, in registry order. */
  lemma UserStage(f: World, env: Env)
    requires !f.rt.exited
    ensures RunsStage(Runs(f.rt.trace), AfterUserCallbacks(f, env), RunsOf(f.c.userCallbacks, None))
  {
    if f.c.userCallbacks != [] {
      InvokeStage(f, TheInterceptor, f.c.userCallbacks, None, env);
    } else {
      EmptyStage(f, f.c.userCallbacks, None);
    }
  }

  /**
   * The invokeDeferred step of shutdown runs the deferred callbacks, with the
   * stored data, in registry order; with no helper it runs none and dies.
   */
  lemma DeferredStage(u: World, env: Env)
    requires !u.rt.exited
    ensures RunsStage(Runs(u.rt.trace), AfterShutdownDeferred(u, env), RunsOf(u.c.errorCallbacks, Some(u.c.callbackData)))
  {
    if DeferredEscape(u.c).Some? {
      NoRuns([Died(NullHelperError)]);
      RunsAppend(u.rt.trace, [Died(NullHelperError)]);
      PrefixExtend(Runs(u.rt.trace), Runs(u.rt.trace), RunsOf(u.c.errorCallbacks, Some(u.c.callbackData)));
    } else if u.c.errorCallbacks != [] {
      InvokeStage(u, TheHelper, u.c.errorCallbacks, Some(u.c.callbackData), env);
    } else {
      EmptyStage(u, u.c.errorCallbacks, Some(u.c.callbackData));
    }
  }

  /** Two stages one after the other make one stage with both plans. */
  lemma StagesCompose(before: seq<Event>, mid: World, planned1: seq<Event>, after: World, planned2: seq<Event>)
    requires RunsStage(before, mid, planned1)
    requires !mid.rt.exited ==> RunsStage(Runs(mid.rt.trace), after, planned2)
    requires mid.rt.exited ==> after == mid
    ensures RunsStage(before, after, planned1 + planned2)
  {
    AppendAssociative(before, planned1, planned2);
    if mid.rt.exited {
      PrefixExtend(Runs(mid.rt.trace), before + planned1, planned2);
    } else {
      PrefixTransitive(before, Runs(mid.rt.trace), Runs(after.rt.trace));
    }
  }

  /**
   * A shutdown with no last error and both registries empty changes nothing:
   * each registry is invoked only when it is non-empty, so a process that saw
   * no fault, and thus has no helper, is not handed to `[null, 'error']`.
   */
  lemma QuietShutdown(w: World, env: Env)
    requires w.c.helper.Some? ==> w.c.lastError.Some?
    requires w.c.userCallbacks == [] && w.c.errorCallbacks == []
    ensures AfterShutdown(w, None, env) == w
  {
  }

  /**
   * ErrorHandler::shutdown runs every user callback, with null, before any
   * deferred callback, each of those with the stored data, all in registry
   * order. What the trace shows is a prefix of that order, and all of it when
   * nothing ended the script.
   */
  lemma ShutdownOrder(w: World, last: Option<LastError>, env: Env)
    requires !w.rt.exited && (w.c.helper.Some? ==> w.c.lastError.Some?)
    ensures RunsStage(Runs(w.rt.trace), AfterShutdown(w, last, env),
                      RunsOf(w.c.userCallbacks, None) + RunsOf(w.c.errorCallbacks, Some(w.c.callbackData)))
  {
    var user := RunsOf(w.c.userCallbacks, None);
    var deferred := RunsOf(w.c.errorCallbacks, Some(w.c.callbackData));
    var f := AfterShutdownFault(w, last, env);
    ShutdownFaultRunsNothing(w, last, env);
    if f.rt.exited {
      assert AfterShutdown(w, last, env) == f;
      PrefixExtend(Runs(w.rt.trace), Runs(w.rt.trace), user + deferred);
    } else {
      var u := AfterUserCallbacks(f, env);
      UserStage(f, env);
      if !u.rt.exited {
        DeferredStage(u, env);
      }
      StagesCompose(Runs(w.rt.trace), u, user, AfterShutdown(w, last, env), deferred);
    }
  }

  /**
   * A configuration file that dies while it loads: the fault is never handled
   * and the guard flag stays set, so at shutdown the self error handler gets
   * that fault and then the one error_get_last() reports.
   */
  lemma FatalConfigReachesShutdown(w: World, e: Throwable, logType: string, t: Throwable, el: LastError, env: Env, later: Env)
    requires !w.rt.exited && w.c.helper.None? && env.config == ConstructionFatal(t)
    ensures AfterException(w, e, logType, env).rt.exited
    ensures AfterException(w, e, logType, env).rt.trace == w.rt.trace + [Died(t)]
    ensures AfterShutdownFault(World(AfterException(w, e, logType, env).c, AfterException(w, e, logType, env).rt.(exited := false)),
                               Some(el), later).rt.trace ==
      w.rt.trace + [Died(t), SelfReport(Raw(e)), SelfReport(Raw(ShutdownError(el)))]
  {
    var w1 := AfterException(w, e, logType, env);
    ExceptionTrace(w, e, logType, env);
    var w2 := World(w1.c, w1.rt.(exited := false));
    ShutdownFaultRoute(w2, el, later);
  }
}
