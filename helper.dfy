/**
 * The second half of the controller (src/Core/Helper.php): it builds the
 * configuration once, under a guard flag, decides what happens to a fault,
 * runs the ordered notifier loop and reports its own failures to the
 * self error handler.
 *
 * Each operation is given twice: as a transition function `After...` on
 * the helper's state and the runtime's, and as a method of class Helper
 * whose postcondition ties the new state to that function.
 */
module CoreHelper {
  import opened Values
  import opened Php

  /** SelfErrorHandler, created on the first internal report; whether a configuration was present then. */
  datatype SelfErrorHandler = SelfErrorHandler(configured: bool)

  datatype HelperState = HelperState(
    configObject: Option<ConfigObject>,
    selfErrorHandler: Option<SelfErrorHandler>,
    innerShutdownFatal: bool)

  /** A helper together with the runtime it acts on. */
  datatype Machine = Machine(h: HelperState, rt: RuntimeState)

  const InitialHelper := HelperState(None, None, false)

  const AbstractNotifierClass := "Peraleks\\ErrorHandler\\Notifiers\\AbstractNotifier"

  /** Where the trigger_error call of the notifier loop stands. */
  const HelperFile := "src/Core/Helper.php"
  const TriggerLine := 163

  /** What Helper::error builds from the E_USER_ERROR raised for a class that is not a notifier. */
  function NotAbstractError(cls: string): (r: Throwable)
    ensures r.ErrorException? && r.code == E_USER_ERROR && r.severity == E_USER_ERROR && LevelOf(r) == E_USER_ERROR
    ensures r.message == cls + " must extend " + AbstractNotifierClass && r.file == HelperFile && r.line == TriggerLine
  {
    FromError(E_USER_ERROR, cls + " must extend " + AbstractNotifierClass, HelperFile, TriggerLine)
  }

  function Note(m: Machine, e: Event): Machine {
    Machine(m.h, Recorded(m.rt, e))
  }

  /** The finally block of a bracketed region: restore_error_handler(). */
  function Restore(m: Machine): Machine {
    Machine(m.h, Pop(m.rt))
  }

  /** Helper::exception: create the self error handler the first time, then report to it. */
  function AfterReport(m: Machine, item: Reportable): (r: Machine)
    ensures r.h.selfErrorHandler.Some?
    ensures m.h.selfErrorHandler.Some? ==> r.h.selfErrorHandler == m.h.selfErrorHandler
    ensures m.h.selfErrorHandler.None? ==> r.h.selfErrorHandler.value.configured == m.h.configObject.Some?
    ensures r.h.configObject == m.h.configObject && r.h.innerShutdownFatal == m.h.innerShutdownFatal
    ensures r.rt.trace == m.rt.trace + [SelfReport(item)]
    ensures r.rt.handlers == m.rt.handlers && r.rt.exited == m.rt.exited
  {
    var self := if m.h.selfErrorHandler.Some? then m.h.selfErrorHandler else Some(SelfErrorHandler(m.h.configObject.Some?));
    Machine(m.h.(selfErrorHandler := self), Recorded(m.rt, SelfReport(item)))
  }

  /** Helper::createConfigObject. */
  function AfterCreateConfig(m: Machine, outcome: ConfigOutcome): (r: Machine)
    ensures outcome.ConstructionFatal? ==> r.h.innerShutdownFatal && r.rt.exited
    ensures !outcome.ConstructionFatal? ==>
      !r.h.innerShutdownFatal && r.rt.handlers == m.rt.handlers && r.rt.exited == m.rt.exited
    ensures r.h.configObject ==
      if outcome.Built? then Some(ConfigObject(outcome.errorReporting, outcome.notifiers, None)) else m.h.configObject
    ensures r.rt.trace == m.rt.trace +
      match outcome
      case Built(_, _) => []
      case ConstructionThrows(t) => [SelfReport(Raw(t))]
      case ConstructionFatal(t) => [Died(t)]
  {
    var guarded := Machine(m.h.(innerShutdownFatal := true), Push(m.rt, HelperError));
    var done :=
      match outcome
      case Built(mask, notifiers) =>
        Machine(guarded.h.(configObject := Some(ConfigObject(mask, notifiers, None))), guarded.rt)
      case ConstructionThrows(t) => AfterReport(guarded, Raw(t))
      case ConstructionFatal(t) => Machine(guarded.h, AfterFatal(guarded.rt, t));
    if outcome.ConstructionFatal? then done
    else
      var restored := Restore(done);
      Machine(restored.h.(innerShutdownFatal := false), restored.rt)
  }

  /** The state, and the value of `$exit`, part-way through one notifier pass. */
  datatype Pass = Pass(m: Machine, exit: Option<bool>)

  /**
   * The body of the try block of one notifier-loop iteration, for a notifier
   * whose mask lets it act: construct it, call notify(), report what goes
   * wrong; the finally block pops the handler unless notify() died.
   */
  function Reached(p: Pass, entry: NotifierEntry, eo: ErrorObject, factory: (string, ErrorObject) -> NotifierOutcome): (r: Pass)
    ensures r.m.h.configObject == p.m.h.configObject && r.m.h.innerShutdownFatal == p.m.h.innerShutdownFatal
    ensures !r.m.rt.exited ==> r.m.rt.handlers == Pop(p.m.rt).handlers && r.m.rt.exited == p.m.rt.exited
  {
    var m := p.m;
    var built := Note(m, NotifierConstructed(entry.cls, eo));
    match factory(entry.cls, eo)
    case ConstructorThrows(t) =>
      Pass(Restore(AfterReport(AfterReport(m, Wrapped(eo)), Raw(t))), p.exit)
    case NotAbstractNotifier =>
      Pass(Restore(AfterReport(built, Raw(NotAbstractError(entry.cls)))), p.exit)
    case NotifyThrows(t) =>
      var called := Note(built, NotifierNotified(entry.cls));
      Pass(Restore(AfterReport(AfterReport(called, Wrapped(eo)), Raw(t))), p.exit)
    case Returns(b) =>
      Pass(Restore(Note(built, NotifierNotified(entry.cls))), Some(b))
    case NotifyFatal(t) =>
      var called := Note(built, NotifierNotified(entry.cls));
      Pass(Machine(called.h, AfterFatal(called.rt, t)), p.exit)
  }

  /**
   * One iteration of the notifier loop of Helper::notify: the cursor moves to
   * the notifier and the internal handler is pushed; a notifier whose mask
   * excludes the fault is skipped.
   */
  function Visit(p: Pass, entry: NotifierEntry, eo: ErrorObject, factory: (string, ErrorObject) -> NotifierOutcome): (r: Pass)
    requires p.m.h.configObject.Some?
    ensures r.m.h.configObject.Some?
    ensures r.m.h.configObject.value.errorReporting == p.m.h.configObject.value.errorReporting
    ensures r.m.h.configObject.value.notifiers == p.m.h.configObject.value.notifiers
    ensures r.m.h.innerShutdownFatal == p.m.h.innerShutdownFatal
    ensures !r.m.rt.exited ==> r.m.rt.handlers == p.m.rt.handlers && r.m.rt.exited == p.m.rt.exited
  {
    var cfg := p.m.h.configObject.value;
    var m := Machine(p.m.h.(configObject := Some(cfg.(notifierClass := Some(entry.cls)))), Push(p.m.rt, HelperError));
    if !Intersects(entry.enabled, eo.Code()) then Pass(Restore(m), p.exit)
    else Reached(Pass(m, p.exit), entry, eo, factory)
  }

  /** The notifier loop after its first `n` iterations, left-to-right; a fatal error ends it. */
  function NotifyUpTo(start: Machine, eo: ErrorObject, factory: (string, ErrorObject) -> NotifierOutcome,
                      notifiers: seq<NotifierEntry>, n: nat): (p: Pass)
    requires n <= |notifiers| && start.h.configObject.Some?
    ensures p.m.h.configObject.Some?
    ensures p.m.h.configObject.value.errorReporting == start.h.configObject.value.errorReporting
    ensures p.m.h.configObject.value.notifiers == start.h.configObject.value.notifiers
    ensures p.m.h.innerShutdownFatal == start.h.innerShutdownFatal
    ensures !p.m.rt.exited ==> p.m.rt.handlers == start.rt.handlers && !start.rt.exited
    decreases n, 1
  {
    if n == 0 then Pass(start, None) else NotifyIteration(start, eo, factory, notifiers, n)
  }

  /** Iteration `n` of the notifier loop, run after the first `n - 1` unless one of those died. */
  function NotifyIteration(start: Machine, eo: ErrorObject, factory: (string, ErrorObject) -> NotifierOutcome,
                           notifiers: seq<NotifierEntry>, n: nat): (p: Pass)
    requires 0 < n <= |notifiers| && start.h.configObject.Some?
    ensures p.m.h.configObject.Some?
    ensures p.m.h.configObject.value.errorReporting == start.h.configObject.value.errorReporting
    ensures p.m.h.configObject.value.notifiers == start.h.configObject.value.notifiers
    ensures p.m.h.innerShutdownFatal == start.h.innerShutdownFatal
    ensures !p.m.rt.exited ==> p.m.rt.handlers == start.rt.handlers && !start.rt.exited
    decreases n, 0
  {
    var p := NotifyUpTo(start, eo, factory, notifiers, n - 1);
    if p.m.rt.exited then p
    else
      var r := Visit(p, notifiers[n - 1], eo, factory);
      r
  }

  /** Once a pass has died, later iterations change nothing. */
  lemma {:induction false} NotifyUpToStaysDead(start: Machine, eo: ErrorObject, factory: (string, ErrorObject) -> NotifierOutcome,
                                                notifiers: seq<NotifierEntry>, k: nat, n: nat)
    requires k <= n <= |notifiers| && start.h.configObject.Some?
    requires NotifyUpTo(start, eo, factory, notifiers, k).m.rt.exited
    ensures NotifyUpTo(start, eo, factory, notifiers, n) == NotifyUpTo(start, eo, factory, notifiers, k)
    decreases n - k
  {
    if n > k {
      NotifyUpToStaysDead(start, eo, factory, notifiers, k, n - 1);
    }
  }

  /** Helper::notify: the guarded loop over the configured notifiers, then the exit decision. */
  function AfterNotify(m: Machine, eo: ErrorObject, factory: (string, ErrorObject) -> NotifierOutcome): (r: Machine)
    requires m.h.configObject.Some?
    ensures r.h.configObject.Some?
    ensures r.h.configObject.value.errorReporting == m.h.configObject.value.errorReporting
    ensures r.h.configObject.value.notifiers == m.h.configObject.value.notifiers
    ensures !r.rt.exited ==> !r.h.innerShutdownFatal && r.rt.handlers == m.rt.handlers
  {
    var notifiers := m.h.configObject.value.notifiers;
    var p := NotifyUpTo(Machine(m.h.(innerShutdownFatal := true), m.rt), eo, factory, notifiers, |notifiers|);
    if p.m.rt.exited then p.m
    else
      var done := Machine(p.m.h.(innerShutdownFatal := false), p.m.rt);
      if p.exit == Some(true) then Machine(done.h, AfterExit(done.rt)) else done
  }

  /** Helper::handle. */
  function AfterHandle(m: Machine, e: Throwable, handler: string, factory: (string, ErrorObject) -> NotifierOutcome): (r: Machine)
    ensures r.h.configObject.None? <==> m.h.configObject.None?
    ensures m.h.configObject.None? ==>
      r.rt == Recorded(m.rt, SelfReport(Wrapped(ErrorObject(e, handler)))) && r.h.innerShutdownFatal == m.h.innerShutdownFatal
    ensures m.h.configObject.Some? && !Intersects(LevelOf(e), m.h.configObject.value.errorReporting) ==> r == m
    ensures m.h.configObject.Some? && Intersects(LevelOf(e), m.h.configObject.value.errorReporting)
            && !AfterNotify(m, ErrorObject(e, handler), factory).rt.exited ==>
      (r.rt.exited <==> Intersects(LevelOf(e), ForcedExitLevels))
    ensures !r.rt.exited ==> r.rt.handlers == m.rt.handlers
  {
    var eo := ErrorObject(e, handler);
    if m.h.configObject.None? then AfterReport(m, Wrapped(eo))
    else if !Intersects(eo.Code(), m.h.configObject.value.errorReporting) then m
    else
      var n := AfterNotify(m, eo, factory);
      if n.rt.exited then n
      else if Intersects(eo.Code(), ForcedExitLevels) then Machine(n.h, AfterExit(n.rt))
      else n
  }

  class Helper {
    const configFile: string
    const rt: Runtime
    var configObject: Option<ConfigObject>
    var selfErrorHandler: Option<SelfErrorHandler>
    var innerShutdownFatal: bool

    function State(): HelperState
      reads this
    {
      HelperState(configObject, selfErrorHandler, innerShutdownFatal)
    }

    function Snapshot(): Machine
      reads this, rt
    {
      Machine(State(), rt.State())
    }

    /** The interceptor back-reference the source also takes is only passed on to notifiers. */
    constructor (configFile: string, rt: Runtime)
      ensures this.configFile == configFile && this.rt == rt
      ensures State() == InitialHelper
    {
      this.configFile := configFile;
      this.rt := rt;
      configObject := None;
      selfErrorHandler := None;
      innerShutdownFatal := false;
    }

    /** Builds the configuration from `configFile`; what the construction does is `outcome`. */
    method CreateConfigObject(outcome: ConfigOutcome)
      requires !rt.exited
      modifies this, rt
      ensures Snapshot() == AfterCreateConfig(old(Snapshot()), outcome)
    {
      innerShutdownFatal := true;
      rt.SetErrorHandler(HelperError);
      match outcome {
        case Built(mask, notifiers) =>
          configObject := Some(ConfigObject(mask, notifiers, None));
        case ConstructionThrows(t) =>
          Exception(Raw(t));
        case ConstructionFatal(t) =>
          rt.Die(t);
          return;
      }
      rt.RestoreErrorHandler();
      innerShutdownFatal := false;
    }

    method Handle(e: Throwable, handler: string, factory: (string, ErrorObject) -> NotifierOutcome)
      requires !rt.exited
      modifies this, rt
      ensures Snapshot() == AfterHandle(old(Snapshot()), e, handler, factory)
    {
      var errorObject := ErrorObject(e, handler);
      if configObject.None? {
        Exception(Wrapped(errorObject));
        return;
      }
      var code := errorObject.Code();
      if !Intersects(code, configObject.value.errorReporting) {
        return;
      }
      Notify(errorObject, factory);
      if rt.exited {
        return;
      }
      if Intersects(code, ForcedExitLevels) {
        rt.Exit();
      }
    }

    method Notify(errorObject: ErrorObject, factory: (string, ErrorObject) -> NotifierOutcome)
      requires !rt.exited && configObject.Some?
      modifies this, rt
      ensures Snapshot() == AfterNotify(old(Snapshot()), errorObject, factory)
    {
      innerShutdownFatal := true;
      var exit: Option<bool> := None;
      var notifiers := configObject.value.notifiers;
      ghost var start := Snapshot();
      var i := 0;
      while i < |notifiers|
        invariant 0 <= i <= |notifiers|
        invariant Pass(Snapshot(), exit) == NotifyUpTo(start, errorObject, factory, notifiers, i)
        invariant !rt.exited
      {
        exit := NotifyOne(notifiers[i], errorObject, factory, exit);
        if rt.exited {
          NotifyUpToStaysDead(start, errorObject, factory, notifiers, i + 1, |notifiers|);
          return;
        }
        i := i + 1;
      }
      innerShutdownFatal := false;
      if exit == Some(true) {
        rt.Exit();
      }
    }

    /** One iteration of the loop of Helper::notify, inside its try/finally bracket. */
    method NotifyOne(entry: NotifierEntry, errorObject: ErrorObject, factory: (string, ErrorObject) -> NotifierOutcome,
                     exit: Option<bool>) returns (exit': Option<bool>)
      requires !rt.exited && configObject.Some?
      modifies this, rt
      ensures Pass(Snapshot(), exit') == Visit(Pass(old(Snapshot()), exit), entry, errorObject, factory)
    {
      exit' := exit;
      rt.SetErrorHandler(HelperError);
      configObject := Some(configObject.value.(notifierClass := Some(entry.cls)));
      if !Intersects(entry.enabled, errorObject.Code()) {
        rt.RestoreErrorHandler();
        return;
      }
      exit' := Reach(entry, errorObject, factory, exit);
    }

    /** The try block and the finally block of one notifier-loop iteration. */
    method Reach(entry: NotifierEntry, errorObject: ErrorObject, factory: (string, ErrorObject) -> NotifierOutcome,
                 exit: Option<bool>) returns (exit': Option<bool>)
      requires !rt.exited
      modifies this, rt
      ensures Pass(Snapshot(), exit') == Reached(Pass(old(Snapshot()), exit), entry, errorObject, factory)
    {
      exit' := exit;
      match factory(entry.cls, errorObject) {
        case ConstructorThrows(t) =>
          Exception(Wrapped(errorObject));
          Exception(Raw(t));
        case NotAbstractNotifier =>
          rt.Record(NotifierConstructed(entry.cls, errorObject));
          // trigger_error(..., E_USER_ERROR) reaches the handler on top of the stack: this Helper.
          var _ := Error(E_USER_ERROR, entry.cls + " must extend " + AbstractNotifierClass, HelperFile, TriggerLine);
        case NotifyThrows(t) =>
          rt.Record(NotifierConstructed(entry.cls, errorObject));
          rt.Record(NotifierNotified(entry.cls));
          Exception(Wrapped(errorObject));
          Exception(Raw(t));
        case Returns(b) =>
          rt.Record(NotifierConstructed(entry.cls, errorObject));
          rt.Record(NotifierNotified(entry.cls));
          exit' := Some(b);
        case NotifyFatal(t) =>
          rt.Record(NotifierConstructed(entry.cls, errorObject));
          rt.Record(NotifierNotified(entry.cls));
          rt.Die(t);
          return;
      }
      rt.RestoreErrorHandler();
    }

    method GetInnerShutdownFatal() returns (fatal: bool)
      ensures fatal == innerShutdownFatal
    {
      fatal := innerShutdownFatal;
    }

    /** Helper::error: the internal error handler; turns the error into an \ErrorException and reports it. */
    method Error(code: Level, message: string, file: string, line: int) returns (handled: bool)
      modifies this, rt
      ensures handled
      ensures Snapshot() == AfterReport(old(Snapshot()), Raw(FromError(code, message, file, line)))
    {
      Exception(Raw(FromError(code, message, file, line)));
      handled := true;
    }

    /** Helper::exception: the internal exception handler. */
    method Exception(item: Reportable)
      modifies this, rt
      ensures Snapshot() == AfterReport(old(Snapshot()), item)
    {
      if selfErrorHandler.None? {
        selfErrorHandler := Some(SelfErrorHandler(configObject.Some?));
      }
      rt.Record(SelfReport(item));
    }
  }
}
