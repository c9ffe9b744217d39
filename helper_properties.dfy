/**
 * What the Helper promises, proved about the transition functions of
 * CoreHelper: the events one notifier pass leaves, in configuration order;
 * the exit decision taken from the last notifier that returned; the exit
 * forced for E_RECOVERABLE_ERROR and E_USER_ERROR; the guard flag that
 * outlives a call only when the call died inside its bracket.
 */
module HelperProperties {
  import opened Values
  import opened Php
  import opened CoreHelper

  /** The notifier's `enabled` mask lets it act on `eo`. */
  predicate Enabled(entry: NotifierEntry, eo: ErrorObject) {
    Intersects(entry.enabled, eo.Code())
  }

  /** The notifier is reached and its notify() dies with an uncatchable fatal error. */
  predicate DiesAt(entry: NotifierEntry, eo: ErrorObject, factory: (string, ErrorObject) -> NotifierOutcome) {
    Enabled(entry, eo) && factory(entry.cls, eo).NotifyFatal?
  }

  /** One of the first `n` notifiers dies. */
  predicate AnyDies(ns: seq<NotifierEntry>, eo: ErrorObject, factory: (string, ErrorObject) -> NotifierOutcome, n: nat)
    requires n <= |ns|
  {
    n > 0 && (AnyDies(ns, eo, factory, n - 1) || DiesAt(ns[n - 1], eo, factory))
  }

  /** The notifier is reached and its notify() returns a value, which then lands in `$exit`. */
  predicate ReturnsAt(entry: NotifierEntry, eo: ErrorObject, factory: (string, ErrorObject) -> NotifierOutcome) {
    Enabled(entry, eo) && factory(entry.cls, eo).Returns?
  }

  /** Among the first `n` notifiers, the one at `k` is the last whose notify() returned. */
  predicate LastReturnAt(ns: seq<NotifierEntry>, eo: ErrorObject, factory: (string, ErrorObject) -> NotifierOutcome, n: nat, k: int)
    requires n <= |ns|
  {
    0 <= k < n && ReturnsAt(ns[k], eo, factory) && forall j :: k < j < n ==> !ReturnsAt(ns[j], eo, factory)
  }

  /** The pass over `ns` completes and the last notifier that returned returned true. */
  predicate ExitRequested(ns: seq<NotifierEntry>, eo: ErrorObject, factory: (string, ErrorObject) -> NotifierOutcome) {
    !AnyDies(ns, eo, factory, |ns|) &&
    exists k :: 0 <= k < |ns| && LastReturnAt(ns, eo, factory, |ns|, k) && factory(ns[k].cls, eo).result
  }

  /** What one notifier adds to the trace, by what its construction and notify() do. */
  function EntryEvents(entry: NotifierEntry, eo: ErrorObject, factory: (string, ErrorObject) -> NotifierOutcome): seq<Event> {
    if !Enabled(entry, eo) then []
    else
      match factory(entry.cls, eo)
      case ConstructorThrows(t) => [SelfReport(Wrapped(eo)), SelfReport(Raw(t))]
      case NotAbstractNotifier => [NotifierConstructed(entry.cls, eo), SelfReport(Raw(NotAbstractError(entry.cls)))]
      case NotifyThrows(t) =>
        [NotifierConstructed(entry.cls, eo), NotifierNotified(entry.cls), SelfReport(Wrapped(eo)), SelfReport(Raw(t))]
      case Returns(_) => [NotifierConstructed(entry.cls, eo), NotifierNotified(entry.cls)]
      case NotifyFatal(t) => [NotifierConstructed(entry.cls, eo), NotifierNotified(entry.cls), Died(t)]
  }

  /** The events of a pass over the first `n` notifiers, one after another in configuration order, up to the first that dies. */
  function PassEvents(ns: seq<NotifierEntry>, eo: ErrorObject, factory: (string, ErrorObject) -> NotifierOutcome, n: nat): seq<Event>
    requires n <= |ns|
  {
    if n == 0 then []
    else PassEvents(ns, eo, factory, n - 1) + if AnyDies(ns, eo, factory, n - 1) then [] else EntryEvents(ns[n - 1], eo, factory)
  }

  /** The events Helper::handle adds for fault `e` tagged `handler`, starting from helper state `h`. */
  function HandleEvents(h: HelperState, e: Throwable, handler: string, factory: (string, ErrorObject) -> NotifierOutcome): seq<Event> {
    var eo := ErrorObject(e, handler);
    if h.configObject.None? then [SelfReport(Wrapped(eo))]
    else if !Intersects(LevelOf(e), h.configObject.value.errorReporting) then []
    else
      var ns := h.configObject.value.notifiers;
      PassEvents(ns, eo, factory, |ns|) +
      if !AnyDies(ns, eo, factory, |ns|) && (ExitRequested(ns, eo, factory) || Intersects(LevelOf(e), ForcedExitLevels)) then [Exited]
      else []
  }

  /** Helper::handle ends the script: a notifier died, the notifiers asked for an exit, or the level forces one. */
  predicate HandleEnds(h: HelperState, e: Throwable, handler: string, factory: (string, ErrorObject) -> NotifierOutcome) {
    var eo := ErrorObject(e, handler);
    h.configObject.Some? && Intersects(LevelOf(e), h.configObject.value.errorReporting) &&
    var ns := h.configObject.value.notifiers;
    AnyDies(ns, eo, factory, |ns|) || ExitRequested(ns, eo, factory) || Intersects(LevelOf(e), ForcedExitLevels)
  }

  lemma AppendAssociative(a: seq<Event>, b: seq<Event>, c: seq<Event>)
    ensures a + (b + c) == a + b + c
  {
  }

  /** One notifier visit: its events, its death, the cursor moved to it, and `$exit` overwritten only by a return. */
  lemma VisitEvents(p: Pass, entry: NotifierEntry, eo: ErrorObject, factory: (string, ErrorObject) -> NotifierOutcome)
    requires p.m.h.configObject.Some? && !p.m.rt.exited
    ensures Visit(p, entry, eo, factory).m.rt.trace == p.m.rt.trace + EntryEvents(entry, eo, factory)
    ensures Visit(p, entry, eo, factory).m.rt.exited <==> DiesAt(entry, eo, factory)
    ensures Visit(p, entry, eo, factory).m.h.configObject.value.notifierClass == Some(entry.cls)
    ensures Visit(p, entry, eo, factory).exit ==
      if ReturnsAt(entry, eo, factory) then Some(factory(entry.cls, eo).result) else p.exit
  {
    // An enabled notifier adds, by outcome:
    //   constructor throws:   the wrapped fault and the throwable, as self reports;
    //   not an AbstractNotifier: the construction and the "must extend" report;
    //   notify() throws:      the construction, the notify call, the wrapped fault and the throwable;
    //   notify() returns:     the construction and the notify call;
    //   notify() dies:        the construction, the notify call and the death.
  }

  /**
   * The first `n` iterations of the notifier loop leave exactly the events of
   * those notifiers in configuration order, die exactly when one of them died,
   * and, on a live run, leave the cursor on the last of them.
   */
  lemma {:induction false} NotifyUpToEvents(start: Machine, eo: ErrorObject, factory: (string, ErrorObject) -> NotifierOutcome,
                                            ns: seq<NotifierEntry>, n: nat)
    requires n <= |ns| && start.h.configObject.Some? && !start.rt.exited
    ensures NotifyUpTo(start, eo, factory, ns, n).m.rt.trace == start.rt.trace + PassEvents(ns, eo, factory, n)
    ensures NotifyUpTo(start, eo, factory, ns, n).m.rt.exited <==> AnyDies(ns, eo, factory, n)
    ensures !NotifyUpTo(start, eo, factory, ns, n).m.rt.exited && n > 0 ==>
      NotifyUpTo(start, eo, factory, ns, n).m.h.configObject.value.notifierClass == Some(ns[n - 1].cls)
    decreases n
  {
    if n > 0 {
      NotifyUpToEvents(start, eo, factory, ns, n - 1);
      var p := NotifyUpTo(start, eo, factory, ns, n - 1);
      var r := NotifyUpTo(start, eo, factory, ns, n);
      if p.m.rt.exited {
        assert r == p;
      } else {
        assert r == Visit(p, ns[n - 1], eo, factory);
        VisitEvents(p, ns[n - 1], eo, factory);
        AppendAssociative(start.rt.trace, PassEvents(ns, eo, factory, n - 1), EntryEvents(ns[n - 1], eo, factory));
      }
    }
  }

  /**
   * `$exit` after the first `n` iterations of a pass in which nobody died: null
   * exactly when no notifier returned, otherwise the value the last one returned.
   */
  lemma {:induction false} NotifyUpToExit(start: Machine, eo: ErrorObject, factory: (string, ErrorObject) -> NotifierOutcome,
                                          ns: seq<NotifierEntry>, n: nat)
    requires n <= |ns| && start.h.configObject.Some? && !start.rt.exited && !AnyDies(ns, eo, factory, n)
    ensures NotifyUpTo(start, eo, factory, ns, n).exit.None? <==> forall k :: 0 <= k < n ==> !ReturnsAt(ns[k], eo, factory)
    ensures forall k :: LastReturnAt(ns, eo, factory, n, k) ==>
      NotifyUpTo(start, eo, factory, ns, n).exit == Some(factory(ns[k].cls, eo).result)
    decreases n
  {
    if n > 0 {
      NotifyUpToExit(start, eo, factory, ns, n - 1);
      NotifyUpToEvents(start, eo, factory, ns, n - 1);
      var p := NotifyUpTo(start, eo, factory, ns, n - 1);
      assert !p.m.rt.exited;
      assert NotifyUpTo(start, eo, factory, ns, n) == Visit(p, ns[n - 1], eo, factory);
      VisitEvents(p, ns[n - 1], eo, factory);
      forall k | LastReturnAt(ns, eo, factory, n, k)
        ensures NotifyUpTo(start, eo, factory, ns, n).exit == Some(factory(ns[k].cls, eo).result)
      {
        if k < n - 1 {
          assert !ReturnsAt(ns[n - 1], eo, factory);
          assert LastReturnAt(ns, eo, factory, n - 1, k);
        }
      }
    }
  }

  /**
   * Helper::notify: the trace gets the pass's events and, when the pass
   * completes and the last returning notifier returned true, the exit. A
   * notifier that dies leaves the guard flag set; otherwise the flag is cleared.
   */
  lemma NotifyOutcome(m: Machine, eo: ErrorObject, factory: (string, ErrorObject) -> NotifierOutcome)
    requires m.h.configObject.Some? && !m.rt.exited
    ensures AfterNotify(m, eo, factory).rt.trace ==
      m.rt.trace + PassEvents(m.h.configObject.value.notifiers, eo, factory, |m.h.configObject.value.notifiers|) +
      if ExitRequested(m.h.configObject.value.notifiers, eo, factory) then [Exited] else []
    ensures AnyDies(m.h.configObject.value.notifiers, eo, factory, |m.h.configObject.value.notifiers|) ==>
      AfterNotify(m, eo, factory).rt.exited && AfterNotify(m, eo, factory).h.innerShutdownFatal
    ensures !AnyDies(m.h.configObject.value.notifiers, eo, factory, |m.h.configObject.value.notifiers|) ==>
      !AfterNotify(m, eo, factory).h.innerShutdownFatal &&
      (AfterNotify(m, eo, factory).rt.exited <==> ExitRequested(m.h.configObject.value.notifiers, eo, factory))
  {
    var ns := m.h.configObject.value.notifiers;
    var start := Machine(m.h.(innerShutdownFatal := true), m.rt);
    NotifyUpToEvents(start, eo, factory, ns, |ns|);
    if !AnyDies(ns, eo, factory, |ns|) {
      NotifyUpToExit(start, eo, factory, ns, |ns|);
      var p := NotifyUpTo(start, eo, factory, ns, |ns|);
      if p.exit == Some(true) {
        var k := LastReturnIndex(ns, eo, factory, |ns|);
        assert LastReturnAt(ns, eo, factory, |ns|, k);
      }
    }
  }

  /** The last notifier among the first `n` that returned, when some did. */
  lemma {:induction false} LastReturnIndex(ns: seq<NotifierEntry>, eo: ErrorObject, factory: (string, ErrorObject) -> NotifierOutcome,
                                           n: nat) returns (k: int)
    requires n <= |ns| && exists i :: 0 <= i < n && ReturnsAt(ns[i], eo, factory)
    ensures LastReturnAt(ns, eo, factory, n, k)
    decreases n
  {
    if ReturnsAt(ns[n - 1], eo, factory) {
      k := n - 1;
    } else {
      k := LastReturnIndex(ns, eo, factory, n - 1);
    }
  }

  /**
   * Helper::handle with a configuration and an unmasked level, when no notifier
   * dies: the script ends exactly when the notifiers asked for it or the level
   * intersects E_RECOVERABLE_ERROR | E_USER_ERROR, and the guard flag is cleared.
   */
  lemma HandleExitIff(m: Machine, e: Throwable, handler: string, factory: (string, ErrorObject) -> NotifierOutcome)
    requires m.h.configObject.Some? && !m.rt.exited
    requires Intersects(LevelOf(e), m.h.configObject.value.errorReporting)
    requires !AnyDies(m.h.configObject.value.notifiers, ErrorObject(e, handler), factory, |m.h.configObject.value.notifiers|)
    ensures AfterHandle(m, e, handler, factory).rt.exited <==>
      ExitRequested(m.h.configObject.value.notifiers, ErrorObject(e, handler), factory) || Intersects(LevelOf(e), ForcedExitLevels)
    ensures !AfterHandle(m, e, handler, factory).h.innerShutdownFatal
  {
    NotifyOutcome(m, ErrorObject(e, handler), factory);
  }

  /** Helper::handle on a live stack adds exactly HandleEvents. */
  lemma HandleTrace(m: Machine, e: Throwable, handler: string, factory: (string, ErrorObject) -> NotifierOutcome)
    requires !m.rt.exited
    ensures AfterHandle(m, e, handler, factory).rt.trace == m.rt.trace + HandleEvents(m.h, e, handler, factory)
  {
    if m.h.configObject.Some? && Intersects(LevelOf(e), m.h.configObject.value.errorReporting) {
      NotifyOutcome(m, ErrorObject(e, handler), factory);
    }
  }

  /** Helper::handle on a live stack ends the script exactly when HandleEnds says so. */
  lemma HandleEndsIff(m: Machine, e: Throwable, handler: string, factory: (string, ErrorObject) -> NotifierOutcome)
    requires !m.rt.exited
    ensures AfterHandle(m, e, handler, factory).rt.exited <==> HandleEnds(m.h, e, handler, factory)
  {
    if m.h.configObject.Some? && Intersects(LevelOf(e), m.h.configObject.value.errorReporting) {
      NotifyOutcome(m, ErrorObject(e, handler), factory);
    }
  }

  /** Helper::handle leaves the guard flag set only when it was set before or the call died. */
  lemma HandleFlag(m: Machine, e: Throwable, handler: string, factory: (string, ErrorObject) -> NotifierOutcome)
    requires !m.rt.exited
    ensures AfterHandle(m, e, handler, factory).h.innerShutdownFatal ==>
      m.h.innerShutdownFatal || AfterHandle(m, e, handler, factory).rt.exited
  {
    if m.h.configObject.Some? && Intersects(LevelOf(e), m.h.configObject.value.errorReporting) {
      NotifyOutcome(m, ErrorObject(e, handler), factory);
    }
  }

  /**
   * `$exit` is overwritten: a notifier that returns true followed by one that
   * returns false does not end the script.
   */
  lemma LaterReturnOverrides(m: Machine, eo: ErrorObject, factory: (string, ErrorObject) -> NotifierOutcome, a: NotifierEntry, b: NotifierEntry)
    requires m.h.configObject.Some? && !m.rt.exited && m.h.configObject.value.notifiers == [a, b]
    requires Enabled(a, eo) && factory(a.cls, eo) == Returns(true)
    requires Enabled(b, eo) && factory(b.cls, eo) == Returns(false)
    ensures !AfterNotify(m, eo, factory).rt.exited
  {
    var ns := m.h.configObject.value.notifiers;
    NotifyOutcome(m, eo, factory);
    assert !AnyDies(ns, eo, factory, 2);
    assert LastReturnAt(ns, eo, factory, 2, 1);
  }
}
