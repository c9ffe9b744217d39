/**
 * The PHP runtime primitives the core relies on, reduced to state:
 * set_error_handler / restore_error_handler as a stack of handlers,
 * `exit` and uncatchable fatal errors as a flag that abandons the running
 * call stack, and everything an observer can see as an event trace.
 */
module Php {
  import opened Values

  datatype RuntimeState = RuntimeState(handlers: seq<Handler>, exited: bool, trace: seq<Event>)

  /** set_error_handler($h): the new handler goes on top. */
  function Push(rt: RuntimeState, h: Handler): RuntimeState {
    rt.(handlers := rt.handlers + [h])
  }

  /** restore_error_handler(): the top handler is dropped; on an empty stack nothing changes. */
  function Pop(rt: RuntimeState): RuntimeState {
    if rt.handlers == [] then rt else rt.(handlers := rt.handlers[..|rt.handlers| - 1])
  }

  function Recorded(rt: RuntimeState, e: Event): RuntimeState {
    rt.(trace := rt.trace + [e])
  }

  /** `exit`: the rest of the running call stack, finally blocks included, does not run. */
  function AfterExit(rt: RuntimeState): RuntimeState {
    rt.(exited := true, trace := rt.trace + [Exited])
  }

  /** An uncatchable fatal error, or a throwable nobody catches: the call stack is abandoned like on exit. */
  function AfterFatal(rt: RuntimeState, t: Throwable): RuntimeState {
    rt.(exited := true, trace := rt.trace + [Died(t)])
  }

  class Runtime {
    var handlers: seq<Handler>
    var exited: bool
    var trace: seq<Event>

    function State(): RuntimeState
      reads this
    {
      RuntimeState(handlers, exited, trace)
    }

    constructor (handlers: seq<Handler>)
      ensures State() == RuntimeState(handlers, false, [])
    {
      this.handlers := handlers;
      exited := false;
      trace := [];
    }

    method SetErrorHandler(h: Handler)
      modifies this
      ensures State() == Push(old(State()), h)
    {
      handlers := handlers + [h];
    }

    method RestoreErrorHandler()
      modifies this
      ensures State() == Pop(old(State()))
    {
      if handlers != [] {
        handlers := handlers[..|handlers| - 1];
      }
    }

    method Record(e: Event)
      modifies this
      ensures State() == Recorded(old(State()), e)
    {
      trace := trace + [e];
    }

    method Exit()
      modifies this
      ensures State() == AfterExit(old(State()))
    {
      exited := true;
      trace := trace + [Exited];
    }

    method Die(t: Throwable)
      modifies this
      ensures State() == AfterFatal(old(State()), t)
    {
      exited := true;
      trace := trace + [Died(t)];
    }

    /**
     * After the script ends, normally or through exit or a fatal error, the host
     * runs the registered shutdown functions on a fresh call stack.
     */
    method BeginShutdown()
      modifies this
      ensures State() == old(State()).(exited := false)
    {
      exited := false;
    }
  }
}
