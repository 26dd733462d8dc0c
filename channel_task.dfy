/** The handler protocol of `src/core/ChannelTask.ts`: a channel task tells its
    handler that it started, then runs, then tells the handler that it
    completed or errored, and rethrows an error. The three handler classes
    are one class with a `kind`; only `ErrorTaskHandler` keeps state. The
    abstract `execute` is given by its completion. */
module ChannelTask {
  import opened Wrappers
  import opened JsValue

  /** `ChannelTaskHandler`, `LoggingTaskHandler`, `ErrorTaskHandler`. */
  datatype HandlerKind = Plain | Logging | ErrorTracking

  /** One call a task makes on its handler. */
  datatype Notification =
    | Started(channelId: string, metaDataId: Option<int>)
    | Completed(channelId: string, metaDataId: Option<int>)
    | Errored(channelId: string, metaDataId: Option<int>, error: Exception)

  /** `!!error` for a caught value: an `Error` object is truthy, a thrown
      primitive is as truthy as it is. */
  predicate ExceptionTruthy(e: Exception) {
    match e
    case Thrown(v) => Truthy(v)
    case _ => true
  }

  /** A caught value that is `null` or `undefined`. */
  predicate NullishThrow(e: Exception) {
    e.Thrown? && Nullish(e.value)
  }

  /** How `taskErrored` or `taskCancelled` with `e` completes: the logging
      handler and the error handler, which calls it first, read
      `error.message`, which throws a `TypeError` on `null` and `undefined`. */
  function Reported(kind: HandlerKind, e: Exception): (r: Outcome<Exception>)
    ensures r == Pass || r == Fail(TypeError)
    ensures r.Fail? <==> kind != Plain && NullishThrow(e)
  {
    if kind != Plain && NullishThrow(e) then Fail(TypeError) else Pass
  }

  /** The recorded error after `taskErrored` or `taskCancelled` with `e`: only
      the error handler records, and only when its logging call did not throw. */
  function Recorded(kind: HandlerKind, error: Option<Exception>, e: Exception): (r: Option<Exception>)
    ensures kind == ErrorTracking && !NullishThrow(e) ==> r == Some(e)
    ensures kind != ErrorTracking || NullishThrow(e) ==> r == error
  {
    if kind == ErrorTracking && Reported(kind, e).Pass? then Some(e) else error
  }

  /** The error handler keeps only the most recent error it could log. */
  lemma MostRecentError(error: Option<Exception>, first: Exception, second: Exception)
    ensures !NullishThrow(second) ==> Recorded(ErrorTracking, Recorded(ErrorTracking, error, first), second) == Some(second)
    ensures NullishThrow(second) ==> Recorded(ErrorTracking, Recorded(ErrorTracking, error, first), second) == Recorded(ErrorTracking, error, first)
  {
  }

  /** The recorded error after reporting each of `es` in turn. */
  function RecordAll(kind: HandlerKind, error: Option<Exception>, es: seq<Exception>): Option<Exception>
    decreases |es|
  {
    if es == [] then error else Recorded(kind, RecordAll(kind, error, es[..|es| - 1]), es[|es| - 1])
  }

  /** The last of `es` that is neither `null` nor `undefined`, if any. */
  function LastLoggable(es: seq<Exception>): (r: Option<Exception>)
    ensures r.Some? ==> r.value in es && !NullishThrow(r.value)
    ensures r.None? <==> forall e | e in es :: NullishThrow(e)
    decreases |es|
  {
    if es == [] then None
    else if NullishThrow(es[|es| - 1]) then LastLoggable(es[..|es| - 1])
    else Some(es[|es| - 1])
  }

  /** After any run of reports an error handler holds the last error that is
      not `null` or `undefined`, or the error it held before; so it never
      holds a `null` or `undefined` it was given. */
  lemma {:induction false} ErrorHandlerKeepsLastLoggable(error: Option<Exception>, es: seq<Exception>)
    ensures RecordAll(ErrorTracking, error, es) == if LastLoggable(es).Some? then LastLoggable(es) else error
    decreases |es|
  {
    if es != [] {
      ErrorHandlerKeepsLastLoggable(error, es[..|es| - 1]);
    }
  }

  /** The other handlers never record anything. */
  lemma {:induction false} OtherHandlersKeepNothing(kind: HandlerKind, error: Option<Exception>, es: seq<Exception>)
    requires kind != ErrorTracking
    ensures RecordAll(kind, error, es) == error
    decreases |es|
  {
    if es != [] {
      OtherHandlersKeepNothing(kind, error, es[..|es| - 1]);
    }
  }

  class TaskHandler {
    const kind: HandlerKind
    var error: Option<Exception>

    constructor(kind: HandlerKind)
      ensures this.kind == kind && error == None
    {
      this.kind := kind;
      error := None;
    }

    /** `taskStarted(channelId, metaDataId)`: no state. */
    method TaskStarted(channelId: string, metaDataId: Option<int>)
    {
    }

    /** `taskCompleted(channelId, metaDataId)`: no state. */
    method TaskCompleted(channelId: string, metaDataId: Option<int>)
    {
    }

    /** `taskErrored(channelId, metaDataId, error)`: throws where `Reported`
        says, before the error handler records anything. */
    method TaskErrored(channelId: string, metaDataId: Option<int>, e: Exception) returns (r: Outcome<Exception>)
      modifies this
      ensures r == Reported(kind, e)
      ensures error == Recorded(kind, old(error), e)
    {
      if kind != Plain && NullishThrow(e) {
        return Fail(TypeError);
      }
      if kind == ErrorTracking {
        error := Some(e);
      }
      return Pass;
    }

    /** `taskCancelled(channelId, metaDataId, error)`: logged at another
        level, otherwise the same as `taskErrored`. */
    method TaskCancelled(channelId: string, metaDataId: Option<int>, e: Exception) returns (r: Outcome<Exception>)
      modifies this
      ensures r == Reported(kind, e)
      ensures error == Recorded(kind, old(error), e)
    {
      if kind != Plain && NullishThrow(e) {
        return Fail(TypeError);
      }
      if kind == ErrorTracking {
        error := Some(e);
      }
      return Pass;
    }

    /** `getError()` */
    function GetError(): Option<Exception>
      reads this
    {
      error
    }

    /** `isErrored()`: an error is recorded and it is truthy. */
    function IsErrored(): (r: bool)
      reads this
      ensures r <==> error.Some? && ExceptionTruthy(error.value)
    {
      match error
      case None => false
      case Some(e) => ExceptionTruthy(e)
    }
  }

  /** What `call` does, as the sequence of handler calls and its own
      completion, given the kind of handler, if any, and how `execute`
      completed. A throw from `taskErrored` replaces the error `call` was
      about to rethrow. */
  function CallEval(handler: Option<HandlerKind>, channelId: string, metaDataId: Option<int>, executed: Outcome<Exception>)
    : (seq<Notification>, Outcome<Exception>)
  {
    var started := if handler.Some? then [Started(channelId, metaDataId)] else [];
    match executed
    case Pass => (started + (if handler.Some? then [Completed(channelId, metaDataId)] else []), Pass)
    case Fail(e) =>
      (started + (if handler.Some? then [Errored(channelId, metaDataId, e)] else []),
       if handler.Some? && Reported(handler.value, e).Fail? then Reported(handler.value, e) else Fail(e))
  }

  /** With a handler, `call` reports the start, then exactly one of completion
      or the error; without one it reports nothing. It completes as `execute`
      did and rethrows the same error, except that a `null` or `undefined`
      error under a logging or error handler becomes a `TypeError`. */
  lemma CallProtocol(handler: Option<HandlerKind>, channelId: string, metaDataId: Option<int>, executed: Outcome<Exception>)
    ensures var (calls, r) := CallEval(handler, channelId, metaDataId, executed);
            && (r.Pass? <==> executed.Pass?)
            && (executed.Fail? ==>
                  r == if handler.Some? && handler.value != Plain && NullishThrow(executed.error) then Fail(TypeError) else executed)
            && (handler.None? ==> calls == [])
            && (handler.Some? ==> |calls| == 2 && calls[0] == Started(channelId, metaDataId))
            && (Completed(channelId, metaDataId) in calls <==> handler.Some? && executed.Pass?)
            && (forall e :: Errored(channelId, metaDataId, e) in calls <==> handler.Some? && executed == Fail(e))
  {
  }

  class ChannelTask {
    const channelId: string
    const metaDataId: Option<int>
    var handler: Option<TaskHandler>

    /** `new ChannelTask(channelId, metaDataId?)`: no handler yet. */
    constructor(channelId: string, metaDataId: Option<int>)
      ensures this.channelId == channelId && this.metaDataId == metaDataId && handler == None
    {
      this.channelId := channelId;
      this.metaDataId := metaDataId;
      handler := None;
    }

    /** `getChannelId()` */
    function GetChannelId(): string
      reads this
    {
      channelId
    }

    /** `getMetaDataId()` */
    function GetMetaDataId(): Option<int>
      reads this
    {
      metaDataId
    }

    /** `getHandler()` */
    function GetHandler(): Option<TaskHandler>
      reads this
    {
      handler
    }

    /** `setHandler(handler)` */
    method SetHandler(h: TaskHandler)
      modifies this
      ensures handler == Some(h)
      ensures GetHandler() == Some(h) && GetChannelId() == channelId && GetMetaDataId() == metaDataId
    {
      handler := Some(h);
    }

    /** The kind of the handler set, if any. */
    function HandlerKindOf(): Option<HandlerKind>
      reads this
    {
      if handler.Some? then Some(handler.value.kind) else None
    }

    /** `call()`, with `executed` the completion of `execute()`: the handler
        calls and the completion are those `CallEval` gives, and the handler's
        recorded error changes only on a failure, as `taskErrored` records it. */
    method Call(executed: Outcome<Exception>) returns (calls: seq<Notification>, r: Outcome<Exception>)
      modifies if handler.Some? then {handler.value} else {}
      ensures (calls, r) == CallEval(HandlerKindOf(), channelId, metaDataId, executed)
      ensures handler.Some? && executed.Pass? ==> handler.value.error == old(handler.value.error)
      ensures handler.Some? && executed.Fail? ==>
                handler.value.error == Recorded(handler.value.kind, old(handler.value.error), executed.error)
    {
      var kind := HandlerKindOf();
      calls := [];
      if handler.Some? {
        handler.value.TaskStarted(channelId, metaDataId);
        calls := [Started(channelId, metaDataId)];
      }
      if executed.Fail? {
        r := executed;
        if handler.Some? {
          var reported := handler.value.TaskErrored(channelId, metaDataId, executed.error);
          calls := calls + [Errored(channelId, metaDataId, executed.error)];
          assert reported == Reported(kind.value, executed.error);
          if reported.Fail? {
            r := reported;
          }
        }
        assert HandlerKindOf() == kind;
        assert calls == CallEval(kind, channelId, metaDataId, executed).0;
        assert r == CallEval(kind, channelId, metaDataId, executed).1;
        return;
      }
      if handler.Some? {
        handler.value.TaskCompleted(channelId, metaDataId);
        calls := calls + [Completed(channelId, metaDataId)];
      }
      assert calls == CallEval(HandlerKindOf(), channelId, metaDataId, executed).0;
      return calls, Pass;
    }
  }

  /** A task with an `ErrorTaskHandler` leaves it errored exactly when
      `execute` threw a truthy error, and `getError` then gives that error; a
      `null` or `undefined` error is not recorded and `call` rejects with a
      `TypeError` instead. */
  method CallWithErrorHandler(task: ChannelTask, executed: Outcome<Exception>) returns (h: TaskHandler, r: Outcome<Exception>)
    modifies task
    ensures fresh(h) && task.handler == Some(h)
    ensures h.IsErrored() <==> executed.Fail? && ExceptionTruthy(executed.error)
    ensures executed.Fail? && !NullishThrow(executed.error) ==> h.GetError() == Some(executed.error) && r == executed
    ensures executed.Fail? && NullishThrow(executed.error) ==> h.GetError() == None && r == Fail(TypeError)
    ensures executed.Pass? ==> h.GetError() == None && r == Pass
  {
    h := new TaskHandler(ErrorTracking);
    task.SetHandler(h);
    var _, out := task.Call(executed);
    r := out;
  }
}
