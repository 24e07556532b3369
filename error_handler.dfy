/**
 * `ErrorHandler`: runs event handlers so that an exception is reported instead of crashing the
 * application, counts how deeply such calls nest on the current thread, and throttles the error
 * dialog to one per thirty seconds. The handler's own behaviour is an input (what it returned or
 * raised), and so are the clock readings and the traceback text.
 */
module ErrorHandling {
  import opened Wrappers
  import opened Text
  import opened Timestamps

  /** What `handle_gracefully` hands to the reporting signal. */
  datatype UncaughtExceptionInfo = UncaughtExceptionInfo(exception: Exception, context: string)

  /** One entry appended to the error log: the time and the formatted error. */
  datatype LogEntry = LogEntry(when: DateTime, text: string)

  const InternalErrorContext: string := "Internal error."
  const DialogThrottle: int := 30 * MicrosPerSecond
  const DialogPreamble: string := "The application has encountered an unexpected error and may behave erratically going forward.\n\n "

  /** `_format_error_info`: the context, a blank line, then the traceback lines joined by newlines. */
  function FormatErrorInfo(context: string, traceback: seq<string>): (s: string)
    ensures |s| >= |context| + 2 && s[..|context|] == context && s[|context|..|context| + 2] == "\n\n"
    ensures s[|context| + 2..] == JoinWith(traceback, "\n")
  {
    var s := context + "\n\n" + JoinWith(traceback, "\n");
    assert s[..|context|] == context;
    assert s[|context|..|context| + 2] == "\n\n";
    s
  }

  class ErrorHandler {
    /** The current thread's `exception_handler_count`; absent counts as 0. */
    var handlerCount: int
    var lastExceptionTime: DateTime
    /** Every emission of the `uncaught_exception` signal, in order. */
    var reports: seq<UncaughtExceptionInfo>
    /** Every entry appended to the error log, in order. */
    var log: seq<LogEntry>
    /** The text of every dialog shown, in order. */
    var dialogs: seq<string>

    /** `__init__`: no dialog shown yet, so the last dialog time is `datetime.min`. */
    constructor ()
      ensures handlerCount == 0 && lastExceptionTime == Min && reports == [] && log == [] && dialogs == []
    {
      handlerCount := 0;
      lastExceptionTime := Min;
      reports := [];
      log := [];
      dialogs := [];
    }

    /**
     * `handle_gracefully` around a handler that returned (`Pass`) or raised. A RecursionError from
     * a nested call is raised on so that reporting does not exhaust the stack again; at the
     * outermost level, and for every other exception, the exception is reported and swallowed.
     * The count is restored on every path.
     */
    method HandleGracefully(handler: Outcome, context: string) returns (outcome: Outcome)
      modifies this
      ensures handlerCount == old(handlerCount)
      ensures outcome.Fail? <==> handler == Fail(RecursionError) && old(handlerCount) + 1 > 1
      ensures outcome.Fail? ==> outcome == Fail(RecursionError) && reports == old(reports)
      ensures handler.Pass? ==> outcome.Pass? && reports == old(reports)
      ensures handler.Fail? && outcome.Pass? ==> reports == old(reports) + [UncaughtExceptionInfo(handler.error, context)]
      ensures lastExceptionTime == old(lastExceptionTime) && log == old(log) && dialogs == old(dialogs)
    {
      handlerCount := 1 + handlerCount;
      outcome := Pass;
      if handler.Fail? {
        if handler.error == RecursionError && handlerCount > 1 {
          outcome := Fail(RecursionError);
        } else {
          reports := reports + [UncaughtExceptionInfo(handler.error, context)];
        }
      }
      handlerCount := handlerCount - 1;
    }

    /**
     * A graceful handler whose body is itself a graceful call of an inner handler. The inner call
     * runs one level deeper, so its RecursionError reaches the outer call, which reports it.
     */
    method HandleNested(inner: Outcome, innerContext: string, outerContext: string) returns (outcome: Outcome)
      modifies this
      ensures handlerCount == old(handlerCount)
      ensures old(handlerCount) == 0 && inner == Fail(RecursionError) ==>
                outcome == Pass && reports == old(reports) + [UncaughtExceptionInfo(RecursionError, outerContext)]
      ensures inner.Fail? && inner != Fail(RecursionError) ==>
                outcome == Pass && reports == old(reports) + [UncaughtExceptionInfo(inner.error, innerContext)]
    {
      handlerCount := 1 + handlerCount;
      var innerOutcome := HandleGracefully(inner, innerContext);
      outcome := Pass;
      if innerOutcome.Fail? {
        if innerOutcome.error == RecursionError && handlerCount > 1 {
          outcome := Fail(RecursionError);
        } else {
          reports := reports + [UncaughtExceptionInfo(innerOutcome.error, outerContext)];
        }
      }
      handlerCount := handlerCount - 1;
    }

    /** `handle_gracefully_internal`: the same with the fixed context. */
    method HandleGracefullyInternal(handler: Outcome) returns (outcome: Outcome)
      modifies this
      ensures handlerCount == old(handlerCount) && lastExceptionTime == old(lastExceptionTime)
      ensures outcome.Fail? <==> handler == Fail(RecursionError) && old(handlerCount) + 1 > 1
      ensures handler.Fail? && outcome.Pass? ==> reports == old(reports) + [UncaughtExceptionInfo(handler.error, InternalErrorContext)]
      ensures !(handler.Fail? && outcome.Pass?) ==> reports == old(reports)
      ensures log == old(log) && dialogs == old(dialogs)
    {
      outcome := HandleGracefully(handler, InternalErrorContext);
    }

    /** `report_and_log_error`. */
    method ReportAndLogError(exception: Exception, context: string)
      modifies this
      ensures reports == old(reports) + [UncaughtExceptionInfo(exception, context)]
      ensures handlerCount == old(handlerCount) && lastExceptionTime == old(lastExceptionTime)
      ensures log == old(log) && dialogs == old(dialogs)
    {
      reports := reports + [UncaughtExceptionInfo(exception, context)];
    }

    /**
     * `_on_uncaught_exception`: log the error, and show the dialog only when more than thirty
     * seconds have passed since the last one shown. `logTime`, `checkTime` and `shownTime` are the
     * three clock readings; `traceback` and `shortTraceback` the traceback text without and with
     * the ten-frame limit.
     */
    method OnUncaughtException(
      info: UncaughtExceptionInfo, logTime: DateTime, checkTime: DateTime, shownTime: DateTime,
      traceback: seq<string>, shortTraceback: seq<string>)
      modifies this
      ensures log == old(log) + [LogEntry(logTime, FormatErrorInfo(info.context, traceback))]
      ensures Micros(checkTime) - Micros(old(lastExceptionTime)) > DialogThrottle ==>
                && lastExceptionTime == shownTime
                && dialogs == old(dialogs) + [DialogPreamble + FormatErrorInfo(info.context, shortTraceback)]
      ensures Micros(checkTime) - Micros(old(lastExceptionTime)) <= DialogThrottle ==>
                lastExceptionTime == old(lastExceptionTime) && dialogs == old(dialogs)
      ensures handlerCount == old(handlerCount) && reports == old(reports)
    {
      log := log + [LogEntry(logTime, FormatErrorInfo(info.context, traceback))];
      if Micros(checkTime) - Micros(lastExceptionTime) > DialogThrottle {
        lastExceptionTime := shownTime;
        dialogs := dialogs + [DialogPreamble + FormatErrorInfo(info.context, shortTraceback)];
      }
    }
  }

  /**
   * The first error shows the dialog: measured from `datetime.min`, any clock reading after the
   * first half minute of year 1 is more than thirty seconds later.
   */
  lemma FirstErrorShowsDialog(checkTime: DateTime)
    requires checkTime.year > 1
    ensures Micros(checkTime) - Micros(Min) > DialogThrottle
  {
    YearAfterFirstIsLater(checkTime);
  }

  lemma YearAfterFirstIsLater(t: DateTime)
    requires t.year > 1
    ensures Micros(t) >= 365 * 86400 * MicrosPerSecond
  {
    MicrosFromYearStart(t);
    assert DaysBeforeYear(t.year) >= 365;
  }
}
