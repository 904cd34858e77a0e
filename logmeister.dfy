/**
 * The process-wide event logger (`log_event` in src/utils/logmeister.py, defined again with
 * the same body in src/strategy/core.py). Each call fetches the named logger, sets it to INFO,
 * attaches a new rotating file handler, and writes one record whose level and prefix depend on
 * the event kind; unknown kinds write nothing, and a failure inside the call is printed to the
 * console instead of raised.
 */
module LogMeister {
  import opened Maybe
  import Events

  /** The logging levels the dispatch uses. */
  datatype Level = Info | Warning | Error

  /** The numeric value of a level in Python's logging module. */
  function LevelNo(l: Level): int
  {
    match l
    case Info => 20
    case Warning => 30
    case Error => 40
  }

  /** `logging.INFO`, the threshold every call sets on the logger. */
  const InfoThreshold: int := 20

  /** The logger threshold before any call (`logging.NOTSET`). */
  const NotSet: int := 0

  /** The rotating file handler every call creates: file, size limit (10 MiB), backups. */
  datatype Handler = RotatingFileHandler(path: string, maxBytes: nat, backupCount: nat)

  const EventHandler: Handler := RotatingFileHandler("hft_log.txt", 10 * 1024 * 1024, 5)

  /** A record as the logger hands it to one handler: its level and its message text. */
  datatype Record = Record(level: Level, text: string)

  /**
   * The if/elif chain on the event kind. FILL is info, REJECTION a warning, RUNTIME_ERROR and
   * API_ERROR errors; any other kind has no level and writes nothing.
   */
  function Dispatch(kind: string): (l: Option<Level>)
    ensures kind == "FILL" ==> l == Some(Info)
    ensures kind == "REJECTION" ==> l == Some(Warning)
    ensures kind == "RUNTIME_ERROR" || kind == "API_ERROR" ==> l == Some(Error)
    ensures l.Some? <==> kind == "FILL" || kind == "REJECTION" || kind == "RUNTIME_ERROR" || kind == "API_ERROR"
  {
    if kind == "FILL" then Some(Info)
    else if kind == "REJECTION" then Some(Warning)
    else if kind == "RUNTIME_ERROR" then Some(Error)
    else if kind == "API_ERROR" then Some(Error)
    else None
  }

  /** The message a record carries: the kind as prefix, then the time, then the caller's message. */
  function RecordText(kind: string, now: string, message: string): (s: string)
    ensures kind + " - " + now + " - " <= s
    ensures |s| == |kind| + |now| + |message| + 6
    ensures s[|s| - |message|..] == message
  {
    kind + " - " + now + " - " + message
  }

  /** The records one call writes through each handler: none for an unknown kind. */
  function Emitted(kind: string, now: string, message: string): (rs: seq<Record>)
    ensures |rs| <= 1
    ensures |rs| == 1 <==> Dispatch(kind).Some?
    ensures forall r :: r in rs ==> Some(r.level) == Dispatch(kind) && r.text == RecordText(kind, now, message)
    ensures forall r :: r in rs ==> kind + " - " + now + " - " <= r.text
  {
    match Dispatch(kind)
    case Some(l) => [Record(l, RecordText(kind, now, message))]
    case None => []
  }

  /** Every kind the core schedules is one the logger writes, at the level its name calls for. */
  lemma ScheduledKindsWritten(k: Events.Kind)
    ensures Dispatch(Events.KindName(k)).Some?
    ensures k == Events.Fill <==> Dispatch(Events.KindName(k)) == Some(Info)
    ensures k == Events.Rejection <==> Dispatch(Events.KindName(k)) == Some(Warning)
    ensures k.RuntimeError? || k.ApiError? <==> Dispatch(Events.KindName(k)) == Some(Error)
  {
  }

  /** `rs` once per handler, in handler order. */
  function PerHandler(rs: seq<Record>, handlers: nat): seq<Record>
    decreases handlers
  {
    if handlers == 0 then [] else PerHandler(rs, handlers - 1) + rs
  }

  lemma {:induction false} PerHandlerLength(rs: seq<Record>, handlers: nat)
    ensures |PerHandler(rs, handlers)| == handlers * |rs|
    decreases handlers
  {
    if handlers > 0 {
      PerHandlerLength(rs, handlers - 1);
    }
  }

  lemma {:induction false} PerHandlerNothing(handlers: nat)
    ensures PerHandler([], handlers) == []
    decreases handlers
  {
    if handlers > 0 {
      PerHandlerNothing(handlers - 1);
    }
  }

  /** The logger `hft_logger`, shared by the whole process. */
  class Logger {
    /** The logger's threshold. */
    var level: int
    /** The handlers attached so far, oldest first. */
    var handlers: seq<Handler>
    /** What the handlers have written to the log file, record by record. */
    var written: seq<Record>
    /** What has been printed to the console. */
    var console: seq<string>

    constructor ()
      ensures level == NotSet && handlers == [] && written == [] && console == []
    {
      level := NotSet;
      handlers := [];
      written := [];
      console := [];
    }

    /**
     * `log_event(kind, message)` as written. `now` is the time the message carries and
     * `openFails` the error, if any, the new file handler raises when it opens the file.
     * With that error the call prints it and changes nothing else; otherwise it attaches a
     * new handler, and every attached handler writes the call's record: after n calls with
     * a known kind, the n-th record is in the file n times.
     */
    method LogEvent(kind: string, message: string, now: string, openFails: Option<string>)
      modifies this
      ensures level == InfoThreshold
      ensures openFails.Some? ==>
        handlers == old(handlers) && written == old(written) &&
        console == old(console) + ["Error during logging: " + openFails.value]
      ensures openFails.None? ==>
        handlers == old(handlers) + [EventHandler] && console == old(console) &&
        written == old(written) + PerHandler(Emitted(kind, now, message), |handlers|)
    {
      level := InfoThreshold;
      if openFails.Some? {
        console := console + ["Error during logging: " + openFails.value];
        return;
      }
      handlers := handlers + [EventHandler];
      var l := Dispatch(kind);
      if l.Some? && LevelNo(l.value) >= level {
        var i := 0;
        while i < |handlers|
          invariant i <= |handlers|
          invariant level == InfoThreshold && handlers == old(handlers) + [EventHandler] && console == old(console)
          invariant written == old(written) + PerHandler([Record(l.value, RecordText(kind, now, message))], i)
        {
          written := written + [Record(l.value, RecordText(kind, now, message))];
          i := i + 1;
        }
      } else {
        DispatchedLevelsPass(l, kind);
        PerHandlerNothing(|handlers|);
      }
    }

    /**
     * The evidently intended `log_event`: attach the file handler only when the logger has
     * none, keeping at most one handler, so every call with a known kind writes its record
     * exactly once.
     */
    method LogEventOnce(kind: string, message: string, now: string, openFails: Option<string>)
      requires |handlers| <= 1
      modifies this
      ensures level == InfoThreshold
      ensures |handlers| <= 1
      ensures old(handlers) == [] && openFails.Some? ==>
        handlers == [] && written == old(written) &&
        console == old(console) + ["Error during logging: " + openFails.value]
      ensures old(handlers) != [] || openFails.None? ==>
        handlers == (if old(handlers) == [] then [EventHandler] else old(handlers)) &&
        console == old(console) && written == old(written) + Emitted(kind, now, message)
    {
      level := InfoThreshold;
      if handlers == [] {
        if openFails.Some? {
          console := console + ["Error during logging: " + openFails.value];
          return;
        }
        handlers := [EventHandler];
      }
      written := written + Emitted(kind, now, message);
    }
  }

  /** Every level the dispatch chooses passes the INFO threshold, so nothing dispatched is filtered. */
  lemma DispatchedLevelsPass(l: Option<Level>, kind: string)
    requires l == Dispatch(kind)
    ensures l.Some? ==> LevelNo(l.value) >= InfoThreshold
  {
  }

  /** As written, two FILL events on a fresh logger put three records in the file: the second twice. */
  method TwoFillsAsWritten() returns (lines: nat, duplicated: bool)
    ensures lines == 3
    ensures duplicated
  {
    var logger := new Logger();
    logger.LogEvent("FILL", "first", "t0", None);
    logger.LogEvent("FILL", "second", "t1", None);
    lines := |logger.written|;
    duplicated := lines >= 3 && logger.written[1] == logger.written[2];
  }

  /** With the handler attached once, the same two FILL events put one record each in the file. */
  method TwoFillsOnce() returns (lines: nat)
    ensures lines == 2
  {
    var logger := new Logger();
    logger.LogEventOnce("FILL", "first", "t0", None);
    logger.LogEventOnce("FILL", "second", "t1", None);
    lines := |logger.written|;
  }
}
