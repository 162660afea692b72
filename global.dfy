/** Global (Global.cpp): the process-wide object created once by init, the
    FFmpeg logging level it manages, and the log callback that filters
    FFmpeg's messages, maps their levels and strips a trailing newline. */
module Globals {
  import opened Base

  /** libavutil's log levels. */
  const AV_LOG_QUIET: int := -8
  const AV_LOG_PANIC: int := 0
  const AV_LOG_FATAL: int := 8
  const AV_LOG_ERROR: int := 16
  const AV_LOG_WARNING: int := 24
  const AV_LOG_INFO: int := 32
  const AV_LOG_VERBOSE: int := 40
  const AV_LOG_DEBUG: int := 48

  /** The levels from PANIC to DEBUG, ascending. */
  const LEVELS: seq<int> := [AV_LOG_PANIC, AV_LOG_FATAL, AV_LOG_ERROR, AV_LOG_WARNING, AV_LOG_INFO, AV_LOG_VERBOSE, AV_LOG_DEBUG]

  /** Global::DEFAULT_PTS_PER_SECOND: microsecond time stamps. */
  const DEFAULT_PTS_PER_SECOND: Int32 := 1000000

  /** The level setFFmpegLoggingLevel installs for a requested level: the
      largest of PANIC..DEBUG not above it, or QUIET below PANIC. */
  function LevelFloor(level: int): (r: int)
    ensures level < AV_LOG_PANIC ==> r == AV_LOG_QUIET
    ensures level >= AV_LOG_PANIC ==> r in LEVELS && r <= level
    ensures forall l :: l in LEVELS && l <= level ==> l <= r
    ensures level >= AV_LOG_DEBUG ==> r == AV_LOG_DEBUG
  {
    if level < AV_LOG_PANIC then AV_LOG_QUIET
    else if level < AV_LOG_FATAL then AV_LOG_PANIC
    else if level < AV_LOG_ERROR then AV_LOG_FATAL
    else if level < AV_LOG_WARNING then AV_LOG_ERROR
    else if level < AV_LOG_INFO then AV_LOG_WARNING
    else if level < AV_LOG_VERBOSE then AV_LOG_INFO
    else if level < AV_LOG_DEBUG then AV_LOG_VERBOSE
    else AV_LOG_DEBUG
  }

  /** Requesting a level FFmpeg already has installs that very level, and
      requesting the installed level again changes nothing. */
  lemma LevelFloorFixed(level: int)
    ensures level in LEVELS ==> LevelFloor(level) == level
    ensures LevelFloor(LevelFloor(level)) == LevelFloor(level)
  {
  }

  /** The callback's filter: a message is passed on only when its level is
      not above the current level and logging is not switched off. */
  predicate ShouldLog(level: int, current: int)
    ensures ShouldLog(level, current) <==> AV_LOG_PANIC <= current && level <= current
    ensures current == AV_LOG_QUIET ==> !ShouldLog(level, current)
  {
    !(level > current || current < AV_LOG_PANIC)
  }

  /** After setFFmpegLoggingLevel(l), a message at one of the standard
      levels is passed on exactly when its level is at most l; below PANIC
      nothing is passed on. */
  lemma FilterAfterSetLevel(l: int, m: int)
    requires m in LEVELS
    ensures ShouldLog(m, LevelFloor(l)) <==> AV_LOG_PANIC <= l && m <= l
  {
  }

  /** Logger::Level, from most to least severe. */
  datatype LoggerLevel = LevelError | LevelWarn | LevelInfo | LevelDebug | LevelTrace

  /** A Logger level's position, most severe first. */
  function Rank(l: LoggerLevel): nat {
    match l
    case LevelError => 0
    case LevelWarn => 1
    case LevelInfo => 2
    case LevelDebug => 3
    case LevelTrace => 4
  }

  /** The callback's level mapping. */
  function LoggerLevelFor(level: int): (r: LoggerLevel)
    ensures r == LevelError <==> level <= AV_LOG_ERROR
    ensures r == LevelWarn <==> AV_LOG_ERROR < level <= AV_LOG_WARNING
    ensures r == LevelInfo <==> AV_LOG_WARNING < level <= AV_LOG_INFO
    ensures r == LevelDebug <==> AV_LOG_INFO < level <= AV_LOG_DEBUG
    ensures r == LevelTrace <==> level > AV_LOG_DEBUG
  {
    if level <= AV_LOG_ERROR then LevelError
    else if level <= AV_LOG_WARNING then LevelWarn
    else if level <= AV_LOG_INFO then LevelInfo
    else if level <= AV_LOG_DEBUG then LevelDebug
    else LevelTrace
  }

  /** The mapping is monotone: a less severe FFmpeg level never maps to a
      more severe Logger level, and each standard level lands in its own
      bucket (PANIC and FATAL share ERROR's, VERBOSE shares DEBUG's). */
  lemma LoggerLevelMonotone(a: int, b: int)
    requires a <= b
    ensures Rank(LoggerLevelFor(a)) <= Rank(LoggerLevelFor(b))
    ensures LoggerLevelFor(AV_LOG_WARNING) == LevelWarn && LoggerLevelFor(AV_LOG_INFO) == LevelInfo
    ensures LoggerLevelFor(AV_LOG_VERBOSE) == LevelDebug && LoggerLevelFor(AV_LOG_DEBUG) == LevelDebug
  {
  }

  /** The size of the callback's revisedFmt buffer. */
  const BUFFER_SIZE: nat := 1024

  /** snprintf into revisedFmt: the optional "[item @ address] " prefix of
      a message whose context has an AVClass, then the format, cut to what
      fits before the buffer's terminating NUL. */
  function Revised(context: Option<string>, fmt: string): (r: string)
    ensures |r| < BUFFER_SIZE
    ensures var full := if context.Some? then "[" + context.value + "] " + fmt else fmt;
      r <= full && (|full| < BUFFER_SIZE ==> r == full) && (|full| >= BUFFER_SIZE ==> |r| == BUFFER_SIZE - 1)
  {
    var full := if context.Some? then "[" + context.value + "] " + fmt else fmt;
    if |full| < BUFFER_SIZE then full else full[..BUFFER_SIZE - 1]
  }

  /** The message with one trailing newline removed, if it has one. */
  function StripNewline(s: string): (r: string)
    ensures |s| > 0 && s[|s| - 1] == '\n' ==> |r| == |s| - 1
    ensures !(|s| > 0 && s[|s| - 1] == '\n') ==> |r| == |s|
    ensures r == s[..|r|]
  {
    if |s| > 0 && s[|s| - 1] == '\n' then s[..|s| - 1] else s
  }

  /** Only one newline goes: a message ending in two keeps the first. */
  lemma StripOnlyOne(s: string)
    ensures StripNewline(s + "\n\n") == s + "\n"
  {
  }

  /** What the callback hands to the "org.ffmpeg" logger. */
  datatype LogRecord = LogRecord(level: LoggerLevel, message: string)

  /** The global object: its default time base (mDefaultTimeBase). */
  datatype Global = Global(defaultTimeBase: Rational)

  /** The process-wide state Global.cpp touches: sGlobal, and libavutil's
      log level and log callback. */
  class Runtime {
    /** Global::sGlobal. */
    var global: Option<Global>
    /** av_log_get_level(). */
    var logLevel: int
    /** Whether humblevideo_log_callback is installed. */
    var callbackInstalled: bool
    /** How often avformat_network_init has run. */
    var networkInits: nat

    /** The object invariant: the global's time base is 1/DEFAULT_PTS_PER_SECOND. */
    ghost predicate Valid()
      reads this
    {
      global.Some? ==> global.value.defaultTimeBase == Rational(1, DEFAULT_PTS_PER_SECOND)
    }

    /** The process before any call: no global, FFmpeg's own level. */
    constructor (initialLevel: int)
      ensures Valid()
      ensures global.None? && logLevel == initialLevel && !callbackInstalled && networkInits == 0
    {
      global := None;
      logLevel := initialLevel;
      callbackInstalled := false;
      networkInits := 0;
    }

    /** Global::init: the first call installs the callback, sets the level
        to ERROR, initialises networking and creates the global; every later
        call changes nothing. */
    method Init()
      requires Valid()
      modifies this
      ensures Valid() && global.Some?
      ensures old(global).Some? ==>
                global == old(global) && logLevel == old(logLevel)
                && callbackInstalled == old(callbackInstalled) && networkInits == old(networkInits)
      ensures old(global).None? ==>
                global == Some(Global(Rational(1, DEFAULT_PTS_PER_SECOND)))
                && logLevel == AV_LOG_ERROR && callbackInstalled && networkInits == old(networkInits) + 1
    {
      if global.None? {
        callbackInstalled := true;
        logLevel := AV_LOG_ERROR;
        networkInits := networkInits + 1;
        global := Some(Global(Rational(1, DEFAULT_PTS_PER_SECOND)));
      }
    }

    /** Global::setFFmpegLoggingLevel: init, then install LevelFloor(level). */
    method SetFFmpegLoggingLevel(level: Int32)
      requires Valid()
      modifies this
      ensures Valid() && global.Some? && logLevel == LevelFloor(level)
      ensures old(global).Some? ==>
                global == old(global) && networkInits == old(networkInits) && callbackInstalled == old(callbackInstalled)
      ensures old(global).None? ==> callbackInstalled && networkInits == old(networkInits) + 1
    {
      Init();
      logLevel := LevelFloor(level);
    }

    /** Global::getDefaultTimeBase: null before init, 1/DEFAULT_PTS_PER_SECOND after. */
    function GetDefaultTimeBase(): (r: Option<Rational>)
      requires Valid()
      reads this
      ensures r.None? <==> global.None?
      ensures r.Some? ==> r.value == Rational(1, DEFAULT_PTS_PER_SECOND)
    {
      if global.None? then None else Some(global.value.defaultTimeBase)
    }

    /** humblevideo_log_callback: drop the message unless ShouldLog; map the
        level; write the revised format into a 1024-character buffer; cut
        one trailing newline in place; pass on a non-empty result. */
    method LogCallback(level: int, context: Option<string>, fmt: string) returns (emitted: Option<LogRecord>)
      ensures !ShouldLog(level, logLevel) ==> emitted.None?
      ensures ShouldLog(level, logLevel) ==>
        var text := StripNewline(Revised(context, fmt));
        emitted == if |text| > 0 then Some(LogRecord(LoggerLevelFor(level), text)) else None
      ensures emitted.Some? ==> 0 < |emitted.value.message| < BUFFER_SIZE && emitted.value.message <= Revised(context, fmt)
    {
      if level > logLevel || logLevel < AV_LOG_PANIC {
        return None;
      }
      var logLevelOut := LoggerLevelFor(level);
      var written := Revised(context, fmt);
      assert |written| < BUFFER_SIZE;
      var revisedFmt := new char[BUFFER_SIZE](i => if 0 <= i < |written| then written[i] else 0 as char);
      var len := |written|;
      assert revisedFmt[..len] == written;
      if len > 0 && revisedFmt[len - 1] == '\n' {
        revisedFmt[len - 1] := 0 as char;
        len := len - 1;
        assert revisedFmt[..len] == written[..len];
      }
      if len > 0 {
        emitted := Some(LogRecord(logLevelOut, revisedFmt[..len]));
      } else {
        emitted := None;
      }
    }
  }
}
