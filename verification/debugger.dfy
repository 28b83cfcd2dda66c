/**
 The static `Debugger` facade of UnityDebugger (UnityDebugger/Debugger.cs).

 Every logging or assert call is decided by two gates: a severity gate (the master
 switch `Enabled` and the threshold `LogLevel`) and, for the channel-qualified
 overloads, a channel registry that hands out a default state to a channel the first
 time it is named and remembers it from then on. The facade's static fields are
 gathered in an immutable `State`; each entry point returns the next state (when it can
 change) and the event it hands to the engine console, if any.
 */
module Debugger {
  import opened Wrappers

  /** The severity enum, in declaration order: `None < Exception < Error < Warning < Info`. */
  datatype LogLevel = None | Exception | Error | Warning | Info

  /** The enum's underlying value; C# compares enum values through it. */
  function Ord(l: LogLevel): nat
  {
    match l
    case None => 0
    case Exception => 1
    case Error => 2
    case Warning => 3
    case Info => 4
  }

  /** `threshold >= level` on the enum, as C# compares enum values. */
  predicate AtLeast(threshold: LogLevel, level: LogLevel)
  {
    Ord(level) <= Ord(threshold)
  }

  /** Identity of an engine object or exception instance; its contents are never examined. */
  type ObjectRef = nat

  /** What the console is handed. */
  datatype Payload =
    | Text(message: string)          // Debug.Log, Debug.LogWarning, Debug.LogError
    | Thrown(exception: ObjectRef)   // Debug.LogException
    | NullReport(name: string)       // the report AssertNotNull builds (its wording is not modelled)

  /** One call into the engine console: severity, payload and the optional context object. */
  datatype SinkEvent = SinkEvent(level: LogLevel, payload: Payload, context: Option<ObjectRef>)

  /** The facade's static state. */
  datatype State = State(
    enabled: bool,                 // Enabled, the master switch
    logLevel: LogLevel,            // LogLevel, the severity threshold
    defaultState: bool,            // DefaultState, handed to a channel on first use
    channels: map<string, bool>    // Channels, the registry of known channels
  )

  /** `AssertException`, carrying the caller's error text. */
  datatype AssertException = AssertException(message: string)

  /** The error text `Assert` uses when the caller gives none. */
  const DefaultAssertText := "Statement is false!"

  /**
   What `AssertNotNull` may be given: a null reference, an engine object that has been
   destroyed (it compares equal to null), or a live object.
   */
  datatype Obj = Null | Destroyed | Alive(ref: ObjectRef)

  /** The level gate: the master switch is on and the threshold admits `level`. */
  function LogLevelEnabled(s: State, level: LogLevel): (r: bool)
    ensures r ==> s.enabled
    ensures s.enabled && level == s.logLevel ==> r
    ensures s.logLevel == LogLevel.Info ==> r == s.enabled
    ensures s.logLevel == LogLevel.None ==> (r <==> s.enabled && level == LogLevel.None)
  {
    s.enabled && AtLeast(s.logLevel, level)
  }

  /**
   The channel registry: a known channel answers its stored flag and changes nothing;
   an unknown channel is registered with the current default and answers that default.
   */
  function ChannelEnabled(s: State, channel: string): (r: (bool, State))
    ensures channel in s.channels ==> r.0 == s.channels[channel] && r.1 == s
    ensures channel !in s.channels ==> r.0 == s.defaultState
    ensures channel in r.1.channels && r.1.channels[channel] == r.0
    ensures r.1.channels.Keys == s.channels.Keys + {channel}
    ensures forall k :: k in s.channels ==> r.1.channels[k] == s.channels[k]
    ensures |r.1.channels| == if channel in s.channels then |s.channels| else |s.channels| + 1
    ensures r.1.enabled == s.enabled && r.1.logLevel == s.logLevel && r.1.defaultState == s.defaultState
  {
    if channel in s.channels then
      (s.channels[channel], s)
    else
      var setting := s.defaultState;
      (setting, s.(channels := s.channels[channel := setting]))
  }

  /** The shape shared by the channel-less overloads: forward only when the level gate opens. */
  function LevelGated(s: State, level: LogLevel, payload: Payload, context: Option<ObjectRef>): (e: Option<SinkEvent>)
    ensures e.Some? <==> LogLevelEnabled(s, level)
    ensures e.Some? ==> e.value == SinkEvent(level, payload, context)
  {
    if LogLevelEnabled(s, level) then Some(SinkEvent(level, payload, context)) else Option.None
  }

  /**
   The shape shared by the channel-qualified overloads: consult the registry first, then
   delegate to the channel-less overload. The lookup runs whatever the level, so even a
   suppressed call registers its channel.
   */
  function ChannelGated(s: State, channel: string, level: LogLevel, payload: Payload, context: Option<ObjectRef>)
    : (r: (State, Option<SinkEvent>))
    ensures r.0 == ChannelEnabled(s, channel).1
    ensures channel in r.0.channels
    ensures r.1.Some? <==> ChannelEnabled(s, channel).0 && LogLevelEnabled(s, level)
    ensures r.1.Some? ==> r.1.value == SinkEvent(level, payload, context)
  {
    var (open, next) := ChannelEnabled(s, channel);
    if open then (next, LevelGated(next, level, payload, context)) else (next, Option.None)
  }

  /** `Log(message, context)`: an Info message passes only at the most verbose threshold. */
  function Log(s: State, message: string, context: Option<ObjectRef>): (e: Option<SinkEvent>)
    ensures e.Some? <==> s.enabled && s.logLevel == LogLevel.Info
    ensures e.Some? ==> e.value == SinkEvent(LogLevel.Info, Text(message), context)
  {
    LevelGated(s, LogLevel.Info, Text(message), context)
  }

  /** `LogWarning(message, context)`: passes at the Warning and Info thresholds. */
  function LogWarning(s: State, message: string, context: Option<ObjectRef>): (e: Option<SinkEvent>)
    ensures e.Some? <==> s.enabled && s.logLevel in {LogLevel.Warning, LogLevel.Info}
    ensures e.Some? ==> e.value == SinkEvent(LogLevel.Warning, Text(message), context)
  {
    LevelGated(s, LogLevel.Warning, Text(message), context)
  }

  /** `LogError(message, context)`: passes at every threshold except None and Exception. */
  function LogError(s: State, message: string, context: Option<ObjectRef>): (e: Option<SinkEvent>)
    ensures e.Some? <==> s.enabled && s.logLevel !in {LogLevel.None, LogLevel.Exception}
    ensures e.Some? ==> e.value == SinkEvent(LogLevel.Error, Text(message), context)
  {
    LevelGated(s, LogLevel.Error, Text(message), context)
  }

  /** `LogException(exception, context)`: passes at every threshold except None. */
  function LogException(s: State, exception: ObjectRef, context: Option<ObjectRef>): (e: Option<SinkEvent>)
    ensures e.Some? <==> s.enabled && s.logLevel != LogLevel.None
    ensures e.Some? ==> e.value == SinkEvent(LogLevel.Exception, Thrown(exception), context)
  {
    LevelGated(s, LogLevel.Exception, Thrown(exception), context)
  }

  /** The answer the registry gives for `channel` in state `s`, without the side effect. */
  function ChannelSetting(s: State, channel: string): bool
  {
    if channel in s.channels then s.channels[channel] else s.defaultState
  }

  /** `Log(channel, message, context)`. */
  function LogToChannel(s: State, channel: string, message: string, context: Option<ObjectRef>)
    : (r: (State, Option<SinkEvent>))
    ensures r.1.Some? <==> ChannelSetting(s, channel) && s.enabled && s.logLevel == LogLevel.Info
    ensures r.1.Some? ==> r.1.value == SinkEvent(LogLevel.Info, Text(message), context)
    ensures r.0.channels == s.channels[channel := ChannelSetting(s, channel)]
    ensures r.0.enabled == s.enabled && r.0.logLevel == s.logLevel && r.0.defaultState == s.defaultState
  {
    ChannelGated(s, channel, LogLevel.Info, Text(message), context)
  }

  /** `LogWarning(channel, message, context)`. */
  function LogWarningToChannel(s: State, channel: string, message: string, context: Option<ObjectRef>)
    : (r: (State, Option<SinkEvent>))
    ensures r.1.Some? <==> ChannelSetting(s, channel) && s.enabled && s.logLevel in {LogLevel.Warning, LogLevel.Info}
    ensures r.1.Some? ==> r.1.value == SinkEvent(LogLevel.Warning, Text(message), context)
    ensures r.0.channels == s.channels[channel := ChannelSetting(s, channel)]
    ensures r.0.enabled == s.enabled && r.0.logLevel == s.logLevel && r.0.defaultState == s.defaultState
  {
    ChannelGated(s, channel, LogLevel.Warning, Text(message), context)
  }

  /** `LogError(channel, message, context)`. */
  function LogErrorToChannel(s: State, channel: string, message: string, context: Option<ObjectRef>)
    : (r: (State, Option<SinkEvent>))
    ensures r.1.Some? <==> ChannelSetting(s, channel) && s.enabled && s.logLevel !in {LogLevel.None, LogLevel.Exception}
    ensures r.1.Some? ==> r.1.value == SinkEvent(LogLevel.Error, Text(message), context)
    ensures r.0.channels == s.channels[channel := ChannelSetting(s, channel)]
    ensures r.0.enabled == s.enabled && r.0.logLevel == s.logLevel && r.0.defaultState == s.defaultState
  {
    ChannelGated(s, channel, LogLevel.Error, Text(message), context)
  }

  /** `LogException(channel, exception, context)`. */
  function LogExceptionToChannel(s: State, channel: string, exception: ObjectRef, context: Option<ObjectRef>)
    : (r: (State, Option<SinkEvent>))
    ensures r.1.Some? <==> ChannelSetting(s, channel) && s.enabled && s.logLevel != LogLevel.None
    ensures r.1.Some? ==> r.1.value == SinkEvent(LogLevel.Exception, Thrown(exception), context)
    ensures r.0.channels == s.channels[channel := ChannelSetting(s, channel)]
    ensures r.0.enabled == s.enabled && r.0.logLevel == s.logLevel && r.0.defaultState == s.defaultState
  {
    ChannelGated(s, channel, LogLevel.Exception, Thrown(exception), context)
  }

  /**
   `Assert(statement, errorText)`: raises `AssertException` with the caller's text exactly
   when the facade is enabled and the statement is false. It reads only the master
   switch: it neither changes the state nor reaches the console.
   */
  function Assert(s: State, statement: bool, errorText: string := DefaultAssertText)
    : (r: Result<(), AssertException>)
    ensures r.Failure? <==> s.enabled && !statement
    ensures r.Failure? ==> r.error == AssertException(errorText)
  {
    if s.enabled && !statement then Failure(AssertException(errorText)) else Success(())
  }

  /**
   `AssertNotNull(obj, name, context)`: reports a null (or destroyed) object through the
   console's error writer when the facade is enabled. It bypasses the level threshold,
   never raises, and never touches the registry.
   */
  function AssertNotNull(s: State, obj: Obj, name: string, context: ObjectRef): (e: Option<SinkEvent>)
    ensures e.Some? <==> s.enabled && !obj.Alive?
    ensures e.Some? ==> e.value == SinkEvent(LogLevel.Error, NullReport(name), Some(context))
  {
    if s.enabled && (obj.Null? || obj.Destroyed?) then
      Some(SinkEvent(LogLevel.Error, NullReport(name), Some(context)))
    else
      Option.None
  }

  /** The levels each threshold admits, written out case by case. */
  function Admitted(threshold: LogLevel): set<LogLevel>
  {
    match threshold
    case None => {LogLevel.None}
    case Exception => {LogLevel.None, LogLevel.Exception}
    case Error => {LogLevel.None, LogLevel.Exception, LogLevel.Error}
    case Warning => {LogLevel.None, LogLevel.Exception, LogLevel.Error, LogLevel.Warning}
    case Info => {LogLevel.None, LogLevel.Exception, LogLevel.Error, LogLevel.Warning, LogLevel.Info}
  }

  /** The level gate agrees with the written-out table of admitted levels. */
  lemma LevelGateMatchesTable(s: State, level: LogLevel)
    ensures LogLevelEnabled(s, level) <==> s.enabled && level in Admitted(s.logLevel)
  {
  }

  /** A gate that admits a level admits every less verbose level too. */
  lemma LevelGateMonotone(s: State, level: LogLevel, lower: LogLevel)
    requires Ord(lower) <= Ord(level)
    ensures LogLevelEnabled(s, level) ==> LogLevelEnabled(s, lower)
  {
  }

  /**
   Asking the registry twice in a row gives the same answer and leaves the same state as
   asking once.
   */
  lemma ChannelEnabledIdempotent(s: State, channel: string)
    ensures ChannelEnabled(ChannelEnabled(s, channel).1, channel) == ChannelEnabled(s, channel)
  {
  }

  /** Once a channel is registered, its answer no longer depends on the default state. */
  lemma KnownChannelIgnoresDefault(s: State, channel: string, newDefault: bool)
    requires channel in s.channels
    ensures ChannelEnabled(s.(defaultState := newDefault), channel).0 == ChannelEnabled(s, channel).0
  {
  }
}
