/**
 A sequence of calls into the `Debugger` facade from application code, including the
 public setters of `Enabled`, `LogLevel` and `DefaultState` and in-place edits of one
 channel through the `Channels` dictionary. Replaying a session shows how the gates
 behave over time: registered channels keep their flag unless edited in place, a
 disabled facade stays silent, and a fixed threshold bounds what reaches the console.
 */
module Session {
  import opened Wrappers
  import opened Debugger

  /** One call into the facade. */
  datatype Call =
    | InfoCall(channel: Option<string>, message: string, context: Option<ObjectRef>)
    | WarningCall(channel: Option<string>, message: string, context: Option<ObjectRef>)
    | ErrorCall(channel: Option<string>, message: string, context: Option<ObjectRef>)
    | ExceptionCall(channel: Option<string>, exception: ObjectRef, context: Option<ObjectRef>)
    | AssertCall(statement: bool, errorText: string)
    | AssertNotNullCall(obj: Obj, name: string, target: ObjectRef)
    | SetEnabled(enabled: bool)
    | SetLogLevel(level: LogLevel)
    | SetDefaultState(defaultState: bool)
    | SetChannel(key: string, flag: bool)   // `Channels[key] = flag` through the public getter

  /** The channel a call names: that of a channel-qualified logging call or of an in-place edit. */
  function Named(c: Call): set<string>
  {
    if IsLogging(c) && c.channel.Some? then
      {c.channel.value}
    else if c.SetChannel? then
      {c.key}
    else
      {}
  }

  /** The channel a call overwrites in place, if any. */
  function Edited(c: Call): set<string>
  {
    if c.SetChannel? then {c.key} else {}
  }

  /** Every channel a sequence of calls overwrites in place. */
  function EditedChannels(calls: seq<Call>): set<string>
    decreases |calls|
  {
    if calls == [] then {} else Edited(calls[0]) + EditedChannels(calls[1..])
  }

  /** Every channel named by a sequence of calls. */
  function NamedChannels(calls: seq<Call>): set<string>
    decreases |calls|
  {
    if calls == [] then {} else Named(calls[0]) + NamedChannels(calls[1..])
  }

  /** Every entry of `before` outside `edited` is still present, with the same flag, in `after`. */
  predicate RetainsExcept(before: map<string, bool>, after: map<string, bool>, edited: set<string>)
  {
    forall k :: k in before ==> k in after && (k !in edited ==> after[k] == before[k])
  }

  /** The outcome of one call: next state, console event, raised exception. */
  datatype StepResult = StepResult(state: State, event: Option<SinkEvent>, failure: Option<AssertException>)

  /** Route a logging call to its channel-less or channel-qualified overload. */
  function Dispatch(s: State, channel: Option<string>, level: LogLevel, payload: Payload, context: Option<ObjectRef>)
    : (r: (State, Option<SinkEvent>))
    ensures r.0.channels.Keys == s.channels.Keys + (if channel.Some? then {channel.value} else {})
    ensures RetainsExcept(s.channels, r.0.channels, {})
    ensures r.0.enabled == s.enabled && r.0.logLevel == s.logLevel && r.0.defaultState == s.defaultState
    ensures channel.Some? ==> r.0.channels == s.channels[channel.value := ChannelSetting(s, channel.value)]
    ensures r.1.Some? <==> (channel.None? || ChannelSetting(s, channel.value)) && LogLevelEnabled(s, level)
    ensures r.1.Some? ==> r.1.value == SinkEvent(level, payload, context)
  {
    match channel
    case None => (s, LevelGated(s, level, payload, context))
    case Some(name) => ChannelGated(s, name, level, payload, context)
  }

  /** The logging calls: one per `Log`, `LogWarning`, `LogError` and `LogException` family. */
  predicate IsLogging(c: Call)
  {
    c.InfoCall? || c.WarningCall? || c.ErrorCall? || c.ExceptionCall?
  }

  /** The severity and payload a logging call hands to its overload. */
  function Message(c: Call): (LogLevel, Payload)
    requires IsLogging(c)
  {
    match c
    case InfoCall(_, m, _) => (LogLevel.Info, Text(m))
    case WarningCall(_, m, _) => (LogLevel.Warning, Text(m))
    case ErrorCall(_, m, _) => (LogLevel.Error, Text(m))
    case ExceptionCall(_, ex, _) => (LogLevel.Exception, Thrown(ex))
  }

  /** A logging call as one step: it never raises, emits only through the level gate, and leaves the three flags alone. */
  function Logged(s: State, c: Call): (r: StepResult)
    requires IsLogging(c)
    ensures r.failure.None?
    ensures c.channel.Some? ==> r.state.channels == s.channels[c.channel.value := ChannelSetting(s, c.channel.value)]
    ensures r.event.Some? <==> (c.channel.None? || ChannelSetting(s, c.channel.value)) && LogLevelEnabled(s, Message(c).0)
    ensures r.event.Some? ==> LogLevelEnabled(s, r.event.value.level) && !r.event.value.payload.NullReport?
    ensures r.event.Some? ==> r.event.value == SinkEvent(Message(c).0, Message(c).1, c.context)
    ensures r.state.channels.Keys == s.channels.Keys + Named(c)
    ensures RetainsExcept(s.channels, r.state.channels, Edited(c))
    ensures r.state.enabled == s.enabled && r.state.logLevel == s.logLevel && r.state.defaultState == s.defaultState
  {
    var (level, payload) := Message(c);
    var (next, e) := Dispatch(s, c.channel, level, payload, c.context);
    StepResult(next, e, Option.None)
  }

  /** `Channels[key] = flag`: insert or overwrite one entry, leaving every other entry alone. */
  function EditChannel(s: State, key: string, flag: bool): (r: State)
    ensures r.channels.Keys == s.channels.Keys + {key} && r.channels[key] == flag
    ensures RetainsExcept(s.channels, r.channels, {key})
    ensures r.enabled == s.enabled && r.logLevel == s.logLevel && r.defaultState == s.defaultState
  {
    s.(channels := s.channels[key := flag])
  }

  /** `Assert` as one step: the state is unchanged and nothing is emitted. */
  function Asserted(s: State, statement: bool, errorText: string): (r: StepResult)
    ensures r.state == s && r.event.None?
    ensures r.failure.Some? <==> s.enabled && !statement
    ensures r.failure.Some? ==> r.failure.value.message == errorText
  {
    var failure := match Assert(s, statement, errorText)
      case Success(_) => Option.None
      case Failure(ex) => Some(ex);
    StepResult(s, Option.None, failure)
  }

  /** A setter or an in-place channel edit as one step: it never emits and never raises. */
  function Configured(s: State, c: Call): (r: StepResult)
    requires c.SetEnabled? || c.SetLogLevel? || c.SetDefaultState? || c.SetChannel?
    ensures r.event.None? && r.failure.None?
    ensures r.state.channels.Keys == s.channels.Keys + Named(c)
    ensures RetainsExcept(s.channels, r.state.channels, Edited(c))
    ensures c.SetChannel? ==> r.state.channels[c.key] == c.flag
    ensures !c.SetEnabled? ==> r.state.enabled == s.enabled
    ensures !c.SetLogLevel? ==> r.state.logLevel == s.logLevel
    ensures !c.SetDefaultState? ==> r.state.defaultState == s.defaultState
    ensures c.SetEnabled? ==> r.state.enabled == c.enabled
    ensures c.SetLogLevel? ==> r.state.logLevel == c.level
    ensures c.SetDefaultState? ==> r.state.defaultState == c.defaultState
  {
    var next :=
      match c
      case SetEnabled(b) => s.(enabled := b)
      case SetLogLevel(l) => s.(logLevel := l)
      case SetDefaultState(b) => s.(defaultState := b)
      case SetChannel(k, b) => EditChannel(s, k, b);
    StepResult(next, Option.None, Option.None)
  }

  /** Perform one call. */
  function Step(s: State, c: Call): (r: StepResult)
    ensures r.failure.Some? <==> c.AssertCall? && s.enabled && !c.statement
    ensures r.failure.Some? ==> r.failure.value.message == c.errorText
    ensures r.event.Some? ==> s.enabled
    ensures IsLogging(c) ==>
              (r.event.Some? <==> (c.channel.None? || ChannelSetting(s, c.channel.value)) && LogLevelEnabled(s, Message(c).0))
    ensures IsLogging(c) && r.event.Some? ==> r.event.value == SinkEvent(Message(c).0, Message(c).1, c.context)
    ensures c.AssertNotNullCall? ==> r.event == AssertNotNull(s, c.obj, c.name, c.target)
    ensures !IsLogging(c) && !c.AssertNotNullCall? ==> r.event.None?
    ensures IsLogging(c) && c.channel.Some? ==>
              r.state.channels == s.channels[c.channel.value := ChannelSetting(s, c.channel.value)]
    ensures r.event.Some? && !r.event.value.payload.NullReport? ==> AtLeast(r.state.logLevel, r.event.value.level)
    ensures r.state.channels.Keys == s.channels.Keys + Named(c)
    ensures RetainsExcept(s.channels, r.state.channels, Edited(c))
    ensures c.SetChannel? ==> r.state.channels[c.key] == c.flag
    ensures !c.SetEnabled? ==> r.state.enabled == s.enabled
    ensures !c.SetLogLevel? ==> r.state.logLevel == s.logLevel
    ensures !c.SetDefaultState? ==> r.state.defaultState == s.defaultState
    ensures c.SetEnabled? ==> r.state.enabled == c.enabled
    ensures c.SetLogLevel? ==> r.state.logLevel == c.level
    ensures c.SetDefaultState? ==> r.state.defaultState == c.defaultState
  {
    if IsLogging(c) then
      Logged(s, c)
    else if c.AssertCall? then
      Asserted(s, c.statement, c.errorText)
    else if c.AssertNotNullCall? then
      StepResult(s, AssertNotNull(s, c.obj, c.name, c.target), Option.None)
    else
      Configured(s, c)
  }

  /** The outcome of a session: final state, console events in order, and the exception that ended it. */
  datatype Trace = Trace(state: State, events: seq<SinkEvent>, failure: Option<AssertException>)

  /**
   Replay `calls` from `s`. An `AssertException` propagates to the caller and ends the
   session; the events emitted before it have already reached the console.
   */
  function Run(s: State, calls: seq<Call>): (r: Trace)
    ensures RetainsExcept(s.channels, r.state.channels, EditedChannels(calls))
    ensures |r.events| <= |calls|
    decreases |calls|
  {
    if calls == [] then
      Trace(s, [], Option.None)
    else
      var step := Step(s, calls[0]);
      if step.failure.Some? then
        Trace(step.state, [], step.failure)
      else
        var rest := Run(step.state, calls[1..]);
        var emitted := if step.event.Some? then [step.event.value] else [];
        Trace(rest.state, emitted + rest.events, rest.failure)
  }

  /**
   Registration: a session registers no channel it does not name, and every one it names
   when no assert raised, whether or not the gates let those calls through.
   */
  lemma {:induction false} RunRegistersNamedChannels(s: State, calls: seq<Call>)
    ensures Run(s, calls).state.channels.Keys <= s.channels.Keys + NamedChannels(calls)
    ensures Run(s, calls).failure.None? ==>
              Run(s, calls).state.channels.Keys == s.channels.Keys + NamedChannels(calls)
    decreases |calls|
  {
    if calls != [] {
      var step := Step(s, calls[0]);
      if step.failure.None? {
        RunRegistersNamedChannels(step.state, calls[1..]);
      }
    }
  }

  /**
   A facade that starts disabled and is never switched on (it may be switched off again)
   emits nothing and raises nothing, yet still registers every channel its calls name.
   */
  lemma {:induction false} DisabledRunIsSilent(s: State, calls: seq<Call>)
    requires !s.enabled
    requires forall i :: 0 <= i < |calls| ==> !(calls[i].SetEnabled? && calls[i].enabled)
    ensures Run(s, calls).events == []
    ensures Run(s, calls).failure.None?
    ensures Run(s, calls).state.channels.Keys == s.channels.Keys + NamedChannels(calls)
    decreases |calls|
  {
    if calls != [] {
      var step := Step(s, calls[0]);
      StepWhileDisabled(s, calls[0]);
      var rest := calls[1..];
      DisabledRunIsSilent(step.state, rest);
      RunRegistersNamedChannels(step.state, rest);
      var tail := Run(step.state, rest);
      assert Run(s, calls) == Trace(tail.state, tail.events, tail.failure);
    }
  }

  /** One call on a disabled facade that does not switch it on: silent, and still disabled. */
  lemma StepWhileDisabled(s: State, c: Call)
    requires !s.enabled
    requires !(c.SetEnabled? && c.enabled)
    ensures Step(s, c).event.None? && Step(s, c).failure.None?
    ensures !Step(s, c).state.enabled
  {
  }

  /**
   With the threshold never set to a different level, every logging event that reaches
   the console is at a level the initial threshold admits; only `AssertNotNull` reports
   ignore it.
   */
  lemma {:induction false} RunRespectsThreshold(s: State, calls: seq<Call>)
    requires forall i :: 0 <= i < |calls| ==> !(calls[i].SetLogLevel? && calls[i].level != s.logLevel)
    ensures forall j :: 0 <= j < |Run(s, calls).events| ==>
              Run(s, calls).events[j].payload.NullReport? || AtLeast(s.logLevel, Run(s, calls).events[j].level)
    decreases |calls|
  {
    if calls != [] {
      var step := Step(s, calls[0]);
      if step.failure.None? {
        assert step.state.logLevel == s.logLevel;
        RunRespectsThreshold(step.state, calls[1..]);
      }
    }
  }

  /**
   Stability after first use: once a channel has been looked up, any later session that
   does not edit it in place, including one that changes the default state, leaves its
   answer unchanged.
   */
  lemma StableAfterFirstUse(s: State, channel: string, calls: seq<Call>)
    requires channel !in EditedChannels(calls)
    ensures var (first, next) := ChannelEnabled(s, channel);
            var later := Run(next, calls).state;
            ChannelEnabled(later, channel) == (first, later)
  {
  }

  /**
   A registry seeded with `AI` switched off, default on, full verbosity: `AI` is
   suppressed, `Physics` passes and is registered as on, a later warning on `Physics`
   still passes, and a channel-less message is gated by level alone.
   */
  lemma SeededScenario(s: State, message: string)
    requires s == State(true, LogLevel.Info, true, map["AI" := false])
    ensures LogToChannel(s, "AI", message, Option.None).1.None?
    ensures var (next, e) := LogToChannel(s, "Physics", message, Option.None);
            && e.Some?
            && next.channels == map["AI" := false, "Physics" := true]
            && LogWarningToChannel(next, "Physics", message, Option.None).1.Some?
    ensures Log(s, message, Option.None).Some?
  {
  }

  /** An in-place edit overrides a registered channel: the registry answers the new flag. */
  lemma InPlaceEditOverrides(s: State, channel: string, flag: bool)
    ensures ChannelEnabled(Step(s, SetChannel(channel, flag)).state, channel).0 == flag
  {
  }
}
