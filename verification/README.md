# UnityDebugger gating model

A Dafny model of the static `Debugger` facade of UnityDebugger, a logging wrapper over
the Unity console. For every logging or assert call the facade decides whether anything
reaches the console. Two gates make that decision:

- the **level gate**: the master switch `Enabled`, and the threshold `LogLevel` over the
  ordered enum `None < Exception < Error < Warning < Info`;
- the **channel registry**: `Channels`, a map from channel name to flag. A channel-qualified
  call looks its channel up. The first lookup of a channel inserts it with the current
  `DefaultState`, and later lookups return the stored flag.

The facade's static fields form an immutable `State`. Each entry point is a pure function
that returns the next state (when the call can change it) and the `SinkEvent` handed to
the console, if any. `Assert` returns a `Result` whose failure is the `AssertException`.

Files:

- `wrappers.dfy` — `Option` and `Result`.
- `debugger.dfy` — module `Debugger`: the enum, the state, both gates, the eight logging
  entry points, `Assert`, `AssertNotNull`, and lemmas about the registry and the level gate.
- `startup.dfy` — module `Startup`: the static constructor, including the loop that copies
  the settings asset into the registry with `Dictionary.Add` semantics.
- `session.dfy` — module `Session`: a session is a sequence of calls, including the public
  setters of `Enabled`, `LogLevel` and `DefaultState`, and in-place edits of one channel
  (`Channels[key] = flag`) through the public `Channels` getter. Lemmas about whole sessions cover
  registration, silence while disabled, the threshold bound and stability after first use.

The channel-qualified overloads look the channel up before the level gate runs
(UnityDebugger/Debugger.cs:129, 179, 229 and 279). So a call the level gate suppresses,
or any call while `Enabled` is false, still registers its channel with the current
default. `Debugger.ChannelGated`, `Session.DisabledRunIsSilent` and
`Session.RunRegistersNamedChannels` state this. `LogLevelEnabled` is
`Enabled && LogLevel >= level`, which admits `None` itself while enabled; no entry point
logs at `None`, so a `None` threshold silences every logging call.

## Model

| member | source | states |
|---|---|---|
| Debugger.LogLevelEnabled | UnityDebugger/Debugger.cs:289-292 | the gate is never open while disabled; it always admits the threshold's own level; at Info it equals the master switch; at None it admits no level a log entry point uses |
| Debugger.LevelGateMatchesTable | UnityDebugger/Debugger.cs:18-25 | the level gate equals "enabled and the level is in the threshold's row of a written-out table of admitted levels" |
| Debugger.LevelGateMonotone | UnityDebugger/Debugger.cs:14-25 | a gate that admits a level admits every less verbose level |
| Debugger.ChannelEnabled | UnityDebugger/Debugger.cs:294-306 | a known channel answers its stored flag and leaves the state unchanged; an unknown one answers the default and is inserted with it; the map gains exactly that key, other entries and the other fields are unchanged |
| Debugger.ChannelEnabledIdempotent | UnityDebugger/Debugger.cs:294-306 | a second lookup right after the first gives the same answer and the same state |
| Debugger.KnownChannelIgnoresDefault | UnityDebugger/Debugger.cs:296-299 | once a channel is registered, changing the default state does not change its answer |
| Debugger.ChannelGated | UnityDebugger/Debugger.cs:127-133 | a channel-qualified call emits iff the registry answers true and the level gate opens; the next state is the lookup's state, so the channel is registered even when nothing is emitted |
| Debugger.Log | UnityDebugger/Debugger.cs:113-119 | an Info message is emitted iff enabled and the threshold is Info, with the caller's message and context |
| Debugger.LogWarning | UnityDebugger/Debugger.cs:163-169 | a warning is emitted iff enabled and the threshold is Warning or Info |
| Debugger.LogError | UnityDebugger/Debugger.cs:213-219 | an error is emitted iff enabled and the threshold is neither None nor Exception |
| Debugger.LogException | UnityDebugger/Debugger.cs:263-269 | an exception is emitted iff enabled and the threshold is not None |
| Debugger.LogToChannel | UnityDebugger/Debugger.cs:127-133 | emits an Info event iff the channel's setting (stored or default) is on, enabled, and threshold Info; the registry afterwards maps the channel to that setting; other fields unchanged |
| Debugger.LogWarningToChannel | UnityDebugger/Debugger.cs:177-183 | the same composition at Warning: emits iff the channel is on, enabled, and threshold Warning or Info |
| Debugger.LogErrorToChannel | UnityDebugger/Debugger.cs:227-233 | the same composition at Error: emits iff the channel is on, enabled, and threshold neither None nor Exception |
| Debugger.LogExceptionToChannel | UnityDebugger/Debugger.cs:277-283 | the same composition at Exception: emits iff the channel is on, enabled, and threshold not None |
| Debugger.Assert | UnityDebugger/Debugger.cs:82-88 | raises `AssertException` carrying the caller's text iff enabled and the statement is false; no state change and no console event in any case |
| Debugger.AssertNotNull | UnityDebugger/Debugger.cs:96-102 | reports one Error-level event with the caller's context iff enabled and the object is null or destroyed, whatever the threshold; never raises and never changes the registry |
| Startup.Add | UnityDebugger/Debugger.cs:69 | `Dictionary.Add` raises on a key already present; otherwise the map gains exactly that entry |
| Startup.SeedChannels | UnityDebugger/Debugger.cs:67-70 | copying the asset's entries one by one succeeds iff no key is already present, and then yields the union; a failure names a shared key |
| Startup.Init | UnityDebugger/Debugger.cs:53-73 | the initial level is Info and the master switch is the debug-build flag; without settings the default is true and the registry empty; with settings the default and the registry equal the asset's |
| Session.Step | UnityDebugger/Debugger.cs:41-285 | one call (a logging entry point, `Assert`, `AssertNotNull`, a setter, or an in-place channel edit) raises only when it is a failing `Assert` while enabled; a logging call emits its level, payload and context iff its channel (if any) is on and the level gate opens; `AssertNotNull` emits exactly its report, and `Assert`, the setters and edits emit nothing; nothing emits while disabled; a channel-qualified logging call leaves the registry as before plus the channel mapped to its stored flag or, if new, the current default; a setter stores its argument and only the matching setter changes a field |
| Session.Configured | UnityDebugger/Debugger.cs:41-51 | the setters of `Enabled`, `LogLevel` and `DefaultState` store their argument and change no other field; an in-place channel edit stores its flag; none of them emits or raises |
| Session.EditChannel | UnityDebugger/Debugger.cs:51 | `Channels[key] = flag` through the getter: the key is present afterwards with that flag, every other entry and every other field is unchanged |
| Session.Run | UnityDebugger/Debugger.cs:294-306 | over a whole session every registered channel stays registered and keeps its flag unless the session edits it in place, and at most one event is emitted per call |
| Session.RunRegistersNamedChannels | UnityDebugger/Debugger.cs:300-305 | a session registers no channel that none of its channel-qualified calls or in-place edits names, and if no assert raised it registers every one they name |
| Session.DisabledRunIsSilent | UnityDebugger/Debugger.cs:37-41 | a session that starts disabled and never sets `Enabled` to true (setting it to false is allowed) emits nothing and raises nothing, yet registers every channel it names |
| Session.RunRespectsThreshold | UnityDebugger/Debugger.cs:289-292 | in a session that never sets `LogLevel` to a different level, every logging event reaching the console is at a level the initial threshold admits; only `AssertNotNull` reports bypass it |
| Session.StableAfterFirstUse | UnityDebugger/Debugger.cs:296-299 | after a channel's first lookup, no later session that does not edit that channel in place (even one changing the default) changes its answer |
| Session.InPlaceEditOverrides | UnityDebugger/Debugger.cs:51 | an in-place edit of a channel through the public `Channels` dictionary overrides its answer, so stability after first use holds only for channels not edited |
| Session.SeededScenario | UnityDebugger/Debugger.cs:294-306 | with `AI` seeded off and default on: `AI` is suppressed, `Physics` passes and is registered as on, a later warning on it passes, a channel-less message passes |

## Left out

- The Unity console (`Debug.Log`, `Debug.LogWarning`, `Debug.LogError`, `Debug.LogException`) is a foreign sink; a call to it is modelled as the returned `SinkEvent`.
- The `*Format` overloads (`LogFormat`, `LogWarningFormat`, `LogErrorFormat`) are left out because they depend on the host's `string.Format`. They format before any gate runs. The channel-only variants also pass the already formatted text back in as a template, so it is formatted a second time. Messages here are opaque strings.
- The editor-platform check and `Resources.Load` of the settings asset are engine I/O; `Startup.Init` takes their outcome as an optional `ChannelSettings` argument.
- `ChannelDictionary` and `ChannelSettingsSO` are serialisation holders with no logic; they are a `map<string, bool>` and the `ChannelSettings` record.
- Null channel names are not modelled, because `Dictionary.ContainsKey(null)` raises in .NET; channel names are plain strings.
- Debugger.AssertNotNull: the report text (the name, the context's name and its type) is abstracted to the name. A null `context` makes the source dereference null; here the context is always a live reference.
- The public setter of `Channels` (replacing the whole registry) is not a `Session` call, because it discards registrations by design. The setters of `Enabled`, `LogLevel` and `DefaultState` are, and so is an in-place edit of one channel through the getter. Other in-place changes through the getter (`Remove`, `Clear`) are not modelled. `Session.Run` and `Session.StableAfterFirstUse` therefore promise retention only for channels the session does not edit.
- The `exists` flag, the contents of context objects and exceptions, and thread safety are not modelled; the facade is single-threaded static state.
