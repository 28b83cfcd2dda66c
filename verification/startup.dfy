/**
 The static constructor of the `Debugger` facade: the initial state, and the optional
 seeding of the channel registry from the persisted `ChannelSettings` asset.
 */
module Startup {
  import opened Wrappers
  import opened Debugger

  /** The `ChannelSettingsSO` asset: a default state and a channel-name to flag map. */
  datatype ChannelSettings = ChannelSettings(defaultState: bool, channelState: map<string, bool>)

  /** The `ArgumentException` `Dictionary.Add` raises for a key already present. */
  datatype DuplicateKey = DuplicateKey(key: string)

  /** `Dictionary.Add`: insert a fresh key, or raise on a key that is already present. */
  function Add(m: map<string, bool>, key: string, value: bool): (r: Result<map<string, bool>, DuplicateKey>)
    ensures r.Failure? <==> key in m
    ensures r.Failure? ==> r.error.key == key
    ensures r.Success? ==> r.value.Keys == m.Keys + {key} && r.value[key] == value
    ensures r.Success? ==> forall k :: k in m ==> r.value[k] == m[k]
  {
    if key in m then Failure(DuplicateKey(key)) else Success(m[key := value])
  }

  /**
   The constructor's `foreach` over the asset's keys, adding each entry to `channels` in
   whatever order the dictionary enumerates them. It succeeds exactly when no key is
   already present, and then yields the union; otherwise it raises on one of the shared
   keys.
   */
  method SeedChannels(channels: map<string, bool>, source: map<string, bool>)
    returns (r: Result<map<string, bool>, DuplicateKey>)
    ensures r.Success? <==> channels.Keys !! source.Keys
    ensures r.Success? ==> r.value == channels + source
    ensures r.Failure? ==> r.error.key in channels.Keys * source.Keys
  {
    var acc := channels;
    var todo := source.Keys;
    while todo != {}
      invariant todo <= source.Keys
      invariant acc.Keys == channels.Keys + (source.Keys - todo)
      invariant channels.Keys !! (source.Keys - todo)
      invariant forall k :: k in channels ==> acc[k] == channels[k]
      invariant forall k :: k in source.Keys - todo ==> acc[k] == source[k]
      decreases todo
    {
      var key :| key in todo;
      var added := Add(acc, key, source[key]);
      if added.Failure? {
        return Failure(added.error);
      }
      acc := added.value;
      todo := todo - {key};
    }
    assert acc.Keys == (channels + source).Keys;
    return Success(acc);
  }

  /**
   The static constructor. `isDebugBuild` is the engine's debug-build flag; `settings`
   is the asset when the constructor runs inside the Windows or macOS editor and finds
   it, and `None` otherwise (a player build, another editor platform, or no asset). The level starts at Info; without settings
   the default state is true and the registry is empty, with settings both come from the
   asset verbatim.
   */
  method Init(isDebugBuild: bool, settings: Option<ChannelSettings>) returns (s: State)
    ensures s.enabled == isDebugBuild && s.logLevel == LogLevel.Info
    ensures settings.None? ==> s.defaultState && s.channels == map[]
    ensures settings.Some? ==> s.defaultState == settings.value.defaultState
    ensures settings.Some? ==> s.channels == settings.value.channelState
  {
    s := State(isDebugBuild, LogLevel.Info, true, map[]);
    if settings.Some? {
      s := s.(defaultState := settings.value.defaultState);
      var seeded := SeedChannels(s.channels, settings.value.channelState);
      match seeded
      case Success(m) =>
        s := s.(channels := m);
      case Failure(_) =>
        assert false;
    }
  }
}
