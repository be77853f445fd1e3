/** The relay itself: the module-level state of wsobs.js (`obsConnected`, `currentScene`,
    `scenes`, `audioSources`) as the fields of one `Server` object, and one method per HTTP
    command handler and per endpoint notification. What the source sends with `obs.send` and
    broadcasts with `io.emit` is appended to the `log` field in order; what the endpoint answers
    is chosen by the caller through the methods' parameters. */
module Relay {
  import opened Wrappers
  import opened Messages
  import opened AudioCache

  // ---------------------------------------------------------------------------------------
  // Guards and the initial sync, as decisions on values

  /** The four command routes with their body fields. An absent or empty string field is `""`;
      an absent volume is `None`. */
  datatype Request =
    | PostSwitchScene(sceneName: string)
    | PostToggleAudio(sourceName: string)
    | PostSetVolume(sourceName: string, volume: Option<real>)
    | PostToggleAllAudio

  /** A field the route requires is absent: `!sceneName`, `!sourceName`, `volume === undefined`. */
  predicate MissingField(req: Request) {
    match req
    case PostSwitchScene(name) => name == ""
    case PostToggleAudio(name) => name == ""
    case PostSetVolume(name, volume) => name == "" || volume.None?
    case PostToggleAllAudio => false
  }

  /** The checks a handler makes before it calls the endpoint, in their order: a missing field is
      answered 400 whatever the connection, then a lost connection 503; `None` lets it proceed.
      Toggle-all has no field to miss, so it is never answered 400. */
  function Precheck(req: Request, connected: bool): (r: Option<int>)
    ensures r == Some(BadRequest) <==> MissingField(req)
    ensures r == Some(ServiceUnavailable) <==> !MissingField(req) && !connected
    ensures r.None? <==> !MissingField(req) && connected
    ensures req.PostToggleAllAudio? ==> r != Some(BadRequest)
  {
    if MissingField(req) then Some(BadRequest)
    else if !connected then Some(ServiceUnavailable)
    else None
  }

  /** The position a message takes in the initial sync. */
  function SyncRank(e: Event): nat {
    match e
    case Status(_) => 0
    case Scenes(_, _) => 1
    case _ => 2
  }

  /** The messages a newly connected browser receives: the connection status first, then the
      scene list if connected and there are scenes, then the audio sources if connected and
      there are sources, and nothing else. */
  function InitialSync(connected: bool, scenes: seq<Scene>, currentScene: string, sources: seq<AudioSource>)
    : (r: seq<Event>)
    ensures |r| >= 1 && r[0] == Status(connected)
    ensures Scenes(scenes, currentScene) in r <==> connected && |scenes| > 0
    ensures AudioSources(sources) in r <==> connected && |sources| > 0
    ensures forall e :: e in r ==> e in {Status(connected), Scenes(scenes, currentScene), AudioSources(sources)}
    ensures forall i, j :: 0 <= i < j < |r| ==> SyncRank(r[i]) < SyncRank(r[j])
  {
    [Status(connected)]
    + (if connected && |scenes| > 0 then [Scenes(scenes, currentScene)] else [])
    + (if connected && |sources| > 0 then [AudioSources(sources)] else [])
  }

  /** The scene list built from `GetSceneList`: every entry is marked active exactly when it is
      the current scene. */
  function ScenesOf(list: SceneList): (r: seq<Scene>)
    decreases |list.entries|
    ensures |r| == |list.entries|
    ensures forall i :: 0 <= i < |r| ==>
              r[i].name == list.entries[i].0 && r[i].id == list.entries[i].1
              && (r[i].active <==> r[i].name == list.current)
  {
    if list.entries == [] then []
    else
      var (name, id) := list.entries[0];
      [Scene(name, id, name == list.current)] + ScenesOf(SceneList(list.entries[1..], list.current))
  }

  /** The cached record for a listed source whose `GetVolume` answered. */
  function Reported(name: string, info: VolumeInfo): AudioSource {
    AudioSource(name, info.muted, ToPercent(info.level))
  }

  /** The positions below `n` whose `GetVolume` answered, in increasing order. */
  function AnsweredAt(n: nat, replies: seq<Option<VolumeInfo>>): (pos: seq<nat>)
    ensures Increasing(pos)
    ensures forall m :: 0 <= m < |pos| ==> pos[m] < n && pos[m] < |replies| && replies[pos[m]].Some?
  {
    if n == 0 then []
    else AnsweredAt(n - 1, replies) + (if n - 1 < |replies| && replies[n - 1].Some? then [n - 1] else [])
  }

  /** Every position below `n` whose query answered is among the answered positions. */
  lemma {:induction false} AnsweredAtExactly(n: nat, replies: seq<Option<VolumeInfo>>)
    ensures forall j :: 0 <= j < n ==> (j in AnsweredAt(n, replies) <==> j < |replies| && replies[j].Some?)
  {
    if n > 0 {
      AnsweredAtExactly(n - 1, replies);
    }
  }

  /** The audio list built at connection time from the first `n` listed sources: those whose
      `GetVolume` answered, in the order the endpoint listed them. `replies[i]` answers for
      `names[i]`; a failed or missing answer drops that source. */
  function Collected(names: seq<string>, replies: seq<Option<VolumeInfo>>, n: nat): (r: seq<AudioSource>)
    requires n <= |names|
    ensures |r| <= n
  {
    if n == 0 then []
    else
      Collected(names, replies, n - 1)
      + (if n - 1 < |replies| && replies[n - 1].Some? then [Reported(names[n - 1], replies[n - 1].value)] else [])
  }

  /** `r` holds, for each answered position of `pos` in order, the record reported there. */
  ghost predicate Aligned(r: seq<AudioSource>, pos: seq<nat>, names: seq<string>, replies: seq<Option<VolumeInfo>>) {
    |r| == |pos|
    && forall m :: 0 <= m < |r| ==>
         pos[m] < |names| && pos[m] < |replies| && replies[pos[m]].Some?
         && r[m] == Reported(names[pos[m]], replies[pos[m]].value)
  }

  lemma AlignedAppend(r: seq<AudioSource>, pos: seq<nat>, names: seq<string>, replies: seq<Option<VolumeInfo>>, p: nat)
    requires Aligned(r, pos, names, replies)
    requires p < |names| && p < |replies| && replies[p].Some?
    ensures Aligned(r + [Reported(names[p], replies[p].value)], pos + [p], names, replies)
  {
    var r', pos' := r + [Reported(names[p], replies[p].value)], pos + [p];
    forall m | 0 <= m < |r'|
      ensures pos'[m] < |names| && pos'[m] < |replies| && replies[pos'[m]].Some?
      ensures r'[m] == Reported(names[pos'[m]], replies[pos'[m]].value)
    {
      if m < |r| {
        assert r'[m] == r[m] && pos'[m] == pos[m];
      }
    }
  }

  /** The `m`-th collected record is the one reported for the `m`-th answered position: every
      answered source appears once, in listed order, with its reported flag and percentage, and
      a source is left out exactly when its query failed (`AnsweredAtExactly`). */
  lemma {:induction false} CollectedInOrder(names: seq<string>, replies: seq<Option<VolumeInfo>>, n: nat)
    requires n <= |names|
    ensures Aligned(Collected(names, replies, n), AnsweredAt(n, replies), names, replies)
  {
    if n > 0 {
      CollectedInOrder(names, replies, n - 1);
      var r, pos := Collected(names, replies, n - 1), AnsweredAt(n - 1, replies);
      if n - 1 < |replies| && replies[n - 1].Some? {
        AlignedAppend(r, pos, names, replies, n - 1);
      } else {
        assert Collected(names, replies, n) == r + [];
        assert AnsweredAt(n, replies) == pos + [];
      }
    }
  }

  /** When every listed query answers, the cache holds every listed source, position by position. */
  lemma {:induction false} CollectedAll(names: seq<string>, replies: seq<Option<VolumeInfo>>, n: nat)
    requires n <= |names|
    requires n <= |replies| && forall i :: 0 <= i < n ==> replies[i].Some?
    ensures var r := Collected(names, replies, n);
            |r| == n && forall i :: 0 <= i < n ==> r[i] == Reported(names[i], replies[i].value)
  {
    if n > 0 {
      CollectedAll(names, replies, n - 1);
    }
  }

  /** The commands issued while collecting: one `GetVolume` per listed source, in order. */
  function VolumeQueries(names: seq<string>): (r: seq<Effect>)
    ensures |r| == |names|
    ensures forall i :: 0 <= i < |names| ==> r[i] == Send(GetVolume(names[i]))
  {
    if names == [] then [] else VolumeQueries(names[..|names| - 1]) + [Send(GetVolume(names[|names| - 1]))]
  }

  /** The second loop of toggle-all, over the cached list `s`: every source whose state differs
      from `mute` gets a `SetMute` command, its new flag and a broadcast, until the endpoint
      rejects a command (`failAt`, see StopIndex). Returns the list as the loop leaves it, what
      it issued in order, and whether it was aborted. */
  method MuteEach(s: seq<AudioSource>, mute: bool, failAt: nat)
    returns (updated: seq<AudioSource>, issued: seq<Effect>, rejected: bool)
    ensures var k := StopIndex(s, mute, failAt);
            rejected == (k < |s|)
            && updated == MutedUpTo(s, k, mute)
            && issued == MuteEffects(s, k, mute) + (if k < |s| then [Send(SetMute(s[k].name, mute))] else [])
  {
    updated, issued, rejected := s, [], false;
    var i := 0;
    while i < |updated|
      invariant 0 <= i <= |s| == |updated|
      invariant !rejected && (failAt < i ==> s[failAt].muted == mute)
      invariant updated == MutedUpTo(s, i, mute)
      invariant issued == MuteEffects(s, i, mute)
    {
      var source := updated[i];
      assert source == s[i];
      if source.muted != mute {
        if i == failAt {
          // the endpoint rejects this SetMute: it was sent, and the loop ends before the flag
          // changes or anything is broadcast
          issued := issued + [Send(SetMute(source.name, mute))];
          rejected := true;
          break;
        }
        updated := updated[i := source.(muted := mute)];
        issued := issued + [Send(SetMute(source.name, mute)),
                            Broadcast(AudioUpdated(source.name, mute, ToLevel(source.volume)))];
      } else {
        assert source.(muted := mute) == source;
      }
      i := i + 1;
    }
    assert i == StopIndex(s, mute, failAt);
  }

  // ---------------------------------------------------------------------------------------
  // The server state and its handlers

  class Server {
    /** `obsConnected` */
    var connected: bool
    /** `currentScene` */
    var currentScene: string
    /** `scenes` */
    var scenes: seq<Scene>
    /** `audioSources` */
    var sources: seq<AudioSource>
    /** Every command sent to the endpoint and every broadcast so far, oldest first. */
    var log: seq<Effect>

    /** The state at start-up: disconnected, nothing cached. */
    constructor ()
      ensures !connected && currentScene == "" && scenes == [] && sources == [] && log == []
    {
      connected, currentScene, scenes, sources, log := false, "", [], [], [];
    }

    /** What one browser receives when it connects, and again whenever it asks for
        `getInitialData`. It goes to that browser alone, so it is returned, not logged. */
    method SyncClient() returns (messages: seq<Event>)
      ensures messages == InitialSync(connected, scenes, currentScene, sources)
    {
      messages := [Status(connected)];
      if connected && |scenes| > 0 {
        messages := messages + [Scenes(scenes, currentScene)];
      }
      if connected && |sources| > 0 {
        messages := messages + [AudioSources(sources)];
      }
    }

    // --- command handlers -----------------------------------------------------------------

    /** `POST /api/switch-scene`; `accepted` is whether the endpoint takes `SetCurrentScene`. */
    method SwitchScene(sceneName: string, accepted: bool) returns (status: int)
      modifies this
      ensures var pre := Precheck(PostSwitchScene(sceneName), old(connected));
              pre.Some? ==> status == pre.value && unchanged(this)
      ensures Precheck(PostSwitchScene(sceneName), old(connected)).None? ==>
                status == (if accepted then Ok else ServerError)
                && log == old(log) + [Send(SetCurrentScene(sceneName))]
                                   + (if accepted then [Broadcast(CurrentScene(sceneName))] else [])
                && currentScene == (if accepted then sceneName else old(currentScene))
                && connected == old(connected) && scenes == old(scenes) && sources == old(sources)
    {
      var pre := Precheck(PostSwitchScene(sceneName), connected);
      if pre.Some? { return pre.value; }
      log := log + [Send(SetCurrentScene(sceneName))];
      if !accepted { return ServerError; }
      currentScene := sceneName;
      log := log + [Broadcast(CurrentScene(sceneName))];
      status := Ok;
    }

    /** `POST /api/toggle-audio`; `toggled` is whether the endpoint takes `ToggleMute`, and
        `reply` its answer to the `GetVolume` that follows (`None` if that call fails). The
        broadcast goes out even when no cached record has the name. */
    method ToggleAudio(sourceName: string, toggled: bool, reply: Option<VolumeInfo>)
      returns (status: int, muted: bool)
      modifies this
      ensures var pre := Precheck(PostToggleAudio(sourceName), old(connected));
              pre.Some? ==> status == pre.value && unchanged(this)
      ensures Precheck(PostToggleAudio(sourceName), old(connected)).None? && !toggled ==>
                status == ServerError && log == old(log) + [Send(ToggleMute(sourceName))]
                && sources == old(sources)
      ensures Precheck(PostToggleAudio(sourceName), old(connected)).None? && toggled && reply.None? ==>
                status == ServerError
                && log == old(log) + [Send(ToggleMute(sourceName)), Send(GetVolume(sourceName))]
                && sources == old(sources)
      ensures Precheck(PostToggleAudio(sourceName), old(connected)).None? && toggled && reply.Some? ==>
                status == Ok && muted == reply.value.muted
                && log == old(log) + [Send(ToggleMute(sourceName)), Send(GetVolume(sourceName)),
                                      Broadcast(AudioUpdated(sourceName, reply.value.muted, reply.value.level))]
                && sources == UpdateByName(old(sources), sourceName,
                                           Some(reply.value.muted), Some(ToPercent(reply.value.level)))
      ensures connected == old(connected) && currentScene == old(currentScene) && scenes == old(scenes)
    {
      muted := false;
      var pre := Precheck(PostToggleAudio(sourceName), connected);
      if pre.Some? { return pre.value, muted; }
      log := log + [Send(ToggleMute(sourceName))];
      if !toggled { return ServerError, muted; }
      log := log + [Send(GetVolume(sourceName))];
      if reply.None? { return ServerError, muted; }
      var info := reply.value;
      sources := UpdateByName(sources, sourceName, Some(info.muted), Some(ToPercent(info.level)));
      log := log + [Broadcast(AudioUpdated(sourceName, info.muted, info.level))];
      status, muted := Ok, info.muted;
    }

    /** `POST /api/set-volume`; `accepted` is whether the endpoint takes `SetVolume`. The
        broadcast reports the cached mute flag, or `false` when no record has the name. */
    method SetSourceVolume(sourceName: string, volume: Option<real>, accepted: bool) returns (status: int)
      modifies this
      ensures var pre := Precheck(PostSetVolume(sourceName, volume), old(connected));
              pre.Some? ==> status == pre.value && unchanged(this)
      ensures Precheck(PostSetVolume(sourceName, volume), old(connected)).None? && !accepted ==>
                status == ServerError && log == old(log) + [Send(SetVolume(sourceName, volume.value))]
                && sources == old(sources)
      ensures Precheck(PostSetVolume(sourceName, volume), old(connected)).None? && accepted ==>
                var k := FindByName(old(sources), sourceName);
                status == Ok
                && sources == UpdateByName(old(sources), sourceName, None, Some(ToPercent(volume.value)))
                && log == old(log) + [Send(SetVolume(sourceName, volume.value)),
                                      Broadcast(AudioUpdated(sourceName,
                                                             k.Some? && old(sources)[k.value].muted,
                                                             volume.value))]
      ensures connected == old(connected) && currentScene == old(currentScene) && scenes == old(scenes)
    {
      var pre := Precheck(PostSetVolume(sourceName, volume), connected);
      if pre.Some? { return pre.value; }
      var level := volume.value;
      log := log + [Send(SetVolume(sourceName, level))];
      if !accepted { return ServerError; }
      var k := FindByName(sources, sourceName);
      sources := UpdateByName(sources, sourceName, None, Some(ToPercent(level)));
      var muted := if k.Some? then sources[k.value].muted else false;
      log := log + [Broadcast(AudioUpdated(sourceName, muted, level))];
      status := Ok;
    }

    /** The first loop of toggle-all, which stops at the first unmuted source. */
    method ScanAllMuted() returns (allMuted: bool)
      ensures allMuted <==> AllMuted(sources)
    {
      allMuted := true;
      var i := 0;
      while i < |sources|
        invariant 0 <= i <= |sources|
        invariant allMuted
        invariant forall j :: 0 <= j < i ==> sources[j].muted
      {
        if !sources[i].muted {
          allMuted := false;
          break;
        }
        i := i + 1;
      }
    }

    /** `POST /api/toggle-all-audio`. The endpoint rejects the `SetMute` issued for the source at
        position `failAt`, if one is issued there; that aborts the loop with 500 and leaves the
        sources before it already changed. On success every source ends in the target state,
        and exactly the sources that differed got a command and a broadcast, in list order.
        `mutedState` is the target, which the response carries on success. */
    method ToggleAllAudio(failAt: nat) returns (status: int, mutedState: bool)
      modifies this
      ensures !old(connected) ==> status == ServiceUnavailable && unchanged(this)
      ensures old(connected) ==>
                var s := old(sources);
                var k := StopIndex(s, ToggleAllTarget(s), failAt);
                mutedState == ToggleAllTarget(s)
                && status == (if k < |s| then ServerError else Ok)
                && sources == MutedUpTo(s, k, mutedState)
                && log == old(log) + MuteEffects(s, k, mutedState)
                                   + (if k < |s| then [Send(SetMute(s[k].name, mutedState))] else [])
      ensures old(connected) && status == Ok ==>
                |sources| == |old(sources)|
                && forall i :: 0 <= i < |sources| ==>
                     sources[i].muted == mutedState && sources[i].name == old(sources)[i].name
                     && sources[i].volume == old(sources)[i].volume
      ensures connected == old(connected) && currentScene == old(currentScene) && scenes == old(scenes)
    {
      var pre := Precheck(PostToggleAllAudio, connected);
      if pre.Some? { return pre.value, false; }
      var allMuted := ScanAllMuted();
      mutedState := !allMuted;
      var updated, issued, rejected := MuteEach(sources, mutedState, failAt);
      sources, log := updated, log + issued;
      status := if rejected then ServerError else Ok;
    }

    // --- endpoint notifications -------------------------------------------------------------

    /** `SourceMuteStateChanged`: the first record with the name takes the new flag, its volume
        is kept, and the change is broadcast; an unknown name changes and broadcasts nothing. */
    method OnMuteStateChanged(sourceName: string, muted: bool)
      modifies this
      ensures sources == UpdateByName(old(sources), sourceName, Some(muted), None)
      ensures var k := FindByName(old(sources), sourceName);
              log == old(log) + (if k.Some?
                                 then [Broadcast(AudioUpdated(sourceName, muted, ToLevel(old(sources)[k.value].volume)))]
                                 else [])
      ensures connected == old(connected) && currentScene == old(currentScene) && scenes == old(scenes)
    {
      var k := FindByName(sources, sourceName);
      if k.Some? {
        sources := UpdateByName(sources, sourceName, Some(muted), None);
        log := log + [Broadcast(AudioUpdated(sourceName, muted, ToLevel(sources[k.value].volume)))];
      }
    }

    /** `SourceVolumeChanged`: the first record with the name takes the new percentage, its mute
        flag is kept, and the change is broadcast with the endpoint's fraction; an unknown name
        changes and broadcasts nothing. */
    method OnVolumeChanged(sourceName: string, level: real)
      modifies this
      ensures sources == UpdateByName(old(sources), sourceName, None, Some(ToPercent(level)))
      ensures var k := FindByName(old(sources), sourceName);
              log == old(log) + (if k.Some?
                                 then [Broadcast(AudioUpdated(sourceName, old(sources)[k.value].muted, level))]
                                 else [])
      ensures connected == old(connected) && currentScene == old(currentScene) && scenes == old(scenes)
    {
      var k := FindByName(sources, sourceName);
      if k.Some? {
        sources := UpdateByName(sources, sourceName, None, Some(ToPercent(level)));
        log := log + [Broadcast(AudioUpdated(sourceName, sources[k.value].muted, level))];
      }
    }

    /** `SwitchScenes`: a scene switched in the streaming software is cached and broadcast. */
    method OnSwitchScenes(sceneName: string)
      modifies this
      ensures currentScene == sceneName
      ensures log == old(log) + [Broadcast(CurrentScene(sceneName))]
      ensures connected == old(connected) && scenes == old(scenes) && sources == old(sources)
    {
      currentScene := sceneName;
      log := log + [Broadcast(CurrentScene(sceneName))];
    }

    /** `ConnectionOpened`: connected, broadcast the status, then the cached scenes if any. */
    method OnConnectionOpened()
      modifies this
      ensures connected
      ensures log == old(log) + [Broadcast(Status(true))]
                              + (if |scenes| > 0 then [Broadcast(Scenes(scenes, currentScene))] else [])
      ensures currentScene == old(currentScene) && scenes == old(scenes) && sources == old(sources)
    {
      connected := true;
      log := log + [Broadcast(Status(true))];
      if |scenes| > 0 {
        log := log + [Broadcast(Scenes(scenes, currentScene))];
      }
    }

    /** `ConnectionClosed`: disconnected and broadcast; the cache is kept. */
    method OnConnectionClosed()
      modifies this
      ensures !connected
      ensures log == old(log) + [Broadcast(Status(false))]
      ensures currentScene == old(currentScene) && scenes == old(scenes) && sources == old(sources)
    {
      connected := false;
      log := log + [Broadcast(Status(false))];
    }

    // --- the cache refresh after connecting -------------------------------------------------

    /** The scene part of the refresh after a successful connection: `reply` is the answer to
        `GetSceneList`, `None` if it fails, in which case the old scene cache stays and nothing
        is broadcast. */
    method LoadScenes(reply: Option<SceneList>)
      modifies this
      ensures reply.None? ==> log == old(log) + [Send(GetSceneList)] && scenes == old(scenes)
                              && currentScene == old(currentScene)
      ensures reply.Some? ==>
                scenes == ScenesOf(reply.value) && currentScene == reply.value.current
                && log == old(log) + [Send(GetSceneList),
                                      Broadcast(Scenes(scenes, currentScene)),
                                      Broadcast(Status(true)),
                                      Broadcast(CurrentScene(currentScene))]
      ensures connected == old(connected) && sources == old(sources)
    {
      log := log + [Send(GetSceneList)];
      if reply.None? { return; }
      scenes := ScenesOf(reply.value);
      currentScene := reply.value.current;
      log := log + [Broadcast(Scenes(scenes, currentScene)), Broadcast(Status(true)),
                    Broadcast(CurrentScene(currentScene))];
    }

    /** The audio part of the refresh: `names` is the answer to `GetSourcesList` (`None` if it
        fails, which keeps the old cache and broadcasts nothing), and `replies[i]` the answer to
        the `GetVolume` for `names[i]`; a source whose query fails is left out. */
    method LoadAudioSources(names: Option<seq<string>>, replies: seq<Option<VolumeInfo>>)
      modifies this
      ensures names.None? ==> log == old(log) + [Send(GetSourcesList)] && sources == old(sources)
      ensures names.Some? ==>
                sources == Collected(names.value, replies, |names.value|)
                && log == old(log) + [Send(GetSourcesList)] + VolumeQueries(names.value)
                                   + [Broadcast(AudioSources(sources))]
      ensures connected == old(connected) && currentScene == old(currentScene) && scenes == old(scenes)
    {
      log := log + [Send(GetSourcesList)];
      if names.None? { return; }
      var listed := names.value;
      var collected, queries := [], [];
      var i := 0;
      while i < |listed|
        invariant 0 <= i <= |listed|
        invariant collected == Collected(listed, replies, i)
        invariant queries == VolumeQueries(listed[..i])
      {
        assert listed[..i + 1][..i] == listed[..i];
        queries := queries + [Send(GetVolume(listed[i]))];
        if i < |replies| && replies[i].Some? {
          collected := collected + [Reported(listed[i], replies[i].value)];
        }
        i := i + 1;
      }
      assert listed[..i] == listed;
      sources, log := collected, log + queries;
      log := log + [Broadcast(AudioSources(sources))];
    }
  }
}
