/** The records the relay caches and the messages it exchanges with the streaming software's
    control endpoint and with the browsers. */
module Messages {

  /** One cached audio input, `{name, muted, volume}`; the volume is a whole percentage. */
  datatype AudioSource = AudioSource(name: string, muted: bool, volume: int)

  /** One entry of the cached scene list, `{name, id, active}`. */
  datatype Scene = Scene(name: string, id: int, active: bool)

  /** The endpoint's answer to `GetVolume`: the mute flag and the volume as a fraction of full. */
  datatype VolumeInfo = VolumeInfo(muted: bool, level: real)

  /** The endpoint's answer to `GetSceneList`: `(name, sceneIndex)` pairs and the current scene. */
  datatype SceneList = SceneList(entries: seq<(string, int)>, current: string)

  /** Requests sent to the control endpoint (`obs.send`). */
  datatype Command =
    | GetSceneList
    | GetSourcesList
    | GetVolume(source: string)
    | SetCurrentScene(sceneName: string)
    | ToggleMute(source: string)
    | SetVolume(source: string, level: real)
    | SetMute(source: string, mute: bool)

  /** Messages pushed to browsers; `level` is a fraction of full volume. */
  datatype Event =
    | Status(connected: bool)
    | Scenes(scenes: seq<Scene>, currentScene: string)
    | CurrentScene(sceneName: string)
    | AudioSources(sources: seq<AudioSource>)
    | AudioUpdated(name: string, muted: bool, level: real)

  /** One observable step of the relay: a command sent to the endpoint, or an event broadcast to
      every connected browser (`io.emit`). */
  datatype Effect = Send(command: Command) | Broadcast(event: Event)

  /** HTTP status codes the command handlers answer with. */
  const Ok := 200
  const BadRequest := 400
  const ServerError := 500
  const ServiceUnavailable := 503

  /** `Math.round`: the nearest integer, a half rounded up. */
  function Round(x: real): (n: int)
    ensures n as real - 0.5 <= x < n as real + 0.5
  {
    (x + 0.5).Floor
  }

  /** `Math.round(level * 100)`: the percentage the cache keeps for a fraction the endpoint reports.
      A fraction within the endpoint's range gives a percentage within 0..100. */
  function ToPercent(level: real): (p: int)
    ensures 0.0 <= level <= 1.0 ==> 0 <= p <= 100
    ensures (p as real) - 0.5 <= level * 100.0 < (p as real) + 0.5
  {
    Round(level * 100.0)
  }

  /** `volume / 100`: the fraction broadcast for a cached percentage. */
  function ToLevel(p: int): real {
    p as real / 100.0
  }

  /** Broadcasting a cached percentage as a fraction and converting it back loses nothing. */
  lemma PercentRoundTrip(p: int)
    ensures ToPercent(ToLevel(p)) == p
  {
  }
}
