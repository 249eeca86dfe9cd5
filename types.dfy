/** Records shared by the player, the settings panel and the Guardian service. */
module Types {

  datatype Option<T> = None | Some(value: T)

  /** One playlist entry: identifier, title, artist, audio locator and artwork locator. */
  datatype Song = Song(id: string, title: string, artist: string, url: string, cover: string)

  /** What the Guardian monitor is doing; shown by the player's status overlays. */
  datatype GuardianStatus = Idle | Listening | Alerting | VoiceDetection

  /** The user's adaptive-listening preferences. `sensitivity` is a number the
      panel displays nowhere and no control edits. */
  datatype GuardianConfig = GuardianConfig(
    userName: string,
    sensitivity: real,
    adaptiveVolume: bool,
    voiceHighlight: bool,
    monoMix: bool)
}
