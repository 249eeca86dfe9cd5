/** The player screen: playlist navigation, play/pause, the local-file library, the
    settings panel's effect on the configuration, and the Guardian reactions (ducking
    on nearby speech, pausing on the user's name) with their pending timers. */
module Player {
  import opened Types
  import Format
  import Settings
  import Guardian

  /** The engine's output level: full, or lowered while nearby speech is heard. */
  datatype Volume = Normal | Ducked

  /** A `setTimeout` continuation that has been scheduled and has not yet run.
      RestoreVolume is the ducking timer, ClearAlert the name-alert timer. */
  datatype Timer = RestoreVolume | ClearAlert

  /** A file picked in the library: its name and the object URL made for it. */
  datatype LocalFile = LocalFile(name: string, objectUrl: string)

  const LocalArtist: string := "Biblioteca Local"

  const DefaultPlaylist: seq<Song> := [
    Song("1", "Midnight City", "M83",
      "https://www.soundhelix.com/examples/mp3/SoundHelix-Song-1.mp3", "https://picsum.photos/seed/m83/300/300"),
    Song("2", "Starlight", "Muse",
      "https://www.soundhelix.com/examples/mp3/SoundHelix-Song-2.mp3", "https://picsum.photos/seed/muse/300/300"),
    Song("3", "Solar Wind", "Astral Project",
      "https://www.soundhelix.com/examples/mp3/SoundHelix-Song-3.mp3", "https://picsum.photos/seed/astral/300/300")
  ]

  const DefaultConfig: GuardianConfig := GuardianConfig("Usuário", 0.5, true, true, true)

  // ---------------------------------------------------------------------------
  // Playlist arithmetic

  /** The index `skipNext` moves to: `(i + 1) % n`. */
  function NextIndex(i: nat, n: nat): (r: nat)
    requires n > 0
    ensures r < n
  {
    (i + 1) % n
  }

  /** The index `skipPrev` moves to: `(i - 1 + n) % n`. */
  function PrevIndex(i: nat, n: nat): (r: nat)
    requires n > 0
    ensures r < n
  {
    (i - 1 + n) % n
  }

  /** From a valid index, "next" moves one song on, and from the last song back to the first. */
  lemma NextIndexStep(i: nat, n: nat)
    requires i < n
    ensures NextIndex(i, n) == if i == n - 1 then 0 else i + 1
  {
  }

  /** From a valid index, "previous" moves one song back, and from the first song to the last. */
  lemma PrevIndexStep(i: nat, n: nat)
    requires i < n
    ensures PrevIndex(i, n) == if i == 0 then n - 1 else i - 1
  {
  }

  /** Skipping back after skipping forward, or forward after back, returns to the same song. */
  lemma PrevUndoesNext(i: nat, n: nat)
    requires i < n
    ensures PrevIndex(NextIndex(i, n), n) == i
    ensures NextIndex(PrevIndex(i, n), n) == i
  {
    NextIndexStep(i, n);
    PrevIndexStep(NextIndex(i, n), n);
    PrevIndexStep(i, n);
    NextIndexStep(PrevIndex(i, n), n);
  }

  /** The index after pressing "next" k times. */
  function SkipForward(i: nat, n: nat, k: nat): nat
    requires n > 0
  {
    if k == 0 then i else NextIndex(SkipForward(i, n, k - 1), n)
  }

  /** Pressing "next" k times from a valid index moves k places round the playlist,
      so pressing it once per song comes back to where it started. */
  lemma {:induction false} SkipForwardWraps(i: nat, n: nat, k: nat)
    requires i < n
    ensures SkipForward(i, n, k) == (i + k) % n
    ensures k % n == 0 ==> SkipForward(i, n, k) == i
  {
    if k > 0 {
      SkipForwardWraps(i, n, k - 1);
      ModSucc(i + k - 1, n);
    }
    if k % n == 0 {
      ModShift(i, k, n);
    }
  }

  /** The remainder is the unique r in [0, n) with a == q * n + r. */
  lemma ModUnique(a: int, n: int, q: int, r: int)
    requires n > 0 && 0 <= r < n && a == q * n + r
    ensures a % n == r
  {
    var q', r' := a / n, a % n;
    assert (q - q') * n == r' - r;
    if q > q' {
      MulAtLeast(q - q', n);
    } else if q < q' {
      MulAtLeast(q' - q, n);
    }
  }

  lemma {:induction false} MulAtLeast(d: int, n: int)
    requires d >= 1 && n > 0
    ensures d * n >= n
  {
    if d > 1 {
      MulAtLeast(d - 1, n);
      assert d * n == (d - 1) * n + n;
    }
  }

  /** Taking the remainder before adding one does not change the remainder after. */
  lemma ModSucc(a: nat, n: nat)
    requires n > 0
    ensures (a % n + 1) % n == (a + 1) % n
  {
    var q, r := a / n, a % n;
    if r + 1 < n {
      ModUnique(a + 1, n, q, r + 1);
      ModUnique(r + 1, n, 0, r + 1);
    } else {
      ModUnique(a + 1, n, q + 1, 0);
      ModUnique(r + 1, n, 1, 0);
    }
  }

  /** Adding a multiple of n to a valid index leaves its remainder unchanged. */
  lemma ModShift(i: nat, k: nat, n: nat)
    requires i < n && k % n == 0
    ensures (i + k) % n == i
  {
    ModUnique(i + k, n, k / n, i);
  }

  // ---------------------------------------------------------------------------
  // Local files

  /** The artwork locator of a local song: a placeholder image seeded by its title,
      which sits between a fixed 27-character prefix and a fixed 8-character suffix. */
  function CoverUrl(title: string): (url: string)
    ensures |url| == |title| + 35
    ensures url[27..|url| - 8] == title
  {
    "https://picsum.photos/seed/" + title + "/300/300"
  }

  /** The library entry made for one picked file; `id` is the random identifier drawn for it. */
  function LocalSong(file: LocalFile, id: string): (song: Song)
    ensures song.id == id && song.url == file.objectUrl && song.artist == LocalArtist
    ensures song.title == Format.StripExtension(file.name) && song.cover == CoverUrl(song.title)
  {
    var title := Format.StripExtension(file.name);
    Song(id, title, LocalArtist, file.objectUrl, CoverUrl(title))
  }

  /** The songs made for a list of picked files, one per file and in file order. */
  function LocalSongs(files: seq<LocalFile>, ids: seq<string>): (songs: seq<Song>)
    requires |ids| == |files|
    ensures |songs| == |files|
    ensures forall i :: 0 <= i < |files| ==>
      && songs[i].id == ids[i]
      && songs[i].title == Format.StripExtension(files[i].name)
      && songs[i].artist == LocalArtist
      && songs[i].url == files[i].objectUrl
      && songs[i].cover == CoverUrl(songs[i].title)
  {
    seq(|files|, i requires 0 <= i < |files| => LocalSong(files[i], ids[i]))
  }

  // ---------------------------------------------------------------------------
  // The player state

  class Player {
    var playlist: seq<Song>
    var currentSongIndex: nat
    var isPlaying: bool
    var guardianStatus: GuardianStatus
    var volume: Volume
    var lastTranscript: string
    var config: GuardianConfig
    var showSettings: bool
    /** The user name handed to the Guardian service when monitoring started. */
    var monitoredName: Option<string>
    /** Timers scheduled and not yet fired; none is ever cancelled. */
    var pending: seq<Timer>

    /** The playlist is never empty and the index names one of its songs; monitoring
        runs exactly when the Guardian has left IDLE; and a lowered volume, the
        voice banner and the name alert each have a pending timer that will end them. */
    ghost predicate Valid()
      reads this
    {
      && |playlist| > 0
      && currentSongIndex < |playlist|
      && (guardianStatus == Idle <==> monitoredName.None?)
      && (guardianStatus == Idle ==> pending == [])
      && (volume == Ducked ==> RestoreVolume in pending)
      && (guardianStatus == VoiceDetection ==> RestoreVolume in pending)
      && (guardianStatus == Alerting ==> ClearAlert in pending)
    }

    /** The state on first render. */
    constructor ()
      ensures Valid()
      ensures playlist == DefaultPlaylist && currentSongIndex == 0 && !isPlaying
      ensures guardianStatus == Idle && volume == Normal && lastTranscript == ""
      ensures config == DefaultConfig && !showSettings && monitoredName == None && pending == []
    {
      playlist := DefaultPlaylist;
      currentSongIndex := 0;
      isPlaying := false;
      guardianStatus := Idle;
      volume := Normal;
      lastTranscript := "";
      config := DefaultConfig;
      showSettings := false;
      monitoredName := None;
      pending := [];
    }

    /** The song shown and loaded into the audio element. */
    function CurrentSong(): (s: Song)
      reads this
      requires Valid()
      ensures s in playlist
    {
      playlist[currentSongIndex]
    }

    /** `togglePlay`: flips playback; starting playback while IDLE also starts monitoring
        under the current user name and moves the Guardian to LISTENING. */
    method TogglePlay()
      requires Valid()
      modifies this`isPlaying, this`guardianStatus, this`monitoredName
      ensures Valid()
      ensures isPlaying == !old(isPlaying)
      ensures var starts := !old(isPlaying) && old(guardianStatus) == Idle;
        && guardianStatus == (if starts then Listening else old(guardianStatus))
        && monitoredName == (if starts then Some(config.userName) else old(monitoredName))
    {
      if !isPlaying {
        if guardianStatus == Idle {
          guardianStatus := Listening;
          monitoredName := Some(config.userName);
        }
      }
      isPlaying := !isPlaying;
    }

    /** The rejection handler of `play()`: playback could not start. */
    method PlaybackFailed()
      requires Valid()
      modifies this`isPlaying
      ensures Valid() && !isPlaying
    {
      isPlaying := false;
    }

    /** `skipNext`, also run when a song ends: the following song, wrapping round, playing. */
    method SkipNext()
      requires Valid()
      modifies this`currentSongIndex, this`isPlaying
      ensures Valid()
      ensures currentSongIndex == NextIndex(old(currentSongIndex), |playlist|) && isPlaying
    {
      currentSongIndex := (currentSongIndex + 1) % |playlist|;
      isPlaying := true;
    }

    /** `skipPrev`: the previous song, wrapping round, playing. */
    method SkipPrev()
      requires Valid()
      modifies this`currentSongIndex, this`isPlaying
      ensures Valid()
      ensures currentSongIndex == PrevIndex(old(currentSongIndex), |playlist|) && isPlaying
    {
      currentSongIndex := (currentSongIndex - 1 + |playlist|) % |playlist|;
      isPlaying := true;
    }

    /** `selectSong`: a song picked in the library list, which only offers playlist indices. */
    method SelectSong(index: nat)
      requires Valid() && index < |playlist|
      modifies this`currentSongIndex, this`isPlaying
      ensures Valid()
      ensures currentSongIndex == index && isPlaying
    {
      currentSongIndex := index;
      isPlaying := true;
    }

    /** `handleAddLocalFiles`: one new song per file, after the existing ones. `ids`
        are the random identifiers drawn for the files. The current song is unchanged. */
    method AddLocalFiles(files: seq<LocalFile>, ids: seq<string>)
      requires Valid() && |ids| == |files|
      modifies this`playlist
      ensures Valid()
      ensures playlist == old(playlist) + LocalSongs(files, ids)
      ensures CurrentSong() == old(CurrentSong())
    {
      playlist := playlist + LocalSongs(files, ids);
    }

    /** The settings button. */
    method OpenSettings()
      requires Valid()
      modifies this`showSettings
      ensures Valid() && showSettings
    {
      showSettings := true;
    }

    /** The panel's close and save buttons. */
    method CloseSettings()
      requires Valid()
      modifies this`showSettings
      ensures Valid() && !showSettings
    {
      showSettings := false;
    }

    /** A control of the settings panel; a closed panel offers no control. */
    method EditSettings(control: Settings.Control)
      requires Valid()
      modifies this`config
      ensures Valid()
      ensures config == if showSettings then Settings.Apply(old(config), control) else old(config)
      ensures config.sensitivity == old(config.sensitivity)
    {
      match Settings.Offer(showSettings, config, control)
      case Some(c) => config := c;
      case None =>
    }

    /** `handleDucking`: the voice banner, a lowered volume, and a timer to undo both. */
    method HandleDucking()
      requires Valid() && guardianStatus != Idle
      modifies this`guardianStatus, this`volume, this`pending
      ensures Valid()
      ensures guardianStatus == VoiceDetection && volume == Ducked
      ensures pending == old(pending) + [RestoreVolume]
    {
      guardianStatus := VoiceDetection;
      volume := Ducked;
      pending := pending + [RestoreVolume];
    }

    /** `handleNameAlert`, the `onName` callback: the alert overlay, playback paused,
        and a timer to clear the alert. */
    method HandleNameAlert()
      requires Valid() && guardianStatus != Idle
      modifies this`guardianStatus, this`isPlaying, this`pending
      ensures Valid()
      ensures guardianStatus == Alerting && !isPlaying
      ensures pending == old(pending) + [ClearAlert]
    {
      guardianStatus := Alerting;
      isPlaying := false;
      pending := pending + [ClearAlert];
    }

    /** The `onVoice` callback: shows the transcript and ducks when adaptive volume is
        on and the transcript is longer than five characters. */
    method OnVoice(text: string)
      requires Valid() && guardianStatus != Idle
      modifies this`lastTranscript, this`guardianStatus, this`volume, this`pending
      ensures Valid()
      ensures lastTranscript == text
      ensures var ducks := config.adaptiveVolume && |text| > 5;
        && guardianStatus == (if ducks then VoiceDetection else old(guardianStatus))
        && volume == (if ducks then Ducked else old(volume))
        && pending == old(pending) + (if ducks then [RestoreVolume] else [])
    {
      lastTranscript := text;
      if config.adaptiveVolume && |text| > 5 {
        HandleDucking();
      }
    }

    /** One live-session message: the callbacks Guardian.Dispatch names run in order.
        When a transcript both names the user and ducks, the voice banner replaces the
        name alert, while playback stays paused and both timers are pending. */
    method OnMessage(msg: Guardian.ServerMessage)
      requires Valid() && monitoredName.Some?
      modifies this`lastTranscript, this`guardianStatus, this`volume, this`pending, this`isPlaying
      ensures Valid()
      ensures Guardian.HeardText(msg).None? ==> unchanged(this)
      ensures Guardian.HeardText(msg).Some? ==>
        var text := Guardian.Lower(Guardian.HeardText(msg).value);
        var named := Guardian.NameDetected in Guardian.Dispatch(msg, monitoredName.value);
        var ducks := config.adaptiveVolume && |text| > 5;
        && lastTranscript == text
        && isPlaying == (!named && old(isPlaying))
        && guardianStatus == (if ducks then VoiceDetection else if named then Alerting else old(guardianStatus))
        && volume == (if ducks then Ducked else old(volume))
        && pending == old(pending) + (if named then [ClearAlert] else []) + (if ducks then [RestoreVolume] else [])
    {
      var calls := Guardian.Dispatch(msg, monitoredName.value);
      if Guardian.HeardText(msg).Some? {
        if calls[0] == Guardian.NameDetected {
          HandleNameAlert();
        }
        OnVoice(calls[|calls| - 1].text);
      }
    }

    /** One pending timer runs. Both set LISTENING whatever the status is then; the
        ducking timer also restores the volume. Timers run in any order. */
    method FireTimer(k: nat)
      requires Valid() && k < |pending|
      modifies this`guardianStatus, this`volume, this`pending
      ensures Valid()
      ensures pending == old(pending[..k] + pending[k + 1..])
      ensures guardianStatus == Listening
      ensures volume == if old(pending[k]) == RestoreVolume then Normal else old(volume)
    {
      var t := pending[k];
      if t != RestoreVolume && RestoreVolume in pending {
        RemovePreserves(pending, k, RestoreVolume);
      }
      pending := pending[..k] + pending[k + 1..];
      if t == RestoreVolume {
        volume := Normal;
      }
      guardianStatus := Listening;
    }
  }

  /** Removing entry k of a timer list keeps every other kind of timer it holds. */
  lemma RemovePreserves(s: seq<Timer>, k: nat, t: Timer)
    requires k < |s| && t in s && s[k] != t
    ensures t in s[..k] + s[k + 1..]
  {
  }
}
