/**
 * The player's transport logic as values: the state the player component
 * keeps (its React state, the audio element it drives and the listeners it
 * has registered), the index arithmetic behind next and previous, the
 * end-of-track decision, and one transition function per handler or media
 * event. The `Player` class in module `MusicPlayer` is proved to perform
 * exactly these transitions; the properties are proved here.
 */
module Transport {
  import opened Wrappers
  import opened Library

  /** A time in seconds (the audio element never reports a negative one). */
  type Seconds = t: real | t >= 0.0

  /** The value of a 0..100 range slider (the seek bar and the volume slider). */
  type Percent = p: int | 0 <= p <= 100

  /** A value of `Math.random()`. */
  type Draw = r: real | 0.0 <= r < 1.0

  // ---------------------------------------------------------------------------
  // Repeat mode
  // ---------------------------------------------------------------------------

  datatype RepeatMode = Off | One | All

  /** The cycle order the repeat button walks through. */
  const Modes: seq<RepeatMode> := [Off, One, All]

  /** `modes.indexOf(repeatMode)`. */
  function ModeIndex(m: RepeatMode): (r: nat)
    ensures r < |Modes| && Modes[r] == m
  {
    match m
    case Off => 0
    case One => 1
    case All => 2
  }

  /**
   * JavaScript's `a % n` for `n > 0`: the remainder of division truncated
   * toward zero, so it takes the sign of the dividend.
   */
  function JsRemainder(a: int, n: int): (r: int)
    requires n > 0
    ensures a >= 0 ==> r == a % n
    ensures a < 0 ==> -n < r <= 0
  {
    if a >= 0 then a % n else -((-a) % n)
  }

  /**
   * The value of `a % n` for either sign: `a` is the quotient truncated
   * toward zero times `n`, plus the remainder.
   */
  lemma JsRemainderTruncates(a: int, n: int)
    requires n > 0
    ensures var q := if a >= 0 then a / n else -((-a) / n);
      a == q * n + JsRemainder(a, n)
  {
  }

  /** `toggleRepeat`: the mode after the current one in the cycle, wrapping around. */
  function NextRepeat(m: RepeatMode): (r: RepeatMode)
    ensures r == match m case Off => One case One => All case All => Off
  {
    Modes[JsRemainder(ModeIndex(m) + 1, |Modes|)]
  }

  /** `k` presses of the repeat button. */
  function RepeatPresses(m: RepeatMode, k: nat): RepeatMode {
    if k == 0 then m else NextRepeat(RepeatPresses(m, k - 1))
  }

  lemma ModThreeStep(a: nat)
    ensures (a + 1) % 3 == if a % 3 == 2 then 0 else a % 3 + 1
  {
  }

  lemma {:induction false} RepeatPressesIndex(m: RepeatMode, k: nat)
    ensures RepeatPresses(m, k) == Modes[(ModeIndex(m) + k) % 3]
  {
    if k > 0 {
      RepeatPressesIndex(m, k - 1);
      ModThreeStep(ModeIndex(m) + k - 1);
    }
  }

  /** The repeat button returns to the mode it started from exactly after a multiple of three presses. */
  lemma RepeatCycle(m: RepeatMode, k: nat)
    ensures RepeatPresses(m, k) == m <==> k % 3 == 0
  {
    RepeatPressesIndex(m, k);
    var i := ModeIndex(m);
    assert (i + k) % 3 == i <==> k % 3 == 0;
  }

  // ---------------------------------------------------------------------------
  // Next and previous indices
  // ---------------------------------------------------------------------------

  /**
   * A song as the page holds it: a row of the songs table inside a
   * JavaScript object. React compares the `song` prop by object identity, so
   * a list fetched again holds new objects with equal rows; `identity` names
   * the object, and one identity always holds the same row.
   */
  datatype SongObject = SongObject(row: Song, identity: nat)

  /** `songs.findIndex(s => s.id === id)` from index `k` on, with -1 for no match. */
  function FindFrom(songs: seq<SongObject>, id: string, k: nat): (r: int)
    requires k <= |songs|
    decreases |songs| - k
    ensures r == -1 || k <= r < |songs|
    ensures r >= 0 ==> songs[r].row.id == id && forall j :: k <= j < r ==> songs[j].row.id != id
    ensures r == -1 <==> forall j :: k <= j < |songs| ==> songs[j].row.id != id
  {
    if k == |songs| then -1
    else if songs[k].row.id == id then k
    else FindFrom(songs, id, k + 1)
  }

  /** `songs.findIndex(s => s.id === id)`: the first song with that id, or -1. */
  function FindIndex(songs: seq<SongObject>, id: string): (r: int)
    ensures -1 <= r < |songs|
    ensures r >= 0 ==> songs[r].row.id == id && forall j :: 0 <= j < r ==> songs[j].row.id != id
    ensures r == -1 <==> forall j :: 0 <= j < |songs| ==> songs[j].row.id != id
  {
    FindFrom(songs, id, 0)
  }

  /**
   * `(currentIndex + 1) % songs.length`; an empty list yields no index
   * (JavaScript computes NaN there and the lookup is undefined).
   */
  function NextIndex(i: int, n: nat): (r: Option<nat>)
    requires -1 <= i < n
    ensures r.None? <==> n == 0
    ensures r.Some? ==> r.value < n
  {
    if n == 0 then None else Some(JsRemainder(i + 1, n))
  }

  /** `(currentIndex - 1 + songs.length) % songs.length`, likewise. */
  function PreviousIndex(i: int, n: nat): (r: Option<nat>)
    requires -1 <= i < n
    ensures r.None? <==> n == 0
    ensures r.Some? ==> r.value < n
  {
    if n == 0 then None
    else
      var j := JsRemainder(i - 1 + n, n);
      assert j >= 0;
      Some(j)
  }

  /**
   * Next steps forward and wraps from the last song to the first; a current
   * song missing from the list (index -1) makes next pick the first song.
   */
  lemma NextIndexWraps(i: int, n: nat)
    requires -1 <= i < n
    ensures NextIndex(i, n) == if n == 0 then None else Some(if i + 1 < n then i + 1 else 0)
  {
  }

  /**
   * Previous steps back and wraps from the first song to the last; when the
   * current song is missing it picks the second to last (the only song of a
   * one-song list).
   */
  lemma PreviousIndexWraps(i: int, n: nat)
    requires -1 <= i < n
    ensures PreviousIndex(i, n) ==
              if n == 0 then None
              else Some(if i > 0 then i - 1 else if i == 0 then n - 1 else if n >= 2 then n - 2 else 0)
  {
    if n > 0 {
      var a := i - 1 + n;
      if i > 0 {
        assert n <= a < 2 * n;
        assert a % n == i - 1;
      } else if i == 0 {
        assert a % n == n - 1;
      } else if n >= 2 {
        assert 0 <= a < n;
      } else {
        assert a == -1 && JsRemainder(a, n) == 0;
      }
    }
  }

  /** Next then previous, and previous then next, return to the song one started from. */
  lemma NextPreviousInverse(i: nat, n: nat)
    requires i < n
    ensures PreviousIndex(NextIndex(i, n).value, n) == Some(i)
    ensures NextIndex(PreviousIndex(i, n).value, n) == Some(i)
  {
    NextIndexWraps(i, n);
    PreviousIndexWraps(i, n);
    NextIndexWraps(PreviousIndex(i, n).value, n);
    PreviousIndexWraps(NextIndex(i, n).value, n);
  }

  /** `Math.floor(Math.random() * songs.length)`; an empty list yields no index. */
  function ShuffleIndex(draw: Draw, n: nat): (r: Option<nat>)
    ensures r.None? <==> n == 0
    ensures r.Some? ==> r.value < n
  {
    if n == 0 then None
    else
      var x := draw * n as real;
      assert 0.0 <= x < n as real by {
        assert draw * n as real < 1.0 * n as real;
      }
      Some(x.Floor)
  }

  /** Shuffle can pick any song of the list, the current one included. */
  lemma ShuffleReachesEvery(k: nat, n: nat)
    requires k < n
    ensures 0.0 <= k as real / n as real < 1.0
    ensures ShuffleIndex(k as real / n as real, n) == Some(k)
  {
    var d := k as real / n as real;
    assert d * n as real == k as real;
  }

  // ---------------------------------------------------------------------------
  // End-of-track decision
  // ---------------------------------------------------------------------------

  datatype EndAction = Restart | Advance | Stop

  /** `handleEnded`'s decision over the repeat mode and the list length. */
  function EndActionFor(mode: RepeatMode, n: nat): (r: EndAction)
    ensures r == Restart <==> mode == One
    ensures r == Advance <==> mode != One && (mode == All || n > 1)
    ensures r == Stop <==> mode.Off? && n <= 1
  {
    if mode == One then Restart
    else if mode == All || n > 1 then Advance
    else Stop
  }

  // ---------------------------------------------------------------------------
  // Player state
  // ---------------------------------------------------------------------------

  /** The audio element's observable state; `volume` is in percent. */
  datatype Audio = Audio(src: string, position: Seconds, volume: Percent, paused: bool)

  /** What the player publishes as the media session's metadata. */
  datatype Metadata = Metadata(title: string, artist: string, album: string)

  const Album := "Music Player"

  /**
   * What the player uses but does not decide: the storage's public-URL
   * mapping, and whether the browser offers a media session.
   */
  datatype Platform = Platform(publicUrl: string -> string, mediaSession: bool)

  /**
   * The player's state. `autoPlay` holds one entry per registered
   * `canplaythrough` listener: the `wasPlaying` value that listener captured.
   * `volume` is the saved level in percent.
   */
  datatype State = State(
    songs: seq<SongObject>,
    song: SongObject,
    isPlaying: bool,
    currentTime: Seconds,
    duration: Seconds,
    volume: Percent,
    isMuted: bool,
    isShuffled: bool,
    repeatMode: RepeatMode,
    isLoading: bool,
    wasPlaying: bool,
    audio: Audio,
    autoPlay: seq<bool>,
    nowPlaying: Option<Metadata>)

  /**
   * What the player keeps consistent: the element's volume is the saved
   * volume, or 0 while muted, and the element plays the current song's file.
   */
  ghost predicate Valid(s: State, p: Platform) {
    && s.audio.volume == (if s.isMuted then 0 else s.volume)
    && s.audio.src == p.publicUrl(s.song.row.filePath)
  }

  // ---------------------------------------------------------------------------
  // The audio element
  // ---------------------------------------------------------------------------

  /** Assigning `src`: the element restarts its load, pauses and rewinds. */
  function Load(a: Audio, src: string): (r: Audio)
    ensures r.src == src && r.position == 0.0 && r.paused && r.volume == a.volume
  {
    a.(src := src, position := 0.0, paused := true)
  }

  /** `play()`, with its outcome: on success the element is no longer paused. */
  function Play(a: Audio, ok: bool): (r: Audio)
    ensures r.paused == (a.paused && !ok)
    ensures r.src == a.src && r.position == a.position && r.volume == a.volume
  {
    if ok then a.(paused := false) else a
  }

  function Pause(a: Audio): (r: Audio)
    ensures r.paused && r.src == a.src && r.position == a.position && r.volume == a.volume
  {
    a.(paused := true)
  }

  // ---------------------------------------------------------------------------
  // Transitions
  // ---------------------------------------------------------------------------

  /** The state the component starts with, before its effects run. */
  function Initial(songs: seq<SongObject>, song: SongObject): State {
    State(songs, song, false, 0.0, 0.0, 100, false, false, Off, true, false,
          Audio("", 0.0, 100, true), [], None)
  }

  function NowPlaying(song: Song): Metadata {
    Metadata(song.title, DisplayArtist(song.artist), Album)
  }

  /**
   * The effect that runs when the `song` prop changes: it records whether
   * the player was playing, loads the song's URL, shows loading and position
   * 0, publishes the metadata, and registers a `canplaythrough` listener that
   * captures the `wasPlaying` of the render it belongs to (the old value).
   */
  function SongEffect(s: State, p: Platform): State {
    s.(wasPlaying := s.isPlaying,
       audio := Load(s.audio, p.publicUrl(s.song.row.filePath)),
       isLoading := true,
       currentTime := 0.0,
       nowPlaying := if p.mediaSession then Some(NowPlaying(s.song.row)) else s.nowPlaying,
       autoPlay := s.autoPlay + [s.wasPlaying])
  }

  /** The component's first render, after which the song effect runs. */
  function Mount(songs: seq<SongObject>, song: SongObject, p: Platform): (r: State)
    ensures Valid(r, p)
    ensures !r.isPlaying && r.isLoading && r.repeatMode == Off && !r.isShuffled && r.autoPlay == [false]
  {
    SongEffect(Initial(songs, song), p)
  }

  /**
   * The page sets a new current song (from the list or from next/previous);
   * the effect runs only when the `song` prop is another object, even one
   * holding an equal row.
   */
  function SetSong(s: State, next: SongObject, p: Platform): State {
    if next == s.song then s else SongEffect(s.(song := next), p)
  }

  /** The index `playNext` asks for. */
  function NextChoice(s: State, draw: Draw): (r: Option<nat>)
    ensures r.Some? ==> r.value < |s.songs|
  {
    if s.isShuffled then ShuffleIndex(draw, |s.songs|)
    else NextIndex(FindIndex(s.songs, s.song.row.id), |s.songs|)
  }

  /** The index `playPrevious` asks for. */
  function PreviousChoice(s: State, draw: Draw): (r: Option<nat>)
    ensures r.Some? ==> r.value < |s.songs|
  {
    if s.isShuffled then ShuffleIndex(draw, |s.songs|)
    else PreviousIndex(FindIndex(s.songs, s.song.row.id), |s.songs|)
  }

  /** `setWasPlaying(isPlaying)`, then hand the chosen song to the page. */
  function HandOff(s: State, choice: Option<nat>, p: Platform): State
    requires choice.Some? ==> choice.value < |s.songs|
  {
    var s1 := s.(wasPlaying := s.isPlaying);
    match choice
    case None => s1
    case Some(k) => SetSong(s1, s1.songs[k], p)
  }

  function PlayNext(s: State, draw: Draw, p: Platform): State {
    HandOff(s, NextChoice(s, draw), p)
  }

  function PlayPrevious(s: State, draw: Draw, p: Platform): State {
    HandOff(s, PreviousChoice(s, draw), p)
  }

  /**
   * `ended`: the element has stopped at the end of the track; repeat-one
   * rewinds and plays again, repeat-all or a longer list advances, and
   * otherwise the player stops.
   */
  function Ended(s: State, draw: Draw, playOk: bool, p: Platform): State {
    var s1 := s.(audio := Pause(s.audio));
    match EndActionFor(s.repeatMode, |s.songs|)
    case Restart => s1.(audio := Play(s1.audio.(position := 0.0), playOk))
    case Advance => PlayNext(s1, draw, p)
    case Stop => s1.(isPlaying := false)
  }

  /**
   * `canplaythrough`: every registered listener runs once and removes
   * itself; if any captured a true `wasPlaying`, play is requested and
   * `isPlaying` follows its outcome.
   */
  function CanPlayThrough(s: State, playOk: bool): (r: State)
    ensures r.autoPlay == []
    ensures r.isPlaying == if true in s.autoPlay then playOk else s.isPlaying
    ensures r.audio == if true in s.autoPlay then Play(s.audio, playOk) else s.audio
    ensures r.song == s.song && r.currentTime == s.currentTime && r.isLoading == s.isLoading
  {
    if true in s.autoPlay then s.(audio := Play(s.audio, playOk), isPlaying := playOk, autoPlay := [])
    else s.(autoPlay := [])
  }

  /** `loadedmetadata`: takes the element's duration and ends loading. */
  function LoadedMetadata(s: State, d: Seconds): (r: State)
    ensures r.duration == d && !r.isLoading
    ensures r.isPlaying == s.isPlaying && r.audio == s.audio && r.song == s.song
  {
    s.(duration := d, isLoading := false)
  }

  /** `canplay`: ends loading. */
  function CanPlay(s: State): (r: State)
    ensures !r.isLoading && r.isPlaying == s.isPlaying && r.audio == s.audio && r.duration == s.duration
  {
    s.(isLoading := false)
  }

  /** `waiting`: shows loading again. */
  function Waiting(s: State): (r: State)
    ensures r.isLoading && r.isPlaying == s.isPlaying && r.audio == s.audio && r.duration == s.duration
  {
    s.(isLoading := true)
  }

  /** `timeupdate`: the element has reached position `t` and the player shows it. */
  function TimeUpdate(s: State, t: Seconds): (r: State)
    ensures r.currentTime == t == r.audio.position && r.isPlaying == s.isPlaying
  {
    s.(currentTime := t, audio := s.audio.(position := t))
  }

  /**
   * `togglePlay` (the button is disabled while loading): pause, or request
   * play and show playing without waiting for the outcome.
   */
  function TogglePlay(s: State, playOk: bool): (r: State)
    ensures s.isLoading ==> r == s
    ensures !s.isLoading ==> r.isPlaying == !s.isPlaying
    ensures !s.isLoading && s.isPlaying ==> r.audio.paused
    ensures !s.isLoading && !s.isPlaying ==> r.audio.paused == (s.audio.paused && !playOk)
  {
    if s.isLoading then s
    else if s.isPlaying then s.(audio := Pause(s.audio), isPlaying := false)
    else s.(audio := Play(s.audio, playOk), isPlaying := true)
  }

  /** The position a seek-bar value denotes: that percentage of the duration. */
  function SeekTime(v: Percent, d: Seconds): (t: Seconds)
    ensures t <= d
    ensures d > 0.0 ==> t / d * 100.0 == v as real
  {
    var t := v as real / 100.0 * d;
    assert t <= d by {
      assert v as real / 100.0 <= 1.0;
    }
    t
  }

  /** `handleSeek`: moves the element and the shown position to the slider's share of the duration. */
  function Seek(s: State, v: Percent): (r: State)
    ensures r.currentTime == r.audio.position == SeekTime(v, s.duration)
    ensures r.isPlaying == s.isPlaying && r.duration == s.duration
  {
    var t := SeekTime(v, s.duration);
    s.(audio := s.audio.(position := t), currentTime := t)
  }

  /** `handleVolumeChange`: the element and the saved level take the slider's value; 0 mutes. */
  function VolumeChange(s: State, v: Percent): (r: State)
    ensures r.volume == v && r.audio.volume == v && (r.isMuted <==> v == 0)
  {
    s.(audio := s.audio.(volume := v), volume := v, isMuted := v == 0)
  }

  /** `toggleMute`: unmuting restores the saved level; the saved level never changes. */
  function ToggleMute(s: State): (r: State)
    ensures r.isMuted == !s.isMuted && r.volume == s.volume
    ensures r.audio.volume == if r.isMuted then 0 else s.volume
  {
    if s.isMuted then s.(audio := s.audio.(volume := s.volume), isMuted := false)
    else s.(audio := s.audio.(volume := 0), isMuted := true)
  }

  function ToggleShuffle(s: State): (r: State)
    ensures r.isShuffled == !s.isShuffled
  {
    s.(isShuffled := !s.isShuffled)
  }

  function ToggleRepeat(s: State): (r: State)
    ensures r.repeatMode == NextRepeat(s.repeatMode)
  {
    s.(repeatMode := NextRepeat(s.repeatMode))
  }

  /** The page passes a new list (an upload was prepended, or the list was reloaded). */
  function SongsChanged(s: State, songs: seq<SongObject>): State {
    s.(songs := songs)
  }

  /** `progressPercentage`: the position as a percentage of the duration, 0 while the duration is 0. */
  function ProgressPercentage(s: State): (r: real)
    ensures r >= 0.0
    ensures s.currentTime <= s.duration ==> r <= 100.0
    ensures s.duration == 0.0 ==> r == 0.0
  {
    if s.duration > 0.0 then s.currentTime / s.duration * 100.0 else 0.0
  }

  // ---------------------------------------------------------------------------
  // Events
  // ---------------------------------------------------------------------------

  /** Everything that can happen to the player: a user action, a media event, or the page. */
  datatype Event =
    | PickedFromList(pick: SongObject)
    | NextPressed(nextDraw: Draw)
    | PreviousPressed(previousDraw: Draw)
    | TrackEnded(endDraw: Draw, endPlayOk: bool)
    | BufferedEnough(bufferedPlayOk: bool)
    | MetadataLoaded(loadedDuration: Seconds)
    | ReadyToPlay
    | Stalled
    | PositionAdvanced(position: Seconds)
    | PlayPausePressed(togglePlayOk: bool)
    | SeekBarMoved(seekValue: Percent)
    | VolumeSliderMoved(volumeValue: Percent)
    | MutePressed
    | ShufflePressed
    | RepeatPressed
    | ListReplaced(newSongs: seq<SongObject>)

  function Step(s: State, e: Event, p: Platform): State {
    match e
    case PickedFromList(next) => SetSong(s, next, p)
    case NextPressed(draw) => PlayNext(s, draw, p)
    case PreviousPressed(draw) => PlayPrevious(s, draw, p)
    case TrackEnded(draw, ok) => Ended(s, draw, ok, p)
    case BufferedEnough(ok) => CanPlayThrough(s, ok)
    case MetadataLoaded(d) => LoadedMetadata(s, d)
    case ReadyToPlay => CanPlay(s)
    case Stalled => Waiting(s)
    case PositionAdvanced(t) => TimeUpdate(s, t)
    case PlayPausePressed(ok) => TogglePlay(s, ok)
    case SeekBarMoved(v) => Seek(s, v)
    case VolumeSliderMoved(v) => VolumeChange(s, v)
    case MutePressed => ToggleMute(s)
    case ShufflePressed => ToggleShuffle(s)
    case RepeatPressed => ToggleRepeat(s)
    case ListReplaced(songs) => SongsChanged(s, songs)
  }

  function Run(s: State, es: seq<Event>, p: Platform): State
    decreases |es|
  {
    if es == [] then s else Run(Step(s, es[0], p), es[1..], p)
  }

  lemma SetSongKeepsValid(s: State, next: SongObject, p: Platform)
    requires Valid(s, p)
    ensures Valid(SetSong(s, next, p), p)
  {
  }

  lemma HandOffKeepsValid(s: State, choice: Option<nat>, p: Platform)
    requires choice.Some? ==> choice.value < |s.songs|
    requires Valid(s, p)
    ensures Valid(HandOff(s, choice, p), p)
  {
    if choice.Some? {
      SetSongKeepsValid(s.(wasPlaying := s.isPlaying), s.songs[choice.value], p);
    }
  }

  /** The events that hand the player a song: picking, next, previous, and a track's end. */
  lemma SongEventKeepsValid(s: State, e: Event, p: Platform)
    requires e.PickedFromList? || e.NextPressed? || e.PreviousPressed? || e.TrackEnded?
    requires Valid(s, p)
    ensures Valid(Step(s, e, p), p)
  {
    if e.PickedFromList? {
      SetSongKeepsValid(s, e.pick, p);
    } else if e.NextPressed? {
      HandOffKeepsValid(s, NextChoice(s, e.nextDraw), p);
    } else if e.PreviousPressed? {
      HandOffKeepsValid(s, PreviousChoice(s, e.previousDraw), p);
    } else {
      EndedKeepsValid(s, e.endDraw, e.endPlayOk, p);
    }
  }

  /** The media events leave the element's source and volume alone. */
  lemma MediaEventKeepsValid(s: State, e: Event, p: Platform)
    requires e.BufferedEnough? || e.MetadataLoaded? || e.ReadyToPlay? || e.Stalled? || e.PositionAdvanced?
    requires Valid(s, p)
    ensures Valid(Step(s, e, p), p)
  {
  }

  /** The controls and a new list either leave the volume alone or set it with the mute flag. */
  lemma ControlEventKeepsValid(s: State, e: Event, p: Platform)
    requires e.PlayPausePressed? || e.SeekBarMoved? || e.VolumeSliderMoved? || e.MutePressed?
             || e.ShufflePressed? || e.RepeatPressed? || e.ListReplaced?
    requires Valid(s, p)
    ensures Valid(Step(s, e, p), p)
  {
  }

  /** Every event keeps the element's volume and source consistent with the player. */
  lemma StepKeepsValid(s: State, e: Event, p: Platform)
    requires Valid(s, p)
    ensures Valid(Step(s, e, p), p)
  {
    if e.PickedFromList? || e.NextPressed? || e.PreviousPressed? || e.TrackEnded? {
      SongEventKeepsValid(s, e, p);
    } else if e.BufferedEnough? || e.MetadataLoaded? || e.ReadyToPlay? || e.Stalled? || e.PositionAdvanced? {
      MediaEventKeepsValid(s, e, p);
    } else {
      ControlEventKeepsValid(s, e, p);
    }
  }

  lemma EndedKeepsValid(s: State, draw: Draw, ok: bool, p: Platform)
    requires Valid(s, p)
    ensures Valid(Ended(s, draw, ok, p), p)
  {
    var s1 := s.(audio := Pause(s.audio));
    match EndActionFor(s.repeatMode, |s.songs|)
    case Restart =>
    case Advance => HandOffKeepsValid(s1, NextChoice(s1, draw), p);
    case Stop =>
  }

  lemma {:induction false} RunKeepsValid(s: State, es: seq<Event>, p: Platform)
    requires Valid(s, p)
    ensures Valid(Run(s, es, p), p)
    decreases |es|
  {
    if es != [] {
      StepKeepsValid(s, es[0], p);
      RunKeepsValid(Step(s, es[0], p), es[1..], p);
    }
  }

  /** Every state the player reaches from its first render is consistent. */
  lemma ReachableValid(songs: seq<SongObject>, song: SongObject, es: seq<Event>, p: Platform)
    ensures Valid(Run(Mount(songs, song, p), es, p), p)
  {
    RunKeepsValid(Mount(songs, song, p), es, p);
  }

  // ---------------------------------------------------------------------------
  // Properties of the transitions
  // ---------------------------------------------------------------------------

  /**
   * A song change loads the new song's file, rewinds, shows loading at
   * position 0, leaves `isPlaying` alone and registers one listener holding
   * the previous `wasPlaying`.
   */
  lemma SongChangeResets(s: State, next: SongObject, p: Platform)
    requires next != s.song
    ensures var r := SetSong(s, next, p);
      && r.song == next && r.audio.src == p.publicUrl(next.row.filePath)
      && r.audio.position == 0.0 && r.audio.paused && r.currentTime == 0.0 && r.isLoading
      && r.isPlaying == s.isPlaying && r.wasPlaying == s.isPlaying
      && r.autoPlay == s.autoPlay + [s.wasPlaying]
      && (p.mediaSession ==> r.nowPlaying == Some(Metadata(next.row.title, DisplayArtist(next.row.artist), Album)))
  {
  }

  /**
   * Next and previous hand `isPlaying` over: when they change the song, the
   * listener of the new song holds whether the player was playing.
   */
  lemma HandOffCarriesPlaying(s: State, choice: Option<nat>, p: Platform)
    requires choice.Some? ==> choice.value < |s.songs|
    ensures HandOff(s, choice, p).wasPlaying == s.isPlaying
    ensures HandOff(s, choice, p).songs == s.songs && HandOff(s, choice, p).isShuffled == s.isShuffled
    ensures choice.Some? ==> HandOff(s, choice, p).song == s.songs[choice.value]
    ensures choice.Some? && s.songs[choice.value] != s.song ==>
              && HandOff(s, choice, p).song == s.songs[choice.value]
              && HandOff(s, choice, p).autoPlay == s.autoPlay + [s.isPlaying]
    ensures choice.None? || s.songs[choice.value] == s.song ==>
              HandOff(s, choice, p) == s.(wasPlaying := s.isPlaying)
  {
  }

  /**
   * With shuffle off and distinct ids in the list, previous after next
   * returns to the song that was current.
   */
  lemma PreviousUndoesNext(s: State, d1: Draw, d2: Draw, p: Platform)
    requires !s.isShuffled
    requires forall j, k :: 0 <= j < |s.songs| && 0 <= k < |s.songs| && s.songs[j].row.id == s.songs[k].row.id ==> j == k
    requires 0 <= FindIndex(s.songs, s.song.row.id) && s.songs[FindIndex(s.songs, s.song.row.id)] == s.song
    ensures PlayPrevious(PlayNext(s, d1, p), d2, p).song == s.song
  {
    var i: nat := FindIndex(s.songs, s.song.row.id);
    NextIndexWraps(i, |s.songs|);
    var k := NextIndex(i, |s.songs|).value;
    assert NextChoice(s, d1) == Some(k);
    HandOffCarriesPlaying(s, Some(k), p);
    var s2 := PlayNext(s, d1, p);
    assert FindIndex(s.songs, s.songs[k].row.id) == k;
    NextPreviousInverse(i, |s.songs|);
    assert PreviousChoice(s2, d2) == Some(i);
    HandOffCarriesPlaying(s2, Some(i), p);
  }

  /**
   * The auto-play listener is one-shot: after `canplaythrough` no listener is
   * left, and a later `canplaythrough` changes nothing.
   */
  lemma AutoPlayOneShot(s: State, ok1: bool, ok2: bool)
    ensures CanPlayThrough(CanPlayThrough(s, ok1), ok2) == CanPlayThrough(s, ok1)
  {
  }

  /**
   * After next or previous from a playing state, the new song starts once it
   * can play through if play succeeds; a refused play leaves the player
   * stopped.
   */
  lemma NextAutoPlays(s: State, draw: Draw, ok: bool, p: Platform)
    requires s.isPlaying && NextChoice(s, draw).Some?
    requires s.songs[NextChoice(s, draw).value] != s.song
    ensures var r := CanPlayThrough(PlayNext(s, draw, p), ok);
      r.song == s.songs[NextChoice(s, draw).value] && r.isPlaying == ok && r.audio.paused == !ok
  {
    HandOffCarriesPlaying(s, NextChoice(s, draw), p);
    var r1 := PlayNext(s, draw, p);
    assert r1.autoPlay[|r1.autoPlay| - 1] == true;
  }

  /**
   * Picking a song from the list while playing, when the previous selection
   * had not been made while playing, does not auto-play: the element is
   * paused by the new source, yet `isPlaying` still says playing.
   */
  lemma PickWhilePlayingStaysSilent(s: State, next: SongObject, ok: bool, p: Platform)
    requires s.isPlaying && !s.wasPlaying && s.autoPlay == [] && next != s.song
    ensures var r := CanPlayThrough(SetSong(s, next, p), ok);
      r.song == next && r.audio.paused && r.isPlaying
  {
    var r1 := SetSong(s, next, p);
    assert r1.autoPlay == [false];
  }

  /**
   * A listener outlives its selection: two song changes before the first
   * `canplaythrough` leave both listeners registered, and both run for the
   * second song's source.
   */
  lemma ListenersAccumulate(s: State, a: SongObject, b: SongObject, p: Platform)
    requires a != s.song && b != a
    ensures SetSong(SetSong(s, a, p), b, p).autoPlay == s.autoPlay + [s.wasPlaying, s.isPlaying]
  {
  }

  /** `handleEnded`'s three cases. */
  lemma EndedCases(s: State, draw: Draw, ok: bool, p: Platform)
    ensures var r := Ended(s, draw, ok, p);
      && (s.repeatMode == One ==>
            r.song == s.song && r.audio.position == 0.0 && r.audio.paused == !ok && r.isPlaying == s.isPlaying)
      && (s.repeatMode != One && (s.repeatMode == All || |s.songs| > 1) ==>
            r == PlayNext(s.(audio := Pause(s.audio)), draw, p))
      && (s.repeatMode == Off && |s.songs| <= 1 ==>
            r.song == s.song && !r.isPlaying && r.audio.paused)
  {
  }

  /**
   * Repeat-all over a one-song list whose entry is the current song's object
   * does not restart the song: next picks that same object, so nothing
   * reloads; the element stays paused at the end while `isPlaying` is
   * unchanged.
   */
  lemma RepeatAllSingleSongStalls(s: State, draw: Draw, ok: bool, p: Platform)
    requires |s.songs| == 1 && s.songs[0] == s.song && s.repeatMode == All
    ensures var r := Ended(s, draw, ok, p);
      r.song == s.song && r.audio.paused && r.audio.position == s.audio.position && r.isPlaying == s.isPlaying
  {
    var s1 := s.(audio := Pause(s.audio));
    var c := NextChoice(s1, draw);
    assert c == Some(0) by {
      if !s.isShuffled {
        assert FindIndex(s.songs, s.song.row.id) == 0;
      }
    }
  }

  /**
   * Once the list has been fetched again, its one entry is a new object with
   * an equal row, and repeat-all does restart: the source is assigned again,
   * the element rewinds, and a listener holding `isPlaying` is registered.
   */
  lemma RepeatAllAfterReloadRestarts(s: State, draw: Draw, ok: bool, p: Platform)
    requires |s.songs| == 1 && s.songs[0] != s.song && s.songs[0].row == s.song.row && s.repeatMode == All
    ensures var r := Ended(s, draw, ok, p);
      && r.song == s.songs[0] && r.audio.src == p.publicUrl(s.song.row.filePath)
      && r.audio.position == 0.0 && r.audio.paused && r.isLoading && r.currentTime == 0.0
      && r.autoPlay == s.autoPlay + [s.isPlaying]
  {
    var s1 := s.(audio := Pause(s.audio));
    assert NextChoice(s1, draw) == Some(0) by {
      if !s.isShuffled {
        assert FindIndex(s.songs, s.song.row.id) == 0;
      }
    }
  }

  /**
   * The intended end of a track while playing, in order: the next song after
   * the current one is loaded, and it starts once it can play through if
   * play succeeds.
   */
  lemma EndedAdvancesFromCurrent(s: State, draw: Draw, ok: bool, p: Platform)
    requires s.isPlaying && !s.isShuffled && s.repeatMode != One && (s.repeatMode == All || |s.songs| > 1)
    requires 0 <= FindIndex(s.songs, s.song.row.id)
    requires s.songs[(FindIndex(s.songs, s.song.row.id) + 1) % |s.songs|] != s.song
    ensures var r := CanPlayThrough(Ended(s, draw, ok, p), ok);
      && r.song == s.songs[(FindIndex(s.songs, s.song.row.id) + 1) % |s.songs|]
      && r.isPlaying == ok && r.audio.paused == !ok
  {
    var s1 := s.(audio := Pause(s.audio));
    assert NextChoice(s1, draw) == NextChoice(s, draw);
    NextAutoPlays(s1, draw, ok, p);
  }

  // ---------------------------------------------------------------------------
  // The `ended` listener as registered
  // ---------------------------------------------------------------------------

  /**
   * `handleEnded` as the code registers it: the effect that adds the
   * listener depends only on the repeat mode and the list length, so the
   * listener runs the `playNext` of the render `c` in which it was
   * registered, with that render's list, song, shuffle flag and `isPlaying`.
   * Only the element and the state written are the current ones.
   */
  function EndedAsWritten(s: State, c: State, draw: Draw, playOk: bool, p: Platform): State {
    var s1 := s.(audio := Pause(s.audio));
    match EndActionFor(c.repeatMode, |c.songs|)
    case Restart => s1.(audio := Play(s1.audio.(position := 0.0), playOk))
    case Advance =>
      var s2 := s1.(wasPlaying := c.isPlaying);
      var choice := NextChoice(c, draw);
      if choice.Some? then SetSong(s2, c.songs[choice.value], p) else s2
    case Stop => s1.(isPlaying := false)
  }

  /** A listener registered in the current render behaves as intended. */
  lemma FreshEndedListenerIsIntended(s: State, draw: Draw, ok: bool, p: Platform)
    ensures EndedAsWritten(s, s, draw, ok, p) == Ended(s, draw, ok, p)
  {
    var s1 := s.(audio := Pause(s.audio));
    assert NextChoice(s1, draw) == NextChoice(s, draw);
  }

  /**
   * A listener registered while the first song was current, after the list
   * has advanced once to the second: at the second song's end it picks the
   * second song again, so nothing reloads and playback stops at the end,
   * where the intended transition moves on to the third song.
   */
  lemma StaleEndedListenerRepeatsSong(s: State, c: State, draw: Draw, ok: bool, p: Platform)
    requires |s.songs| >= 3 && c.songs == s.songs && c.repeatMode == s.repeatMode == Off
    requires !c.isShuffled && !s.isShuffled
    requires c.song == s.songs[0] && s.song == s.songs[1]
    requires s.songs[0].row.id != s.songs[1].row.id && s.songs[1].row.id != s.songs[2].row.id
    ensures var r := EndedAsWritten(s, c, draw, ok, p);
      && r.song == s.song && r.audio.paused && r.audio.position == s.audio.position
      && r.autoPlay == s.autoPlay && r.isPlaying == s.isPlaying
    ensures Ended(s, draw, ok, p).song == s.songs[2]
  {
    var n := |s.songs|;
    assert FindIndex(s.songs, s.songs[0].row.id) == 0;
    assert FindIndex(s.songs, s.songs[1].row.id) == 1;
    NextIndexWraps(0, n);
    NextIndexWraps(1, n);
    var s1 := s.(audio := Pause(s.audio));
    assert NextChoice(c, draw) == Some(1);
    assert EndedAsWritten(s, c, draw, ok, p) == s1.(wasPlaying := c.isPlaying);
    assert NextChoice(s1, draw) == Some(2);
    assert Ended(s, draw, ok, p) == SetSong(s1.(wasPlaying := s.isPlaying), s.songs[2], p);
  }

  /**
   * A listener registered before play was pressed hands over its stale
   * `isPlaying`: the next song loads, and with no other listener pending
   * it does not start although the player still shows playing.
   */
  lemma StaleEndedListenerDoesNotResume(s: State, c: State, draw: Draw, ok: bool, p: Platform)
    requires EndActionFor(c.repeatMode, |c.songs|) == Advance && NextChoice(c, draw).Some?
    requires c.songs[NextChoice(c, draw).value] != s.song
    requires s.isPlaying && !c.isPlaying && !s.wasPlaying && s.autoPlay == []
    ensures var r := CanPlayThrough(EndedAsWritten(s, c, draw, ok, p), ok);
      && r.song == c.songs[NextChoice(c, draw).value] && r.audio.paused && r.isPlaying
  {
    var r1 := EndedAsWritten(s, c, draw, ok, p);
    assert r1.autoPlay == [false];
  }

  /** Muting twice restores the state exactly. */
  lemma MuteTwiceRestores(s: State, p: Platform)
    requires Valid(s, p)
    ensures ToggleMute(ToggleMute(s)) == s
  {
  }

  /** Seeking to a slider value shows that value on the seek bar, once the duration is known. */
  lemma SeekShowsValue(s: State, v: Percent)
    requires s.duration > 0.0
    ensures ProgressPercentage(Seek(s, v)) == v as real
  {
  }

  /** Before the duration is known, any seek goes to position 0. */
  lemma SeekWithoutDurationRewinds(s: State, v: Percent)
    requires s.duration == 0.0
    ensures Seek(s, v).audio.position == 0.0 && Seek(s, v).currentTime == 0.0
  {
  }
}
