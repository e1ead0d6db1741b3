/**
 * The music player component as objects: the audio element it drives and
 * the component itself, whose fields are its React state. Each handler and
 * each media event is a method that updates those fields step by step, in
 * the order the component does, and is proved to perform the matching
 * transition of module `Transport`.
 */
module MusicPlayer {
  import opened Wrappers
  import opened Library
  import opened Transport

  /** The `<audio>` element. */
  class MediaElement {
    var src: string
    var position: Seconds
    var volume: Percent
    var paused: bool

    function Value(): Audio
      reads this
    {
      Audio(src, position, volume, paused)
    }

    /** A fresh element: no source, at position 0, full volume, paused. */
    constructor()
      ensures Value() == Audio("", 0.0, 100, true)
    {
      src := "";
      position := 0.0;
      volume := 100;
      paused := true;
    }

    /** Assigning `src`. */
    method SetSource(url: string)
      modifies this
      ensures Value() == Load(old(Value()), url)
    {
      src := url;
      position := 0.0;
      paused := true;
    }

    /** `play()`, with the outcome of its promise. */
    method Play(ok: bool)
      modifies this
      ensures Value() == Transport.Play(old(Value()), ok)
    {
      if ok {
        paused := false;
      }
    }

    /** `pause()`, and what the element does itself when a track ends. */
    method Pause()
      modifies this
      ensures Value() == Transport.Pause(old(Value()))
    {
      paused := true;
    }

    /** Assigning `currentTime`. */
    method SetCurrentTime(t: Seconds)
      modifies this
      ensures Value() == old(Value()).(position := t)
    {
      position := t;
    }

    /** Assigning `volume`. */
    method SetVolume(v: Percent)
      modifies this
      ensures Value() == old(Value()).(volume := v)
    {
      volume := v;
    }
  }

  /** The player component, over the `song` and `songs` props the page passes. */
  class Player {
    const platform: Platform
    const audio: MediaElement

    var songs: seq<SongObject>
    var song: SongObject
    var isPlaying: bool
    var currentTime: Seconds
    var duration: Seconds
    var volume: Percent
    var isMuted: bool
    var isShuffled: bool
    var repeatMode: RepeatMode
    var isLoading: bool
    var wasPlaying: bool
    /** The `wasPlaying` each registered `canplaythrough` listener captured. */
    var autoPlay: seq<bool>
    /** The media session's metadata. */
    var nowPlaying: Option<Metadata>

    function State(): State
      reads this, audio
    {
      Transport.State(songs, song, isPlaying, currentTime, duration, volume, isMuted, isShuffled,
                      repeatMode, isLoading, wasPlaying, audio.Value(), autoPlay, nowPlaying)
    }

    ghost predicate Valid()
      reads this, audio
    {
      Transport.Valid(State(), platform)
    }

    /** The first render and the song effect that follows it. */
    constructor(songs: seq<SongObject>, song: SongObject, platform: Platform)
      ensures this.platform == platform && fresh(audio)
      ensures State() == Mount(songs, song, platform)
      ensures Valid()
    {
      this.platform := platform;
      this.audio := new MediaElement();
      this.songs := songs;
      this.song := song;
      isPlaying := false;
      currentTime := 0.0;
      duration := 0.0;
      volume := 100;
      isMuted := false;
      isShuffled := false;
      repeatMode := Off;
      isLoading := true;
      wasPlaying := false;
      autoPlay := [];
      nowPlaying := None;
      new;
      SongEffect();
    }

    /** The effect that runs when the `song` prop has changed. */
    method SongEffect()
      modifies this, audio
      ensures State() == Transport.SongEffect(old(State()), platform)
    {
      var url := platform.publicUrl(song.row.filePath);
      var captured := wasPlaying;
      wasPlaying := isPlaying;
      audio.SetSource(url);
      isLoading := true;
      currentTime := 0.0;
      if platform.mediaSession {
        nowPlaying := Some(Metadata(song.row.title, DisplayArtist(song.row.artist), Album));
      }
      autoPlay := autoPlay + [captured];
    }

    /** The page sets the current song; the effect runs only if it is another object. */
    method SetSong(next: SongObject)
      modifies this, audio
      requires Valid()
      ensures Valid()
      ensures State() == Transport.SetSong(old(State()), next, platform)
    {
      if next != song {
        song := next;
        SongEffect();
      }
    }

    method PlayNext(draw: Draw)
      modifies this, audio
      requires Valid()
      ensures Valid()
      ensures State() == Transport.PlayNext(old(State()), draw, platform)
    {
      var next := if isShuffled then ShuffleIndex(draw, |songs|)
                  else NextIndex(FindIndex(songs, song.row.id), |songs|);
      wasPlaying := isPlaying;
      if next.Some? {
        SetSong(songs[next.value]);
      }
    }

    method PlayPrevious(draw: Draw)
      modifies this, audio
      requires Valid()
      ensures Valid()
      ensures State() == Transport.PlayPrevious(old(State()), draw, platform)
    {
      var previous := if isShuffled then ShuffleIndex(draw, |songs|)
                      else PreviousIndex(FindIndex(songs, song.row.id), |songs|);
      wasPlaying := isPlaying;
      if previous.Some? {
        SetSong(songs[previous.value]);
      }
    }

    /** The `ended` event; the element has already stopped at the end. */
    method Ended(draw: Draw, playOk: bool)
      modifies this, audio
      requires Valid()
      ensures Valid()
      ensures State() == Transport.Ended(old(State()), draw, playOk, platform)
    {
      audio.Pause();
      if repeatMode == One {
        audio.SetCurrentTime(0.0);
        audio.Play(playOk);
      } else if repeatMode == All || |songs| > 1 {
        PlayNext(draw);
      } else {
        isPlaying := false;
      }
    }

    /** The `canplaythrough` event: each listener runs once and removes itself. */
    method CanPlayThrough(playOk: bool)
      modifies this, audio
      requires Valid()
      ensures Valid()
      ensures State() == Transport.CanPlayThrough(old(State()), playOk)
    {
      if true in autoPlay {
        audio.Play(playOk);
        isPlaying := playOk;
      }
      autoPlay := [];
    }

    method LoadedMetadata(d: Seconds)
      modifies this
      requires Valid()
      ensures Valid()
      ensures State() == Transport.LoadedMetadata(old(State()), d)
    {
      duration := d;
      isLoading := false;
    }

    method CanPlay()
      modifies this
      requires Valid()
      ensures Valid()
      ensures State() == Transport.CanPlay(old(State()))
    {
      isLoading := false;
    }

    method Waiting()
      modifies this
      requires Valid()
      ensures Valid()
      ensures State() == Transport.Waiting(old(State()))
    {
      isLoading := true;
    }

    /** The `timeupdate` event, once the element has reached position `t`. */
    method TimeUpdate(t: Seconds)
      modifies this, audio
      requires Valid()
      ensures Valid()
      ensures State() == Transport.TimeUpdate(old(State()), t)
    {
      audio.SetCurrentTime(t);
      currentTime := audio.position;
    }

    method TogglePlay(playOk: bool)
      modifies this, audio
      requires Valid()
      ensures Valid()
      ensures State() == Transport.TogglePlay(old(State()), playOk)
    {
      if isLoading {
        return;
      }
      if isPlaying {
        audio.Pause();
        isPlaying := false;
      } else {
        audio.Play(playOk);
        isPlaying := true;
      }
    }

    method Seek(v: Percent)
      modifies this, audio
      requires Valid()
      ensures Valid()
      ensures State() == Transport.Seek(old(State()), v)
    {
      var newTime := SeekTime(v, duration);
      audio.SetCurrentTime(newTime);
      currentTime := newTime;
    }

    method VolumeChange(v: Percent)
      modifies this, audio
      requires Valid()
      ensures Valid()
      ensures State() == Transport.VolumeChange(old(State()), v)
    {
      audio.SetVolume(v);
      volume := v;
      isMuted := v == 0;
    }

    method ToggleMute()
      modifies this, audio
      requires Valid()
      ensures Valid()
      ensures State() == Transport.ToggleMute(old(State()))
    {
      if isMuted {
        audio.SetVolume(volume);
        isMuted := false;
      } else {
        audio.SetVolume(0);
        isMuted := true;
      }
    }

    method ToggleShuffle()
      modifies this
      requires Valid()
      ensures Valid()
      ensures State() == Transport.ToggleShuffle(old(State()))
    {
      isShuffled := !isShuffled;
    }

    method ToggleRepeat()
      modifies this
      requires Valid()
      ensures Valid()
      ensures State() == Transport.ToggleRepeat(old(State()))
    {
      var i := ModeIndex(repeatMode);
      repeatMode := Modes[JsRemainder(i + 1, |Modes|)];
    }

    method SongsChanged(newSongs: seq<SongObject>)
      modifies this
      requires Valid()
      ensures Valid()
      ensures State() == Transport.SongsChanged(old(State()), newSongs)
    {
      songs := newSongs;
    }
  }
}
