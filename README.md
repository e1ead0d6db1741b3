# A verified model of a browser music player

The app is a small browser music player. Users upload audio files to a hosted storage and database backend. The app lists the stored tracks and plays them through the browser's `<audio>` element, with play/pause, seek, volume, mute, shuffle, repeat, next and previous. This project models the app's own logic and proves properties of it:

- **The transport state machine of the player component** (`src/components/MusicPlayer.tsx`).
  - Module `Transport` states the component's React state, the audio element and the registered `canplaythrough` listeners as one value. It defines one transition function per handler or media event, and proves the properties of those transitions.
  - Module `MusicPlayer` holds two classes. `MediaElement` is the audio element. `Player` is the component, with one field per state variable. Each handler method updates the fields step by step, as the component does, and is proved to perform exactly the matching `Transport` transition while keeping the element consistent with the player (`Valid`).
- **The error classifier and the configuration check** (`src/lib/errors.ts`), in module `Errors`.
- **The upload form** (`src/components/SongUpload.tsx`), in module `Upload`.
  - The gate that picks the selected file.
  - The derivation of title and artist from the file name, and the saved record.
  - The form's busy flags, as class `Uploader`.
- **The song list** (`src/components/SongList.tsx`), in module `SongList`: the size and duration texts, the empty-list placeholder and the active item.

Shared pieces:

- Module `Text` writes out the JavaScript string built-ins the app relies on (`includes`, `startsWith`, `trim`, integer `toString`, `padStart`). `IndexOf` is the left-to-right search for a first occurrence that `includes` and `split` perform. It also gives the `m:ss` clock text that the player's `formatTime` and the list's `formatDuration` both compute.
- Module `Library` holds the song record.
- Module `Wrappers` holds `Option` and `Result`.

Modelling choices:

- Times are exact `real` seconds.
- Slider values are integer percentages 0..100. The element's volume, which the code sets as a fraction `v / 100`, is kept in percent too.
- `Math.random()` is a parameter `draw` in [0, 1). This makes the shuffle choice a choice over all indices (`ShuffleReachesEvery`).
- The outcome of the asynchronous `audio.play()` is a `bool` parameter.
- The storage's public-URL mapping and whether the browser offers a media session are a `Platform` parameter.
- The storage upload and the database insert are `Result` parameters of `Uploader.UploadFile`.

How the code is read:

- **The song-change effect has no cleanup.** Its `canplaythrough` listener captures the `wasPlaying` of the render that registered it, which is the value before the effect's own `setWasPlaying`.
  - The model keeps one captured value per registered listener (`autoPlay`).
  - On `canplaythrough` every one of them runs once and removes itself.
- **The effect depends on `[song]`, which React compares by object identity.** The model gives every song object an identity (`SongObject`).
  - Selecting the object that is already current changes nothing (`SetSong`).
  - A list fetched again holds new objects with equal rows. Selecting one of them reruns the effect: the source is assigned again and the element rewinds (`SongChangeResets`, `RepeatAllAfterReloadRestarts`).
- **The button calls `togglePlay`, which is disabled while loading.** A press during loading is ignored.
- **Assigning `src` to an element pauses it and rewinds it to 0**, as the HTML media loading algorithm does. An element that reaches its end is paused.
- **`handleSeek` with an unknown duration (0) moves to position 0** (`SeekWithoutDurationRewinds`).
- **The only use of the media session is the now-playing metadata** the song effect publishes.
- **Listeners from earlier selections survive and fire for the later source** (`ListenersAccumulate`).
- **The `ended` listener is registered by an effect that depends only on `repeatMode` and `songs.length`.** When a track ends, it therefore runs the `playNext` of the render that registered it, with that render's song, list, shuffle flag and `isPlaying`.
  - `Transport.EndedAsWritten` models that listener, with the registering render as a parameter. The two lemmas about it show that it can pick the current song again, so playback stops, and that it can hand over a stale `isPlaying`, so the next song stays silent.
  - The rest of the model, the `Player` class included, uses the intended transition `Transport.Ended`, which reads the current render. This is the first row of "## Findings".

## Model

| member | source | states |
|---|---|---|
| Library.DisplayArtist | src/components/SongList.tsx:49 | `artist \|\| 'Unknown Artist'`: the text is 'Unknown Artist' exactly when the artist is missing, empty or literally 'Unknown Artist', and otherwise it is the stored artist |
| Text.IndexOf | src/components/SongUpload.tsx:38-39 | the search `includes` and `split` perform: the result is the first index where the needle occurs, and it is absent exactly when the needle occurs nowhere |
| Text.Includes | src/lib/errors.ts:53-78 | `includes` holds exactly when the needle occurs somewhere in the string (case-sensitive) |
| Text.Trim | src/components/SongUpload.tsx:44-45 | the trimmed string neither starts nor ends with white space |
| Text.TrimIsSlice | src/components/SongUpload.tsx:44-45 | `trim` keeps one contiguous slice of the input and removes only white space before and after it |
| Text.TrimmedUnchanged | src/components/SongUpload.tsx:44-45 | a string without surrounding white space is left unchanged |
| Text.TrimIdempotent | src/components/SongUpload.tsx:44-45 | trimming twice gives the same string as trimming once |
| Text.NatText | src/components/SongList.tsx:16 | integer `toString`: decimal digits only, no leading zero, a single digit exactly below 10 |
| Text.NatTextRoundTrip | src/components/SongList.tsx:16 | the digits read back as the number |
| Text.PadStart2 | src/components/SongList.tsx:16 | `padStart(2, '0')` keeps strings of length two or more and left-pads shorter ones with '0' to length two |
| Text.TwoDigits | src/components/SongList.tsx:16 | below 100 the padded seconds are exactly two digits that read back as the number |
| Text.ClockText | src/components/MusicPlayer.tsx:183-187 | `formatTime` and `formatDuration` (stated by `ClockTextFields` and `ClockTextRoundTrip`) |
| Text.StartsWith | src/components/SongUpload.tsx:20 | `startsWith`: the string begins with the prefix (used by `SelectFile`) |
| Text.ClockTextFields | src/components/SongList.tsx:13-17 | the clock text of t is the whole minutes, a colon and the remaining whole seconds of t (t mod 60) padded to exactly two digits |
| Text.ClockTextRoundTrip | src/components/MusicPlayer.tsx:183-187 | the clock text has the shape `digits:dd` and reads back as the whole seconds of t, so no two whole seconds share a text |
| Errors.ErrorMessage | src/lib/errors.ts:34-44 | the message table, one entry per code (used by `HandleError`) |
| Errors.MessageOf | src/lib/errors.ts:50 | an `Error` gives its message, any other value its string form (used by `HandleError`) |
| Errors.Classify | src/lib/errors.ts:53-91 | the reference classification, one rule after another (stated by `FirstMatchWins`) |
| Errors.HandleError | src/lib/errors.ts:46-92 | the code is the reference classification `Classify` of the message (the rules tried in order: missing table, 'Failed to fetch', 'Invalid URL' or 'supabase', '401' or 'permission denied', otherwise unknown), and a known code carries its entry of the message table |
| Errors.FirstMatchWins | src/lib/errors.ts:53-91 | each code results exactly when its rule is the first one to match, and only four of the nine table codes can result |
| Errors.DetailsCarryMessage | src/lib/errors.ts:61-91 | a network error's details are the message verbatim; an unknown error carries the fixed message and details that are the message, or 'Bilinmeyen hata' when the message is empty |
| Errors.FetchOutranksUnauthorized | src/lib/errors.ts:61-84 | a message containing both 'Failed to fetch' and '401' (and not the missing-table text) is a network error, not an authorisation error |
| Errors.FailedFetchIsNetworkError | src/lib/errors.ts:61-67 | any message with 'Failed to fetch' in it and no double quote around it is a network error whose details are the whole message |
| Errors.MissingConfigurationMatchesNothing | src/lib/errors.ts:53-84 | 'Supabase configuration is missing' contains none of the six patterns |
| Errors.LowerCaseSupabaseAbsent | src/lib/errors.ts:69 | the lower-case pattern 'supabase' does not occur in 'Supabase configuration is missing' |
| Errors.MissingConfigurationIsUnknown | src/app/page.tsx:28 | the error the page throws for a missing configuration is classified as unknown, with that message as details, because matching is case-sensitive |
| Errors.IsSupabaseConfigured | src/lib/errors.ts:94-105 | true exactly when both settings are set and non-empty, neither equals its placeholder, and the URL contains 'supabase.co' |
| Errors.ClientFallbackPassesCheck | src/lib/supabase.ts:4-5 | the configuration check reads the raw settings, so the client's fallbacks never reach it; as strings, the fallback URL and key would pass it |
| Transport.ModeIndex | src/components/MusicPlayer.tsx:178-179 | `modes.indexOf(repeatMode)` finds the mode in the cycle table |
| Transport.JsRemainder | src/components/MusicPlayer.tsx:180 | JavaScript `%`: equals the mathematical remainder for a non-negative dividend and lies in (-n, 0] for a negative one |
| Transport.JsRemainderTruncates | src/components/MusicPlayer.tsx:133 | for either sign, the dividend is the quotient truncated toward zero times n plus the remainder |
| Transport.NextRepeat | src/components/MusicPlayer.tsx:177-181 | the repeat button cycles off → one → all → off |
| Transport.RepeatPressesIndex | src/components/MusicPlayer.tsx:177-181 | k presses move k steps around the three-entry cycle |
| Transport.RepeatCycle | src/components/MusicPlayer.tsx:177-181 | k presses restore the starting mode exactly when k is a multiple of 3 |
| Transport.FindIndex | src/components/MusicPlayer.tsx:112 | `findIndex` returns the first song with the current id, or -1 exactly when none has it |
| Transport.NextIndex | src/components/MusicPlayer.tsx:118 | `(i + 1) % n` lies in [0, n) and is defined exactly when the list is non-empty |
| Transport.PreviousIndex | src/components/MusicPlayer.tsx:133 | `(i - 1 + n) % n` lies in [0, n) and is defined exactly when the list is non-empty |
| Transport.NextIndexWraps | src/components/MusicPlayer.tsx:112-118 | next steps forward, wraps from the last song to the first, and picks index 0 when the current song is missing |
| Transport.PreviousIndexWraps | src/components/MusicPlayer.tsx:127-133 | previous steps back and wraps from the first song to the last; a missing current song picks the second to last song (index 0 in a one-song list) |
| Transport.NextPreviousInverse | src/components/MusicPlayer.tsx:111-139 | next followed by previous, and previous followed by next, both return to the starting index |
| Transport.ShuffleIndex | src/components/MusicPlayer.tsx:115-116 | `Math.floor(Math.random() * n)` lies in [0, n) and is defined exactly when the list is non-empty |
| Transport.ShuffleReachesEvery | src/components/MusicPlayer.tsx:130-131 | every index of the list, the current one included, is chosen by some random value |
| Transport.EndActionFor | src/components/MusicPlayer.tsx:70-79 | end of track restarts exactly under repeat-one, advances exactly under repeat-all or with more than one song, and stops exactly under repeat-off with at most one song |
| Transport.Load | src/components/MusicPlayer.tsx:32 | assigning `src` sets the source, rewinds to 0 and pauses, and keeps the volume |
| Transport.Play | src/components/MusicPlayer.tsx:48-53 | `play()` unpauses the element exactly when it succeeds and changes nothing else |
| Transport.Pause | src/components/MusicPlayer.tsx:104 | `pause()` pauses the element and changes nothing else |
| Transport.Initial | src/components/MusicPlayer.tsx:12-20 | the initial values of the component's state (stated through `Mount`, which runs the first effect on them) |
| Transport.SongEffect | src/components/MusicPlayer.tsx:24-60 | the song effect (stated by `SongChangeResets` and `SetSongKeepsValid`) |
| Transport.SetSong | src/components/MusicPlayer.tsx:24-60 | the effect runs only for another object; the same object changes nothing (stated by `SongChangeResets` and `HandOffCarriesPlaying`) |
| Transport.HandOff | src/components/MusicPlayer.tsx:121-123 | `setWasPlaying(isPlaying)` and the hand-off of the chosen song (stated by `HandOffCarriesPlaying` and `HandOffKeepsValid`) |
| Transport.PlayNext | src/components/MusicPlayer.tsx:111-124 | `playNext`: the hand-off of `NextChoice` (stated by `NextAutoPlays`) |
| Transport.PlayPrevious | src/components/MusicPlayer.tsx:126-139 | `playPrevious`: the hand-off of `PreviousChoice` (stated by `HandOffCarriesPlaying` and `PreviousUndoesNext`) |
| Transport.PreviousUndoesNext | src/components/MusicPlayer.tsx:111-139 | with shuffle off and distinct ids, previous after next brings back the song that was current |
| Transport.Ended | src/components/MusicPlayer.tsx:70-79 | the intended `handleEnded`, reading the current render (stated by `EndedCases`, `EndedAdvancesFromCurrent` and `EndedKeepsValid`) |
| Transport.Valid | src/components/MusicPlayer.tsx:27-32 | the element plays the current song's public URL, and its volume is the saved one, or 0 while muted, as lines 150-171 keep it (kept by every transition: `ReachableValid`) |
| Transport.Mount | src/components/MusicPlayer.tsx:12-60 | the first render and its effect leave the player consistent, not playing, loading, repeat off, shuffle off and one listener that will not auto-play |
| Transport.NextChoice | src/components/MusicPlayer.tsx:111-119 | the index `playNext` asks for is an index of the list |
| Transport.PreviousChoice | src/components/MusicPlayer.tsx:126-134 | the index `playPrevious` asks for is an index of the list |
| Transport.CanPlayThrough | src/components/MusicPlayer.tsx:46-58 | every listener is removed; exactly when some listener captured a true `wasPlaying`, the element gets `Play` with the outcome and `isPlaying` follows it, and otherwise the element is untouched; song, position and loading are unchanged |
| Transport.LoadedMetadata | src/components/MusicPlayer.tsx:66-69 | `loadedmetadata` sets the duration and ends loading, and leaves `isPlaying`, the element and the song alone |
| Transport.CanPlay | src/components/MusicPlayer.tsx:80 | `canplay` ends loading and leaves `isPlaying`, the element and the duration alone |
| Transport.Waiting | src/components/MusicPlayer.tsx:81 | `waiting` shows loading and leaves `isPlaying`, the element and the duration alone |
| Transport.TimeUpdate | src/components/MusicPlayer.tsx:65 | the shown position is the element's position, and `isPlaying` is unchanged |
| Transport.TogglePlay | src/components/MusicPlayer.tsx:99-110 | ignored while loading; otherwise it flips `isPlaying` whatever the outcome of play; pausing always pauses the element and playing unpauses it only on success |
| Transport.SeekTime | src/components/MusicPlayer.tsx:145 | the target never exceeds the duration and, with a known duration, is exactly the slider's share of it |
| Transport.Seek | src/components/MusicPlayer.tsx:141-148 | the element and the shown position move to the slider's share of the duration; `isPlaying` and the duration are unchanged |
| Transport.VolumeChange | src/components/MusicPlayer.tsx:150-158 | the element and the saved level take the slider's value, and the player is muted exactly when that value is 0 |
| Transport.ToggleMute | src/components/MusicPlayer.tsx:160-171 | flips the mute flag, never changes the saved level, and sets the element to 0 when muting and to the saved level when unmuting |
| Transport.ToggleShuffle | src/components/MusicPlayer.tsx:173-175 | flips the shuffle flag |
| Transport.ToggleRepeat | src/components/MusicPlayer.tsx:177-181 | the repeat mode becomes the next one in the cycle |
| Transport.ProgressPercentage | src/components/MusicPlayer.tsx:189 | the progress is never negative, is at most 100 while the position is within the duration, and is 0 while the duration is 0 |
| Transport.SetSongKeepsValid | src/components/MusicPlayer.tsx:24-60 | choosing a song keeps the element playing the current song's file at the player's volume |
| Transport.HandOffKeepsValid | src/components/MusicPlayer.tsx:122-123 | handing a chosen song to the page keeps the player consistent |
| Transport.EndedKeepsValid | src/components/MusicPlayer.tsx:70-79 | the end-of-track handling keeps the player consistent |
| Transport.SongEventKeepsValid | src/components/MusicPlayer.tsx:24-139 | picking a song, next, previous and a track's end keep the player consistent |
| Transport.MediaEventKeepsValid | src/components/MusicPlayer.tsx:46-97 | the buffering, metadata, ready, waiting and position events keep the player consistent |
| Transport.ControlEventKeepsValid | src/components/MusicPlayer.tsx:99-181 | play/pause, seeking, the volume slider, mute, shuffle, repeat and a new list keep the player consistent |
| Transport.StepKeepsValid | src/components/MusicPlayer.tsx:24-181 | every user action, media event or list change keeps the element's source and volume consistent with the player |
| Transport.RunKeepsValid | src/components/MusicPlayer.tsx:24-181 | any sequence of events keeps the player consistent |
| Transport.ReachableValid | src/components/MusicPlayer.tsx:12-181 | every state reachable from the first render is consistent |
| Transport.SongChangeResets | src/components/MusicPlayer.tsx:24-60 | a change to another object, even one holding an equal row, loads the new file, rewinds and pauses the element, shows position 0 and loading, keeps `isPlaying`, records it in `wasPlaying`, registers one listener holding the previous `wasPlaying` and publishes the new metadata |
| Transport.HandOffCarriesPlaying | src/components/MusicPlayer.tsx:122-123 | next and previous set `wasPlaying` to `isPlaying` before the song change, so a changed song's listener holds whether the player was playing; the chosen entry becomes the song, the list and shuffle flag are kept, and when the entry is the current object only `wasPlaying` changes |
| Transport.AutoPlayOneShot | src/components/MusicPlayer.tsx:46-58 | after one `canplaythrough` a second one changes nothing |
| Transport.NextAutoPlays | src/components/MusicPlayer.tsx:45-58 | after next from a playing state, the new song plays once it can play through if play succeeds, and the player shows stopped if play fails |
| Transport.PickWhilePlayingStaysSilent | src/components/MusicPlayer.tsx:30-58 | picking another song from the list while playing, after a selection made while stopped, leaves the element paused while `isPlaying` still says playing |
| Transport.ListenersAccumulate | src/components/MusicPlayer.tsx:46-60 | two song changes before any `canplaythrough` leave both listeners registered |
| Transport.EndedCases | src/components/MusicPlayer.tsx:70-79 | repeat-one rewinds and replays the same song; repeat-all or a longer list performs `playNext`; otherwise the player stops on the same song |
| Transport.RepeatAllSingleSongStalls | src/components/MusicPlayer.tsx:74-75 | repeat-all over a one-song list whose entry is the current song's object does not restart: the element stays paused at its end position while `isPlaying` is unchanged |
| Transport.RepeatAllAfterReloadRestarts | src/components/MusicPlayer.tsx:74-75 | when the one entry is a new object with an equal row (the list was fetched again), repeat-all does restart: the source is assigned again, the element rewinds, loads, and a listener holding `isPlaying` is registered |
| Transport.EndedAdvancesFromCurrent | src/components/MusicPlayer.tsx:70-79 | as intended, at the end of a track while playing (shuffle off, repeat-all or a longer list), the song after the current one is loaded and starts once it can play through if play succeeds |
| Transport.EndedAsWritten | src/components/MusicPlayer.tsx:61-97 | `handleEnded` as registered: it decides and picks with the values of the render that registered it (stated by the three lemmas below) |
| Transport.FreshEndedListenerIsIntended | src/components/MusicPlayer.tsx:61-97 | a listener registered in the current render does exactly what `Ended` does |
| Transport.StaleEndedListenerRepeatsSong | src/components/MusicPlayer.tsx:61-97 | a listener registered while the first song was current, after one advance to the second, picks the second song again at its end: nothing reloads and the element stays paused at the end, where `Ended` moves to the third song |
| Transport.StaleEndedListenerDoesNotResume | src/components/MusicPlayer.tsx:61-97 | a listener registered before play was pressed hands over `isPlaying` false: the next song loads but does not start, while the player still shows playing |
| Transport.MuteTwiceRestores | src/components/MusicPlayer.tsx:160-171 | muting twice restores the state exactly |
| Transport.SeekShowsValue | src/components/MusicPlayer.tsx:141-189 | once the duration is known, the progress bar shows exactly the value the seek bar was moved to |
| Transport.SeekWithoutDurationRewinds | src/components/MusicPlayer.tsx:145 | before the duration is known, every seek goes to position 0 |
| MusicPlayer.MediaElement.constructor | src/components/MusicPlayer.tsx:193 | a fresh element has no source, is at position 0, at full volume and paused |
| MusicPlayer.MediaElement.SetSource | src/components/MusicPlayer.tsx:32 | the new element state is `Transport.Load` of the old one |
| MusicPlayer.MediaElement.Play | src/components/MusicPlayer.tsx:48-53 | the new element state is `Transport.Play` of the old one |
| MusicPlayer.MediaElement.Pause | src/components/MusicPlayer.tsx:104 | the new element state is `Transport.Pause` of the old one |
| MusicPlayer.MediaElement.SetCurrentTime | src/components/MusicPlayer.tsx:72 | only the position changes |
| MusicPlayer.MediaElement.SetVolume | src/components/MusicPlayer.tsx:155 | only the volume changes |
| MusicPlayer.Player.constructor | src/components/MusicPlayer.tsx:12-60 | the new player is in the state `Transport.Mount` describes and is consistent |
| MusicPlayer.Player.SongEffect | src/components/MusicPlayer.tsx:24-60 | the new state is `Transport.SongEffect` of the old one |
| MusicPlayer.Player.SetSong | src/components/MusicPlayer.tsx:24-60 | the new state is `Transport.SetSong` of the old one, so nothing happens when the prop is the same object and the effect reruns for any other object; consistency is kept |
| MusicPlayer.Player.PlayNext | src/components/MusicPlayer.tsx:111-124 | the new state is `Transport.PlayNext` of the old one; consistency is kept |
| MusicPlayer.Player.PlayPrevious | src/components/MusicPlayer.tsx:126-139 | the new state is `Transport.PlayPrevious` of the old one; consistency is kept |
| MusicPlayer.Player.Ended | src/components/MusicPlayer.tsx:70-79 | the new state is the intended `Transport.Ended` of the old one (the listener as registered is `Transport.EndedAsWritten`); consistency is kept |
| MusicPlayer.Player.CanPlayThrough | src/components/MusicPlayer.tsx:46-58 | the new state is `Transport.CanPlayThrough` of the old one; consistency is kept |
| MusicPlayer.Player.LoadedMetadata | src/components/MusicPlayer.tsx:66-69 | the new state is `Transport.LoadedMetadata` of the old one; consistency is kept |
| MusicPlayer.Player.CanPlay | src/components/MusicPlayer.tsx:80 | the new state is `Transport.CanPlay` of the old one; consistency is kept |
| MusicPlayer.Player.Waiting | src/components/MusicPlayer.tsx:81 | the new state is `Transport.Waiting` of the old one; consistency is kept |
| MusicPlayer.Player.TimeUpdate | src/components/MusicPlayer.tsx:65 | the new state is `Transport.TimeUpdate` of the old one; consistency is kept |
| MusicPlayer.Player.TogglePlay | src/components/MusicPlayer.tsx:99-110 | the new state is `Transport.TogglePlay` of the old one; consistency is kept |
| MusicPlayer.Player.Seek | src/components/MusicPlayer.tsx:141-148 | the new state is `Transport.Seek` of the old one; consistency is kept |
| MusicPlayer.Player.VolumeChange | src/components/MusicPlayer.tsx:150-158 | the new state is `Transport.VolumeChange` of the old one; consistency is kept |
| MusicPlayer.Player.ToggleMute | src/components/MusicPlayer.tsx:160-171 | the new state is `Transport.ToggleMute` of the old one; consistency is kept |
| MusicPlayer.Player.ToggleShuffle | src/components/MusicPlayer.tsx:173-175 | the new state is `Transport.ToggleShuffle` of the old one; consistency is kept |
| MusicPlayer.Player.ToggleRepeat | src/components/MusicPlayer.tsx:177-181 | the new state is `Transport.ToggleRepeat` of the old one; consistency is kept |
| MusicPlayer.Player.SongsChanged | src/app/page.tsx:41-44 | the new state is `Transport.SongsChanged` of the old one, with the page's new list; consistency is kept |
| Upload.SelectFile | src/components/SongUpload.tsx:16-23 | no list or an empty list selects nothing; otherwise only the first file counts, and it is accepted exactly when its type starts with 'audio/' |
| Upload.TailRun | src/components/SongUpload.tsx:37 | the longest run of characters other than '/' and '.' at the end of the name |
| Upload.ExtensionStart | src/components/SongUpload.tsx:37 | `/\.[^/.]+$/` matches at the returned position, and matches nowhere when none is returned |
| Upload.ExtensionAtUnique | src/components/SongUpload.tsx:37 | the pattern matches in at most one place |
| Upload.StripExtension | src/components/SongUpload.tsx:37 | the name loses exactly the matched extension, and is unchanged when the pattern does not match |
| Upload.StripExtensionRoundTrip | src/components/SongUpload.tsx:37 | a base, a '.' and a non-empty extension without '/' or '.' strips back to the base |
| Upload.StripExtensionExamples | src/components/SongUpload.tsx:37 | 'a.b.mp3' becomes 'a.b', while 'song' and 'song.' are unchanged |
| Upload.Split | src/components/SongUpload.tsx:39 | `split` yields at least one piece, and at least two when the separator occurs |
| Upload.SplitFirstPiece | src/components/SongUpload.tsx:39 | the first piece holds no separator, and there is exactly one piece when the separator does not occur |
| Upload.SplitJoin | src/components/SongUpload.tsx:39 | joining the pieces with the separator gives back the string |
| Upload.ArtistTitle | src/components/SongUpload.tsx:38-40 | the artist and title taken from the stripped name (stated by the four lemmas below) |
| Upload.ArtistTitleCases | src/components/SongUpload.tsx:38-40 | without ' - ' the artist is 'Unknown Artist' and the title the whole name; with it, the artist is the text before the first ' - ' (and holds none), and the title is the text after it up to the next ' - ', or all of it when there is no other |
| Upload.DashFreeHasNoSeparatorWithin | src/components/SongUpload.tsx:38-39 | an artist without '-' never makes a ' - ' start before the separator that follows it |
| Upload.ArtistTitleRoundTrip | src/components/SongUpload.tsx:38-39 | 'A - T' reads back as artist A and title T when no ' - ' starts within 'A -' and T holds none, hyphenated artists included |
| Upload.ArtistTitleRoundTripOnlyIf | src/components/SongUpload.tsx:38-39 | the converse: if 'A - T' reads back as A and T, then no ' - ' starts within 'A -' and T holds none; with the lemma above, the round trip holds exactly under that condition |
| Upload.HyphenatedArtistKept | src/components/SongUpload.tsx:38-39 | 'Jay-Z - Empire' gives artist 'Jay-Z' and title 'Empire' |
| Upload.ArtistTitleDropsRest | src/components/SongUpload.tsx:38-39 | pieces after the second are dropped: 'A - B - C' gives artist A and title B |
| Upload.SongRecord | src/components/SongUpload.tsx:43-49 | the metadata saved for an uploaded file (stated by `SongRecordFields` and `RecordWithoutSeparator`) |
| Upload.SongRecordFields | src/components/SongUpload.tsx:43-49 | the saved title and artist are trimmed, the path is the stored path, the size is the file's and the duration is 0 |
| Upload.RecordWithoutSeparator | src/components/SongUpload.tsx:40-45 | a name without ' - ' is saved under 'Unknown Artist' with its trimmed stripped name as title |
| Upload.Uploader.constructor | src/components/SongUpload.tsx:12-13 | the form starts idle with progress 0 |
| Upload.Uploader.UploadFile | src/components/SongUpload.tsx:28-66 | the record is built only after a successful upload; the saved song is delivered exactly when both the upload and the save succeed; whatever happens the form ends idle with progress 0 |
| Upload.Uploader.HandleFileSelect | src/components/SongUpload.tsx:16-26 | a missing, empty or non-audio selection changes nothing; otherwise the first file goes through `UploadFile` with its guarantees |
| SongList.UnitIndex | src/components/SongList.tsx:21 | the unit index is the largest i with 1024^i ≤ bytes |
| SongList.UnitIndexUnique | src/components/SongList.tsx:21 | the unit index is the only index satisfying those bounds |
| SongList.UnitName | src/components/SongList.tsx:19-22 | `sizes[i]`: 'B', 'KB', 'MB', 'GB', and 'undefined' past the table (stated by `HugeSizesHaveNoUnit`) |
| SongList.RoundedHundredths | src/components/SongList.tsx:22 | `Math.round(bytes / unit * 100)` (bounded by `RoundedInRange`) |
| SongList.HundredthsText | src/components/SongList.tsx:22 | the text of the rounded amount divided by 100 (stated by `WholeHundredths` and `SmallSizesInBytes`) |
| SongList.FileSizeText | src/components/SongList.tsx:19-23 | zero bytes print as '0 B' |
| SongList.RoundedInRange | src/components/SongList.tsx:22 | the rounded amount is between 1 and 1024 units |
| SongList.SmallSizesInBytes | src/components/SongList.tsx:19-23 | 1..1023 bytes print as the exact byte count followed by ' B' |
| SongList.HugeSizesHaveNoUnit | src/components/SongList.tsx:19-22 | from 1024^4 bytes on, the unit index is past the four-entry table and the unit prints as 'undefined' |
| SongList.FileSizeTextInUnit | src/components/SongList.tsx:19-23 | every size from 1024^k up to, but not including, 1024^(k+1) bytes prints as `Math.round` of its amount in hundredths of 1024^k, as text, a space and the k-th unit name ('B', 'KB', 'MB', 'GB', then 'undefined') |
| SongList.WholeHundredths | src/components/SongList.tsx:22 | a whole number of units prints without a decimal point |
| SongList.JustUnderOneMegabyte | src/components/SongList.tsx:22 | rounding can reach the next unit's size without switching unit: 1048575 bytes print as '1024 KB' |
| SongList.DurationPrefixAsWritten | src/components/SongList.tsx:50 | the duration expression as written: '0' for a zero duration (stated by `DurationPrefixDiffersOnlyAtZero`) |
| SongList.DurationPrefix | src/components/SongList.tsx:50 | the prefix is non-empty exactly when the duration is known and positive, and then it is the clock text followed by ' • ' |
| SongList.DurationPrefixDiffersOnlyAtZero | src/components/SongList.tsx:50 | the expression as written agrees with the intended prefix on every duration except 0, where it prints '0' |
| SongList.UploadedSongShowsStrayZero | src/components/SongUpload.tsx:48 | a song saved with duration 0, as every upload is, shows a stray '0' before its size as written, and nothing before it as intended |
| SongList.MetaText | src/components/SongList.tsx:50-51 | the secondary line: the intended duration prefix, then the size text |
| SongList.RenderItem | src/components/SongList.tsx:37-52 | one item: id, title, displayed artist, secondary line, active exactly when the current song has its id (stated through `Render`) |
| SongList.Render | src/components/SongList.tsx:25-56 | an empty list renders only the placeholder; otherwise there is one item per song, in order, with its title, displayed artist and texts, and an item is active exactly when its id is the current song's |
| SongList.AtMostOneActive | src/components/SongList.tsx:39-43 | with distinct ids at most one item is active, and it is the current song's |

## Left out

- Calls into the hosted backend (`src/lib/supabase.ts`) are left out: storage upload, insert, select, delete and public URLs. The public URL is an uninterpreted function of the stored path. Upload and save outcomes are parameters. The generated storage name (`Date.now()` and `Math.random()`) is not modelled.
- The diagnostic panels are not part of this model: `DatabaseTest.tsx`, `DetailedStorageTest.tsx` and `ConnectionVerifier.tsx` only call the backend and log.
- The page's glue in `src/app/page.tsx` is left out: the `isUserInteraction` flag and its `setTimeout` resets, and the asynchronous `loadSongs`. The flag is passed to a prop the player does not declare. The page's list replacement and upload prepend appear only as `SongsChanged` with an arbitrary new list.
- Floating point is not modelled. Times, the seek target and the size quotient are exact reals, with no IEEE rounding, NaN or Infinity.
- The unit index is the exact largest power of 1024 rather than `Math.log(bytes) / Math.log(1024)`. For this reason the model does not capture a rounding error of the logarithms at exact powers of 1024.
- Volume is in integer percent, not the fraction 0..1 the element takes.
- The `play()` promise is a success or failure outcome applied at once. Concurrency and the interleaving of promise callbacks with other events are not modelled.
- React's batching is not modelled: every transition reads the state the previous one left. The only stale closures modelled are the `canplaythrough` listeners' captured `wasPlaying` (`autoPlay`) and the `ended` listener (`EndedAsWritten`).
- EndedAsWritten: the state does not record which render registered the `ended` listener; the lemmas take that render as a parameter.
- The identities of song objects come with the page's lists. The model assumes that one identity always holds one row, which is what a JavaScript object is.
- Next/previous on an empty list are not fully modelled. In the code, with shuffle off, the index is NaN; with shuffle on, it is `Math.floor(Math.random() * 0)`, which is 0. Either way `songs[index]` is `undefined`, and the page then hides the player. The model only records `wasPlaying` and keeps the song.
- Rendering (markup, CSS, icons), `alert` and `console` output are left out, as are the drag-and-drop handlers, the file-input reset (`src/components/SongUpload.tsx:54-57`) and the `isDragging` flag.
- Upload.Uploader.UploadFile: it states the final state only. The intermediate state during the awaits (`isUploading` true) is not observable in a single method call.
- The `MusicPlayerError` class is left out; no modelled operation constructs it. The `ERROR_CODES` strings appear only as `Errors.CodeName`.
- SongList.Render: each item's secondary line is built on the intended duration prefix. As written, an item whose duration is 0 (every uploaded song) shows '0' glued to its size, as `UploadedSongShowsStrayZero` states.
- SongList.FileSizeText: its own contract states only the zero case; every positive size is stated by the lemma `FileSizeTextInUnit`, and `SmallSizesInBytes`, `RoundedInRange`, `HugeSizesHaveNoUnit` and `JustUnderOneMegabyte` state particular ranges and values.

## Findings

| source | as written | input that shows it | evidently intended | confidence | as-written member | corrected member |
|---|---|---|---|---|---|---|
| src/components/MusicPlayer.tsx:61-97 | the effect that registers `handleEnded` depends only on `[repeatMode, songs.length]`, so the listener runs a `playNext` that reads the song, list, shuffle flag and `isPlaying` of the render that registered it | songs A, B, C with repeat off; the listener is registered at mount, with A current and the player paused. The user presses play. At A's end, B loads but does not start (stale `isPlaying` false), while the player still shows playing. The user presses the button twice (pause, then play). At B's end, B is picked again (stale song A), nothing reloads and playback stops | at a track's end, advance from the current song and keep playing if the player was playing | not executed | Transport.EndedAsWritten (shown by Transport.StaleEndedListenerRepeatsSong and Transport.StaleEndedListenerDoesNotResume) | Transport.Ended (proved by Transport.EndedAdvancesFromCurrent and Transport.EndedCases; used by Transport.Step and MusicPlayer.Player.Ended) |
| src/components/SongList.tsx:50 | `{song.duration && song.duration > 0 && ...}` short-circuits on a duration of 0 to the number 0, which React renders as the text '0' | any song with duration 0; every upload saves duration 0 (src/components/SongUpload.tsx:48), so an uploaded 3 MB song shows '03 MB' | no prefix at all unless the duration is positive | not executed | SongList.DurationPrefixAsWritten (shown by SongList.DurationPrefixDiffersOnlyAtZero and SongList.UploadedSongShowsStrayZero) | SongList.DurationPrefix (used by SongList.MetaText and SongList.Render) |
