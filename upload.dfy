/**
 * The upload form: which selected file is taken, how a track's title and
 * artist are read off its file name, the record saved for it, and the
 * form's busy flags around an upload.
 */
module Upload {
  import opened Wrappers
  import opened Text
  import opened Library

  /** A selected file: its name, its MIME type and its size in bytes. */
  datatype File = File(name: string, mimeType: string, size: nat)

  datatype Selection = NothingSelected | NotAudio(file: File) | Accepted(file: File)

  const AudioPrefix := "audio/"

  /**
   * `handleFileSelect`'s gate: no list or an empty one selects nothing; only
   * the first file counts; it is taken only if its type starts with 'audio/'.
   */
  function SelectFile(files: Option<seq<File>>): (r: Selection)
    ensures r.NothingSelected? <==> files.None? || |files.value| == 0
    ensures !r.NothingSelected? ==> r.file == files.value[0]
    ensures r.Accepted? <==> !r.NothingSelected? && StartsWith(r.file.mimeType, AudioPrefix)
  {
    if files.None? || |files.value| == 0 then NothingSelected
    else if StartsWith(files.value[0].mimeType, AudioPrefix) then Accepted(files.value[0])
    else NotAudio(files.value[0])
  }

  // ---------------------------------------------------------------------------
  // name.replace(/\.[^/.]+$/, '')
  // ---------------------------------------------------------------------------

  /** A character the pattern's `[^/.]` accepts. */
  predicate NameChar(c: char) {
    c != '/' && c != '.'
  }

  /** The pattern matches at `d`: a '.', then one or more `NameChar`s up to the end. */
  predicate ExtensionAt(s: string, d: nat) {
    d + 1 < |s| && s[d] == '.' && forall j :: d < j < |s| ==> NameChar(s[j])
  }

  /** The length of the longest suffix of `NameChar`s. */
  function TailRun(s: string): (r: nat)
    ensures r <= |s|
    ensures forall j :: |s| - r <= j < |s| ==> NameChar(s[j])
    ensures r < |s| ==> !NameChar(s[|s| - r - 1])
  {
    if s == [] || !NameChar(s[|s| - 1]) then 0 else TailRun(s[..|s| - 1]) + 1
  }

  /** Where the pattern matches, if anywhere. */
  function ExtensionStart(s: string): (r: Option<nat>)
    ensures r.Some? ==> ExtensionAt(s, r.value)
    ensures r.None? ==> forall d: nat :: !ExtensionAt(s, d)
  {
    var k := TailRun(s);
    if 1 <= k < |s| && s[|s| - k - 1] == '.' then Some(|s| - k - 1) else None
  }

  /** The pattern is anchored at the end and excludes '.', so it matches in at most one place. */
  lemma ExtensionAtUnique(s: string, d1: nat, d2: nat)
    requires ExtensionAt(s, d1) && ExtensionAt(s, d2)
    ensures d1 == d2
  {
  }

  /** Removing the final extension: the text before the match, or the whole name. */
  function StripExtension(s: string): (r: string)
    ensures ExtensionStart(s).Some? ==> r == s[..ExtensionStart(s).value]
    ensures ExtensionStart(s).None? ==> r == s
  {
    match ExtensionStart(s)
    case Some(d) => s[..d]
    case None => s
  }

  /** A base name followed by '.' and a non-empty extension without '/' or '.' reads back as the base. */
  lemma StripExtensionRoundTrip(base: string, ext: string)
    requires |ext| >= 1 && forall j :: 0 <= j < |ext| ==> NameChar(ext[j])
    ensures StripExtension(base + "." + ext) == base
  {
    var s := base + "." + ext;
    assert ExtensionAt(s, |base|) by {
      forall j | |base| < j < |s| ensures NameChar(s[j]) {
        assert s[j] == ext[j - |base| - 1];
      }
    }
    var d := ExtensionStart(s).value;
    ExtensionAtUnique(s, d, |base|);
    assert s[..|base|] == base;
  }

  /** Only the last extension goes; a name without one, or ending in '.', stays. */
  lemma StripExtensionExamples()
    ensures StripExtension("a.b.mp3") == "a.b"
    ensures StripExtension("song") == "song"
    ensures StripExtension("song.") == "song."
  {
    assert "a.b.mp3" == "a.b" + "." + "mp3";
    StripExtensionRoundTrip("a.b", "mp3");
    assert !ExtensionAt("song", 4);
  }

  // ---------------------------------------------------------------------------
  // name.split(' - ')
  // ---------------------------------------------------------------------------

  const Separator := " - "

  /** `s.split(sep)`: the pieces between successive non-overlapping occurrences of `sep`. */
  function Split(s: string, sep: string): (r: seq<string>)
    requires |sep| > 0
    decreases |s|
    ensures |r| >= 1
    ensures IndexOf(s, sep).Some? ==> |r| >= 2
  {
    match IndexOf(s, sep)
    case None => [s]
    case Some(i) => [s[..i]] + Split(s[i + |sep|..], sep)
  }

  /** The first piece holds no separator, and there is one piece exactly when there is no separator. */
  lemma SplitFirstPiece(s: string, sep: string)
    requires |sep| > 0
    ensures !Occurs(Split(s, sep)[0], sep)
    ensures |Split(s, sep)| == 1 <==> !Occurs(s, sep)
  {
    match IndexOf(s, sep)
    case None =>
    case Some(i) =>
      assert Split(s, sep)[0] == s[..i];
      forall j: nat ensures !OccursAt(s[..i], sep, j) {
        if j + |sep| <= i {
          assert s[..i][j..j + |sep|] == s[j..j + |sep|];
          assert !OccursAt(s, sep, j);
        }
      }
  }

  /** The inverse of `Split`: the pieces with `sep` between them. */
  function Join(parts: seq<string>, sep: string): string
    requires |parts| >= 1
  {
    if |parts| == 1 then parts[0] else parts[0] + sep + Join(parts[1..], sep)
  }

  lemma {:induction false} SplitJoin(s: string, sep: string)
    requires |sep| > 0
    decreases |s|
    ensures Join(Split(s, sep), sep) == s
  {
    match IndexOf(s, sep)
    case None =>
    case Some(i) =>
      var rest := s[i + |sep|..];
      SplitJoin(rest, sep);
      var parts := Split(s, sep);
      assert parts == [s[..i]] + Split(rest, sep);
      assert |parts| > 1;
      assert parts[1..] == Split(rest, sep);
      assert Join(parts, sep) == s[..i] + sep + Join(Split(rest, sep), sep);
      assert s[i..i + |sep|] == sep;
      assert s == s[..i] + s[i..i + |sep|] + rest;
  }

  /**
   * No ' - ' starts inside `a` once ' - ' follows it: neither within `a` nor
   * overlapping the separator (as one would in 'A -' followed by ' - ').
   */
  ghost predicate NoSeparatorWithin(a: string) {
    !Occurs(a + " -", Separator)
  }

  /** A name part without '-' has no separator within it. */
  lemma DashFreeHasNoSeparatorWithin(a: string)
    requires '-' !in a
    ensures NoSeparatorWithin(a)
  {
    var w := a + " -";
    forall j: nat ensures !OccursAt(w, Separator, j) {
      if j + 3 <= |w| {
        assert w[j..j + 3][1] == w[j + 1];
        if j + 1 < |a| {
          assert w[j + 1] == a[j + 1];
        }
      }
    }
  }

  /** The separator right after `a` is the first one exactly under that condition. */
  lemma SeparatorAfter(a: string, rest: string)
    requires NoSeparatorWithin(a)
    ensures IndexOf(a + Separator + rest, Separator) == Some(|a|)
  {
    var s := a + Separator + rest;
    var w := a + " -";
    assert s[|a|..|a| + 3] == Separator;
    assert OccursAt(s, Separator, |a|);
    assert w == s[..|a| + 2];
    forall j: nat | j < |a| ensures !OccursAt(s, Separator, j) {
      assert w[j..j + 3] == s[j..j + 3];
      assert !OccursAt(w, Separator, j);
    }
  }

  datatype NameParts = NameParts(artist: string, title: string)

  /**
   * `[artist, title]` from the stripped name: the first two pieces of
   * `split(' - ')` when the name contains ' - ', otherwise 'Unknown Artist'
   * and the whole name.
   */
  function ArtistTitle(name: string): NameParts {
    if Includes(name, Separator) then
      var parts := Split(name, Separator);
      NameParts(parts[0], parts[1])
    else NameParts(UnknownArtist, name)
  }

  /**
   * Without ' - ' the artist falls back and the title is the whole name;
   * with it, the artist is the text before the first ' - ', and the title
   * is the text after it up to the next ' - ', or all of it if there is none.
   */
  lemma ArtistTitleCases(name: string)
    ensures !Occurs(name, Separator) ==> ArtistTitle(name) == NameParts(UnknownArtist, name)
    ensures Occurs(name, Separator) ==>
              && ArtistTitle(name).artist == name[..IndexOf(name, Separator).value]
              && !Occurs(ArtistTitle(name).artist, Separator)
    ensures Occurs(name, Separator) ==>
              var rest := name[IndexOf(name, Separator).value + 3..];
              ArtistTitle(name).title == if Occurs(rest, Separator) then rest[..IndexOf(rest, Separator).value] else rest
  {
    SplitFirstPiece(name, Separator);
    if Occurs(name, Separator) {
      var i := IndexOf(name, Separator).value;
      var rest := name[i + 3..];
      assert Split(name, Separator) == [name[..i]] + Split(rest, Separator);
      match IndexOf(rest, Separator)
      case None =>
      case Some(j) =>
        assert Split(rest, Separator)[0] == rest[..j];
    }
  }

  /** 'Artist - Title' reads back as that artist and title. */
  lemma ArtistTitleRoundTrip(a: string, t: string)
    requires NoSeparatorWithin(a) && !Occurs(t, Separator)
    ensures ArtistTitle(a + Separator + t) == NameParts(a, t)
  {
    SplitAfter(a, t);
    OccursMiddle(a, Separator, t);
    assert Split(t, Separator) == [t];
  }

  /**
   * The converse of the round trip: if 'A - T' reads back as artist A and
   * title T, then no ' - ' starts within 'A -' and T holds none.
   */
  lemma ArtistTitleRoundTripOnlyIf(a: string, t: string)
    requires ArtistTitle(a + Separator + t) == NameParts(a, t)
    ensures NoSeparatorWithin(a) && !Occurs(t, Separator)
  {
    var name := a + Separator + t;
    assert OccursAt(name, Separator, |a|) by {
      assert name[|a|..|a| + 3] == Separator;
    }
    ArtistTitleCases(name);
    var i := IndexOf(name, Separator).value;
    assert i == |a| by {
      assert |name[..i]| == |a|;
    }
    assert name[i + 3..] == t;
    forall j: nat
      ensures !OccursAt(a + " -", Separator, j)
    {
      if j + 3 <= |a| + 2 {
        assert (a + " -")[j..j + 3] == name[j..j + 3];
        assert !OccursAt(name, Separator, j);
      }
    }
  }

  /** A name part without spaces has no separator within it. */
  lemma SpaceFreeHasNoSeparatorWithin(a: string)
    requires ' ' !in a
    ensures NoSeparatorWithin(a)
  {
    var w := a + " -";
    forall j: nat | j + 3 <= |w| ensures !OccursAt(w, Separator, j) {
      assert w[j] == a[j];
      assert w[j..j + 3][0] == w[j];
    }
  }

  /** A hyphen inside the artist is kept: 'Jay-Z - Empire' gives artist 'Jay-Z' and title 'Empire'. */
  lemma HyphenatedArtistKept()
    ensures ArtistTitle("Jay-Z" + Separator + "Empire") == NameParts("Jay-Z", "Empire")
  {
    SpaceFreeHasNoSeparatorWithin("Jay-Z");
    NotOccursWithoutChar("Empire", Separator, 0, ' ');
    ArtistTitleRoundTrip("Jay-Z", "Empire");
  }

  /** Pieces after the second are dropped: 'A - B - C' gives artist 'A' and title 'B'. */
  lemma ArtistTitleDropsRest(a: string, b: string, c: string)
    requires NoSeparatorWithin(a) && NoSeparatorWithin(b)
    ensures ArtistTitle(a + Separator + b + Separator + c) == NameParts(a, b)
  {
    var rest := b + Separator + c;
    var s := a + Separator + rest;
    assert a + Separator + b + Separator + c == s;
    SplitAfter(a, rest);
    SplitAfter(b, c);
    var parts := Split(s, Separator);
    assert parts == [a] + ([b] + Split(c, Separator));
    assert parts[0] == a && parts[1] == b;
    OccursMiddle(a, Separator, rest);
    assert Includes(s, Separator);
  }

  /** Splitting after a first piece with no separator within yields that piece, then the split of the rest. */
  lemma SplitAfter(a: string, rest: string)
    requires NoSeparatorWithin(a)
    ensures Split(a + Separator + rest, Separator) == [a] + Split(rest, Separator)
  {
    var s := a + Separator + rest;
    SeparatorAfter(a, rest);
    assert s[..|a|] == a;
    assert s[|a| + 3..] == rest;
  }

  // ---------------------------------------------------------------------------
  // The saved record
  // ---------------------------------------------------------------------------

  /** The metadata `saveSongMetadata` is given. */
  datatype SongData = SongData(title: string, artist: string, filePath: string, fileSize: nat, duration: real)

  /**
   * The record for an uploaded file stored at `filePath`: the title and
   * artist read off the name without its extension, both trimmed; the file's
   * size; and a duration of 0.
   */
  function SongRecord(file: File, filePath: string): SongData {
    var parts := ArtistTitle(StripExtension(file.name));
    SongData(Trim(parts.title), Trim(parts.artist), filePath, file.size, 0.0)
  }

  /** The saved title and artist carry no surrounding white space; size and path are the file's. */
  lemma SongRecordFields(file: File, filePath: string)
    ensures var r := SongRecord(file, filePath);
      && Trimmed(r.title) && Trimmed(r.artist)
      && r.filePath == filePath && r.fileSize == file.size && r.duration == 0.0
  {
  }

  /** A name without ' - ' is saved under 'Unknown Artist', titled by its trimmed stripped name. */
  lemma RecordWithoutSeparator(file: File, filePath: string)
    requires !Occurs(StripExtension(file.name), Separator)
    ensures SongRecord(file, filePath).artist == UnknownArtist
    ensures SongRecord(file, filePath).title == Trim(StripExtension(file.name))
  {
    ArtistTitleCases(StripExtension(file.name));
    TrimmedUnchanged(UnknownArtist);
  }

  // ---------------------------------------------------------------------------
  // The form
  // ---------------------------------------------------------------------------

  /**
   * The upload form's state. `delivered` lists the saved songs handed to
   * `onSongUploaded`, oldest first.
   */
  class Uploader {
    var isUploading: bool
    var uploadProgress: nat
    var delivered: seq<Song>

    constructor()
      ensures !isUploading && uploadProgress == 0 && delivered == []
    {
      isUploading := false;
      uploadProgress := 0;
      delivered := [];
    }

    /**
     * `uploadFile`, given what the storage upload returns (the stored path or
     * an error) and what the database returns when asked to save the record
     * (the saved row or an error). The record is built only after a
     * successful upload and is what gets saved; the saved song is delivered
     * only when both steps succeed; whatever happens the form ends idle.
     */
    method UploadFile(file: File, stored: Result<string, string>, saved: Result<Song, string>)
      returns (record: Option<SongData>)
      modifies this
      ensures !isUploading && uploadProgress == 0
      ensures stored.Failure? ==> record.None? && delivered == old(delivered)
      ensures stored.Success? ==> record == Some(SongRecord(file, stored.value))
      ensures stored.Success? ==> delivered == old(delivered) + if saved.Success? then [saved.value] else []
    {
      isUploading := true;
      uploadProgress := 0;
      if stored.Failure? {
        record := None;
      } else {
        record := Some(SongRecord(file, stored.value));
        if saved.Success? {
          delivered := delivered + [saved.value];
        }
      }
      isUploading := false;
      uploadProgress := 0;
    }

    /** `handleFileSelect`: uploads the first file if it is audio, and otherwise does nothing. */
    method HandleFileSelect(files: Option<seq<File>>, stored: Result<string, string>, saved: Result<Song, string>)
      returns (record: Option<SongData>)
      modifies this
      ensures !SelectFile(files).Accepted? ==>
                && record.None? && isUploading == old(isUploading) && uploadProgress == old(uploadProgress)
                && delivered == old(delivered)
      ensures SelectFile(files).Accepted? ==>
                && !isUploading && uploadProgress == 0
                && (stored.Failure? ==> record.None? && delivered == old(delivered))
                && (stored.Success? ==> record == Some(SongRecord(files.value[0], stored.value)))
                && (stored.Success? ==> delivered == old(delivered) + if saved.Success? then [saved.value] else [])
    {
      if files.None? || |files.value| == 0 {
        return None;
      }
      var file := files.value[0];
      if !StartsWith(file.mimeType, AudioPrefix) {
        return None;
      }
      record := UploadFile(file, stored, saved);
    }
  }
}
