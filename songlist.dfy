/**
 * The song list: its size and duration texts, the placeholder shown for an
 * empty library, and the items with the current song marked active.
 */
module SongList {
  import opened Wrappers
  import opened Text
  import opened Library

  // ---------------------------------------------------------------------------
  // formatFileSize
  // ---------------------------------------------------------------------------

  function Pow1024(i: nat): (r: nat)
    ensures r >= 1
  {
    if i == 0 then 1 else 1024 * Pow1024(i - 1)
  }

  lemma {:induction false} Pow1024Monotone(i: nat, j: nat)
    requires i <= j
    ensures Pow1024(i) <= Pow1024(j)
    decreases j
  {
    if i < j {
      Pow1024Monotone(i, j - 1);
    }
  }

  /**
   * The unit index `Math.floor(Math.log(bytes) / Math.log(1024))`, stated
   * exactly: the number of whole factors of 1024 in `bytes`.
   */
  function UnitIndex(bytes: nat): (i: nat)
    requires bytes >= 1
    ensures Pow1024(i) <= bytes < Pow1024(i + 1)
    decreases bytes
  {
    if bytes < 1024 then 0
    else
      var q := bytes / 1024;
      var j := UnitIndex(q);
      assert 1024 * Pow1024(j) <= 1024 * q <= bytes;
      assert bytes < 1024 * (q + 1) <= 1024 * Pow1024(j + 1);
      j + 1
  }

  /** The unit index is determined by the bounds it satisfies. */
  lemma UnitIndexUnique(bytes: nat, i: nat)
    requires bytes >= 1 && Pow1024(i) <= bytes < Pow1024(i + 1)
    ensures UnitIndex(bytes) == i
  {
    var k := UnitIndex(bytes);
    if k < i {
      Pow1024Monotone(k + 1, i);
    } else if i < k {
      Pow1024Monotone(i + 1, k);
    }
  }

  /** `sizes[i]`: past the four-entry table the lookup is undefined, which prints as 'undefined'. */
  function UnitName(i: nat): string {
    if i < 4 then ["B", "KB", "MB", "GB"][i] else "undefined"
  }

  /** `Math.round(bytes / unit * 100)`: the size in hundredths of the unit, rounded half up. */
  function RoundedHundredths(bytes: nat, unit: nat): int
    requires unit >= 1
  {
    (bytes as real * 100.0 / unit as real + 0.5).Floor
  }

  /** A whole number of hundredths has at most two decimals. */
  function Decimals(f: nat): string
    requires f < 100
  {
    if f == 0 then ""
    else if f % 10 == 0 then "." + [Digit(f / 10)]
    else "." + [Digit(f / 10), Digit(f % 10)]
  }

  /** The shortest text JavaScript prints for `h / 100`. */
  function HundredthsText(h: nat): string {
    NatText(h / 100) + Decimals(h % 100)
  }

  /** `formatFileSize`. */
  function FileSizeText(bytes: nat): (r: string)
    ensures bytes == 0 ==> r == "0 B"
  {
    if bytes == 0 then "0 B"
    else
      var i := UnitIndex(bytes);
      var h := RoundedHundredths(bytes, Pow1024(i));
      assert h >= 0 by {
        assert bytes as real * 100.0 / Pow1024(i) as real >= 0.0;
      }
      HundredthsText(h) + " " + UnitName(i)
  }

  lemma QuotientBounds(a: real, u: real, lo: real, hi: real)
    requires u > 0.0 && lo * u <= a < hi * u
    ensures lo <= a / u < hi
  {
  }

  /** The rounded amount always lies between 1 and 1024 units. */
  lemma RoundedInRange(bytes: nat)
    requires bytes >= 1
    ensures var u := Pow1024(UnitIndex(bytes));
      100 <= RoundedHundredths(bytes, u) <= 102400
  {
    var u := Pow1024(UnitIndex(bytes));
    assert Pow1024(UnitIndex(bytes) + 1) == 1024 * u;
    var a := bytes as real * 100.0;
    assert 100.0 * u as real <= a < 102400.0 * u as real;
    QuotientBounds(a, u as real, 100.0, 102400.0);
  }

  /** Below 1024 bytes the size is the exact byte count in 'B'. */
  lemma SmallSizesInBytes(bytes: nat)
    requires 1 <= bytes < 1024
    ensures FileSizeText(bytes) == NatText(bytes) + " B"
  {
    assert UnitIndex(bytes) == 0;
    var x := bytes as real * 100.0 / 1.0 + 0.5;
    assert x == (100 * bytes) as real + 0.5;
    assert x.Floor == 100 * bytes;
    assert RoundedHundredths(bytes, 1) == 100 * bytes;
    assert (100 * bytes) / 100 == bytes && (100 * bytes) % 100 == 0;
  }

  /** From 1024^4 bytes on, the unit index runs past the table. */
  lemma HugeSizesHaveNoUnit(bytes: nat)
    requires bytes >= Pow1024(4)
    ensures UnitIndex(bytes) >= 4 && UnitName(UnitIndex(bytes)) == "undefined"
  {
    var i := UnitIndex(bytes);
    if i < 4 {
      Pow1024Monotone(i + 1, 4);
    }
  }

  /**
   * `formatFileSize` of every positive size: a size from 1024^k up to, but
   * not including, 1024^(k+1) bytes prints as its amount in the k-th unit,
   * rounded to hundredths, followed by that unit's name.
   */
  lemma FileSizeTextInUnit(bytes: nat, k: nat)
    requires Pow1024(k) <= bytes < Pow1024(k + 1)
    ensures var h := RoundedHundredths(bytes, Pow1024(k));
      h >= 0 && FileSizeText(bytes) == HundredthsText(h) + " " + UnitName(k)
  {
    UnitIndexUnique(bytes, k);
  }

  /** A whole number of units prints without decimals. */
  lemma WholeHundredths(n: nat)
    ensures HundredthsText(100 * n) == NatText(n)
  {
    assert (100 * n) / 100 == n && (100 * n) % 100 == 0;
  }

  lemma NatText1024()
    ensures NatText(1024) == "1024"
  {
    assert NatText(1) == "1";
    assert NatText(10) == NatText(1) + "0";
    assert NatText(102) == NatText(10) + "2";
  }

  lemma RoundsUpToFullKilobytes()
    ensures RoundedHundredths(1048575, 1024) == 102400
  {
    var x := 1048575 as real * 100.0 / 1024 as real + 0.5;
    assert x == 102400.40234375;
  }

  /** Rounding can reach the next unit's size without switching unit: one byte short of 1 MB prints as '1024 KB'. */
  lemma JustUnderOneMegabyte()
    ensures FileSizeText(1048575) == "1024 KB"
  {
    assert Pow1024(1) == 1024 && Pow1024(2) == 1048576;
    UnitIndexUnique(1048575, 1);
    RoundsUpToFullKilobytes();
    NatText1024();
    WholeHundredths(1024);
    FileSizeTextInUnit(1048575, 1);
  }

  // ---------------------------------------------------------------------------
  // The duration text: `{song.duration && song.duration > 0 && `${...} • `}`
  // ---------------------------------------------------------------------------

  const Bullet := " • "

  /**
   * What the expression renders as written: nothing for an absent or
   * negative duration, the clock text and a bullet for a positive one, and
   * the number 0 itself for a zero duration (React prints a falsy number).
   */
  function DurationPrefixAsWritten(duration: Option<real>): string {
    match duration
    case None => ""
    case Some(d) => if d == 0.0 then "0" else if d > 0.0 then ClockText(d) + Bullet else ""
  }

  /** The intended prefix: the clock text and a bullet exactly when the duration is known and positive. */
  function DurationPrefix(duration: Option<real>): (r: string)
    ensures r != "" <==> duration.Some? && duration.value > 0.0
    ensures r != "" ==> r == ClockText(duration.value) + Bullet
  {
    if duration.Some? && duration.value > 0.0 then ClockText(duration.value) + Bullet else ""
  }

  /** The two agree except on a zero duration, which the expression as written prints as '0'. */
  lemma DurationPrefixDiffersOnlyAtZero(duration: Option<real>)
    ensures duration != Some(0.0) ==> DurationPrefixAsWritten(duration) == DurationPrefix(duration)
    ensures DurationPrefixAsWritten(Some(0.0)) == "0" && DurationPrefix(Some(0.0)) == ""
  {
  }

  /** The secondary line of an item: the duration prefix, then the size. */
  function MetaText(song: Song): string {
    DurationPrefix(song.duration) + FileSizeText(song.fileSize)
  }

  /** As written, a song saved with duration 0 (every uploaded song) shows a stray '0' glued to its size. */
  lemma UploadedSongShowsStrayZero(song: Song)
    requires song.duration == Some(0.0)
    ensures DurationPrefixAsWritten(song.duration) + FileSizeText(song.fileSize) == "0" + FileSizeText(song.fileSize)
    ensures MetaText(song) == FileSizeText(song.fileSize)
  {
  }

  // ---------------------------------------------------------------------------
  // Rendering
  // ---------------------------------------------------------------------------

  datatype Item = Item(id: string, title: string, artist: string, meta: string, active: bool)

  /** An empty library shows only the placeholder; otherwise one item per song. */
  datatype View = Placeholder | Listing(items: seq<Item>)

  function RenderItem(song: Song, current: Option<Song>): Item {
    Item(song.id, song.title, DisplayArtist(song.artist), MetaText(song),
         current.Some? && current.value.id == song.id)
  }

  function Render(songs: seq<Song>, current: Option<Song>): (v: View)
    ensures v.Placeholder? <==> |songs| == 0
    ensures v.Listing? ==> |v.items| == |songs|
    ensures v.Listing? ==> forall k :: 0 <= k < |songs| ==>
              && v.items[k].id == songs[k].id && v.items[k].title == songs[k].title
              && v.items[k].artist == DisplayArtist(songs[k].artist)
              && v.items[k].meta == MetaText(songs[k])
              && (v.items[k].active <==> current.Some? && current.value.id == songs[k].id)
  {
    if |songs| == 0 then Placeholder
    else Listing(seq(|songs|, k requires 0 <= k < |songs| => RenderItem(songs[k], current)))
  }

  predicate DistinctIds(songs: seq<Song>) {
    forall j, k :: 0 <= j < k < |songs| ==> songs[j].id != songs[k].id
  }

  /** With distinct ids, at most one item is active, and it is the current song's. */
  lemma AtMostOneActive(songs: seq<Song>, current: Option<Song>, j: nat, k: nat)
    requires DistinctIds(songs)
    requires Render(songs, current).Listing?
    requires j < |songs| && k < |songs|
    requires Render(songs, current).items[j].active && Render(songs, current).items[k].active
    ensures j == k && songs[j].id == current.value.id
  {
  }
}
