/** The stored track record shared by the list, the upload form and the player. */
module Library {
  import opened Wrappers

  /**
   * A row of the songs table. `artist` and `duration` may be absent
   * (undefined or null); `duration` is in seconds.
   */
  datatype Song = Song(
    id: string,
    title: string,
    artist: Option<string>,
    duration: Option<real>,
    filePath: string,
    fileSize: nat,
    createdAt: string,
    updatedAt: string)

  const UnknownArtist := "Unknown Artist"

  /** `song.artist || 'Unknown Artist'`: an absent or empty artist falls back. */
  function DisplayArtist(artist: Option<string>): (r: string)
    ensures r == UnknownArtist <==> artist.None? || artist.value == "" || artist.value == UnknownArtist
    ensures r != UnknownArtist ==> artist == Some(r)
  {
    match artist
    case Some(a) => if a == "" then UnknownArtist else a
    case None => UnknownArtist
  }
}
