/**
 * The records of the music library: songs, albums and artists, all keyed by
 * generated string keys, and the metadata record a scanned file yields.
 */
module MusicTypes {
  import opened Wrappers

  type SongKey = string
  type AlbumKey = string
  type ArtistKey = string

  /** An album's various-artists tag: '' (a normal album), 'ost' or 'va'. */
  datatype VAType = NotVA | Ost | Va

  /** A song as the scanner stores it; `track` packs track and disk as track + disk * 100. */
  datatype Song = Song(
    path: string,
    artistIds: seq<ArtistKey>,
    secondaryIds: seq<ArtistKey>,
    albumId: AlbumKey,
    track: int,
    title: string,
    key: SongKey,
    variations: Option<seq<string>>)

  datatype Album = Album(
    year: int,
    primaryArtists: seq<ArtistKey>,
    title: string,
    vatype: VAType,
    songs: seq<SongKey>,
    key: AlbumKey)

  datatype Artist = Artist(
    name: string,
    songs: seq<SongKey>,
    albums: seq<AlbumKey>,
    key: ArtistKey)

  /** The `artist` field of the metadata: one name or a list of names. */
  datatype ArtistField = OneArtist(name: string) | ArtistList(names: seq<string>)

  /** Full metadata of one audio file; absent optional fields are `None`. */
  datatype FullMetadata = FullMetadata(
    originalPath: string,
    artist: ArtistField,
    album: string,
    year: Option<int>,
    track: int,
    title: string,
    vaType: VAType,
    moreArtists: Option<seq<string>>,
    disk: Option<int>,
    variations: Option<seq<string>>)

  /** The list of primary artist names of a metadata record. */
  function ArtistNames(a: ArtistField): (names: seq<string>)
    ensures a.OneArtist? ==> names == [a.name]
    ensures a.ArtistList? ==> names == a.names
  {
    match a
    case OneArtist(n) => [n]
    case ArtistList(ns) => ns
  }

  /** JavaScript `x || 0` for an optional number: absent and 0 both give 0. */
  function OrZero(x: Option<int>): (r: int)
    ensures x.Some? ==> r == x.value
    ensures x.None? ==> r == 0
  {
    x.GetOr(0)
  }

  /** The packed track number: `md.track + (md.disk || 0) * 100`. */
  function PackTrack(track: int, disk: Option<int>): (r: int)
    ensures disk.None? ==> r == track
    ensures disk.Some? ==> r - track == disk.value * 100
  {
    track + OrZero(disk) * 100
  }

  /** For track numbers in 0..99 and a non-negative disk, unpacking recovers both parts. */
  lemma PackTrackRoundTrip(track: int, disk: nat)
    requires 0 <= track < 100
    ensures PackTrack(track, Some(disk)) % 100 == track
    ensures PackTrack(track, Some(disk)) / 100 == disk
  {
    var p := PackTrack(track, Some(disk));
    assert p == disk * 100 + track;
  }
}
