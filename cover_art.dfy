/**
 * Album cover helpers of the main process (cover-art.ts): the search for
 * downloadable art that trims decorations off the album title between
 * attempts, the skip set of albums not to look for again, the choice of
 * file suffix for a saved picture, the album-id clean-up of a picture
 * request and the shape test of a cover sent by a renderer.
 */
module CoverArt {
  import opened Wrappers
  import opened Strings
  import opened Paths
  import opened JsValues
  import opened MusicTypes
  import opened MusicDatabase

  // ---------------------------------------------------------------------
  // Trimming an album title

  /** The bracket pairs tried, in order. */
  const Pairs: seq<(char, char)> := [('(', ')'), ('[', ']'), ('{', '}')]

  /**
   * The `for` loop over the bracket pairs: a title ending in the closer with
   * the opener after its first character, or else just holding the opener
   * after its first character, is cut before the last opener and trimmed;
   * the first pair that applies wins.
   */
  function TrimWith(s: string, pairs: seq<(char, char)>): string
    decreases |pairs|
  {
    if |pairs| == 0 then s
    else
      var open := pairs[0].0;
      if EndsWith(s, [pairs[0].1]) && IndexOf(s, open) > 0 then Trim(s[..LastIndexOf(s, open)])
      else if LastIndexOf(s, open) > 0 then Trim(s[..LastIndexOf(s, open)])
      else TrimWith(s, pairs[1..])
  }

  /** One trimming step of `LookForAlbum`. */
  function TrimStep(s: string): string {
    TrimWith(s, Pairs)
  }

  /** Where a step cuts: the last occurrence of the first opener that occurs after index 0; 0 for none. */
  function CutAt(s: string, pairs: seq<(char, char)>): (i: nat)
    ensures i < |s| || i == 0
    ensures i > 0 ==> exists k :: 0 <= k < |pairs| && s[i] == pairs[k].0
    ensures i == 0 ==> forall k :: 0 <= k < |pairs| ==> LastIndexOf(s, pairs[k].0) <= 0
    decreases |pairs|
  {
    if |pairs| == 0 then 0
    else if LastIndexOf(s, pairs[0].0) > 0 then LastIndexOf(s, pairs[0].0)
    else
      var i := CutAt(s, pairs[1..]);
      assert forall k :: 0 < k < |pairs| ==> pairs[1..][k - 1] == pairs[k];
      i
  }

  /** Both branches of the loop body make the same cut. */
  lemma {:induction false} TrimWithCuts(s: string, pairs: seq<(char, char)>)
    ensures TrimWith(s, pairs) == if CutAt(s, pairs) > 0 then Trim(s[..CutAt(s, pairs)]) else s
    decreases |pairs|
  {
    if |pairs| > 0 {
      var open := pairs[0].0;
      if IndexOf(s, open) > 0 {
        FirstBeforeLast(s, open);
      }
      if LastIndexOf(s, open) <= 0 {
        TrimWithCuts(s, pairs[1..]);
      }
    }
  }

  /** A character's first occurrence is not after its last one. */
  lemma FirstBeforeLast(s: string, c: char)
    requires c in s
    ensures IndexOf(s, c) <= LastIndexOf(s, c)
  {
    var i := IndexOf(s, c);
    assert s[i] == c;
  }

  /** A step either leaves the title alone, exactly when no opener follows its first character, or shortens it. */
  lemma TrimStepShortens(s: string)
    ensures TrimStep(s) == s <==> forall k :: 0 <= k < |Pairs| ==> LastIndexOf(s, Pairs[k].0) <= 0
    ensures TrimStep(s) != s ==> |TrimStep(s)| < |s|
  {
    TrimWithCuts(s, Pairs);
    var i := CutAt(s, Pairs);
    if i > 0 {
      assert |Trim(s[..i])| <= i;
      var k :| 0 <= k < |Pairs| && s[i] == Pairs[k].0;
      assert LastIndexOf(s, Pairs[k].0) >= i;
    }
  }

  /** The titles `LookForAlbum` tries: the trimmed title, then each step's result until a step changes nothing. */
  function Attempts(s: string): (r: seq<string>)
    ensures |r| >= 1 && r[0] == s
    decreases |s|
  {
    TrimStepShortens(s);
    var t := TrimStep(s);
    if t == s then [s] else [s] + Attempts(t)
  }

  /**
   * Each title tried is the step applied to the one before and strictly
   * shorter, the last is one no step changes, and there are at most
   * |s| + 1 attempts.
   */
  lemma {:induction false} AttemptsSpec(s: string)
    ensures var r := Attempts(s);
      |r| <= |s| + 1 &&
      (forall i :: 0 < i < |r| ==> r[i] == TrimStep(r[i - 1]) && |r[i]| < |r[i - 1]|) &&
      TrimStep(r[|r| - 1]) == r[|r| - 1]
    decreases |s|
  {
    TrimStepShortens(s);
    var t := TrimStep(s);
    if t != s {
      AttemptsSpec(t);
      var rest := Attempts(t);
      var r := [s] + rest;
      assert r == Attempts(s);
      forall i | 0 < i < |r| ensures r[i] == TrimStep(r[i - 1]) && |r[i]| < |r[i - 1]| {
        assert r[i] == rest[i - 1];
        if i > 1 {
          assert r[i - 1] == rest[i - 2];
        }
      }
    }
  }

  /** The last title tried. */
  function FinalTitle(s: string): string {
    var r := Attempts(s);
    r[|r| - 1]
  }

  // ---------------------------------------------------------------------
  // Asking the art service

  /**
   * The `album-art` service, `albumArt(artist, {album})`: a URL or a
   * message, or a thrown error.
   */
  type ArtService = (string, string) -> Result<string>

  const NoResults: string := "Error: No results found"

  /** `getArt(album, artist)`: the service's answer unless it says there is no result. */
  function GetArt(albumArt: ArtService, album: string, artist: string): (r: Result<Option<string>>)
    ensures albumArt(artist, album).Err? <==> r.Err?
    ensures r == Ok(None) <==> albumArt(artist, album).Ok? && StartsWith(albumArt(artist, album).value, NoResults)
  {
    match albumArt(artist, album)
    case Err(m) => Err(m)
    case Ok(a) => if StartsWith(a, NoResults) then Ok(None) else Ok(Some(a))
  }

  /** An attempt succeeds with a non-empty answer; an error is caught and counts as a miss. */
  function Hit(attempt: Result<Option<string>>): Option<string> {
    if attempt.Ok? && attempt.value.Some? && attempt.value.value != "" then Some(attempt.value.value) else None
  }

  /** One attempt as the source makes it: `getArt(artist, title)`, the artist in the album's place. */
  function TryTitleAsWritten(albumArt: ArtService, artist: string, title: string): Option<string> {
    Hit(GetArt(albumArt, artist, title))
  }

  /** One attempt asking the service for this artist's album with this title. */
  function TryTitle(albumArt: ArtService, artist: string, title: string): (r: Option<string>)
    ensures r.Some? <==> albumArt(artist, title).Ok? && albumArt(artist, title).value != "" &&
                         !StartsWith(albumArt(artist, title).value, NoResults)
    ensures r.Some? ==> r.value == albumArt(artist, title).value
  {
    Hit(GetArt(albumArt, title, artist))
  }

  /** A service that knows one album of one artist. */
  function OneAlbumService(artist: string, album: string, url: string): ArtService {
    (ar: string, al: string) => if ar == artist && al == album then Ok(url) else Ok(NoResults)
  }

  /** The swapped call misses an album the service knows, which the intended call finds. */
  lemma ArtQueryIsSwapped()
    ensures TryTitleAsWritten(OneAlbumService("Queen", "Jazz", "u"), "Queen", "Jazz") == None
    ensures TryTitle(OneAlbumService("Queen", "Jazz", "u"), "Queen", "Jazz") == Some("u")
  {
    assert !StartsWith("u", NoResults);
  }

  /** The first hit among the titles, in order. */
  function FirstHit(find: string -> Option<string>, titles: seq<string>): (r: Option<string>)
    ensures r.Some? <==> exists i :: 0 <= i < |titles| && find(titles[i]).Some?
    ensures r.Some? ==> exists i :: 0 <= i < |titles| && find(titles[i]) == r &&
                                    forall j :: 0 <= j < i ==> find(titles[j]).None?
  {
    if |titles| == 0 then None
    else if find(titles[0]).Some? then find(titles[0])
    else
      var r := FirstHit(find, titles[1..]);
      assert forall i :: 0 < i < |titles| ==> titles[1..][i - 1] == titles[i];
      r
  }

  /**
   * The `do`/`while` loop of `LookForAlbum`: tries each title in turn,
   * stopping at the first hit or when a trimming step changes nothing.
   */
  method SearchTitles(find: string -> Option<string>, start: string) returns (art: Option<string>, last: string)
    ensures art == FirstHit(find, Attempts(start))
    ensures art.None? ==> last == FinalTitle(start)
  {
    var albTrim := start;
    while true
      invariant FirstHit(find, Attempts(start)) == FirstHit(find, Attempts(albTrim))
      invariant FinalTitle(start) == FinalTitle(albTrim)
      decreases |albTrim|
    {
      var attempt := find(albTrim);
      if attempt.Some? {
        return attempt, albTrim;
      }
      var lastAlbum := albTrim;
      TrimStepShortens(albTrim);
      albTrim := TrimStep(albTrim);
      if lastAlbum == albTrim {
        return None, albTrim;
      }
      assert Attempts(lastAlbum) == [lastAlbum] + Attempts(albTrim);
    }
  }

  /** The titles already given up on, when the stored value is a set of strings. */
  function SkipBase(skip: JsValue): set<string> {
    if IsSetOfString(skip) then StringSet(skip) else {}
  }

  /** Whether a skip set makes `LookForAlbum` give up on an album at once. */
  predicate SkipsAlbum(skip: set<string>, album: string) {
    Trim(album) in skip
  }

  /** The same, for the stored value. */
  predicate Skipped(skip: JsValue, album: string) {
    IsSetOfString(skip) && SkipsAlbum(StringSet(skip), album)
  }

  /**
   * `LookForAlbum` as the source has it. `skip` is the parsed
   * `noMoreLooking` item and `saved` the set written back, if any.
   */
  method LookForAlbumAsWritten(albumArt: ArtService, artist: string, album: string, skip: JsValue)
    returns (art: Option<string>, saved: Option<set<string>>)
    ensures Skipped(skip, album) ==> art.None? && saved.None?
    ensures !Skipped(skip, album) ==>
      art == FirstHit(t => TryTitleAsWritten(albumArt, artist, t), Attempts(Trim(album))) &&
      (art.Some? ==> saved.None?) &&
      (art.None? ==> saved == Some(SkipBase(skip) + {FinalTitle(Trim(album))}))
  {
    var albTrim := Trim(album);
    if IsSetOfString(skip) && albTrim in StringSet(skip) {
      return None, None;
    }
    var last;
    art, last := SearchTitles(t => TryTitleAsWritten(albumArt, artist, t), albTrim);
    if art.Some? {
      return art, None;
    }
    saved := Some(SkipBase(skip) + {last});
  }

  /**
   * `LookForAlbum` with the service asked for the artist's album, and the
   * failure recorded under the title the skip test looks up.
   */
  method LookForAlbum(albumArt: ArtService, artist: string, album: string, skip: JsValue)
    returns (art: Option<string>, saved: Option<set<string>>)
    ensures Skipped(skip, album) ==> art.None? && saved.None?
    ensures !Skipped(skip, album) ==>
      art == FirstHit(t => TryTitle(albumArt, artist, t), Attempts(Trim(album))) &&
      (art.Some? ==> saved.None?) &&
      (art.None? ==> saved == Some(SkipBase(skip) + {Trim(album)}) && SkipsAlbum(saved.value, album))
  {
    var albTrim := Trim(album);
    if IsSetOfString(skip) && albTrim in StringSet(skip) {
      return None, None;
    }
    var last;
    art, last := SearchTitles(t => TryTitle(albumArt, artist, t), albTrim);
    if art.Some? {
      return art, None;
    }
    saved := Some(SkipBase(skip) + {albTrim});
  }

  /** After a failed search the source records the most trimmed title, but tests the untrimmed one. */
  lemma SkipRecordMissesAlbum()
    ensures Trim("A (B)") == "A (B)"
    ensures Attempts("A (B)") == ["A (B)", "A"]
    ensures !SkipsAlbum({FinalTitle(Trim("A (B)"))}, "A (B)")
  {
    BracketExample();
    NoBracketExample();
    TwoAttempts("A (B)", "A");
  }

  /** A title one step cuts to a title no step changes is tried in those two forms. */
  lemma TwoAttempts(s: string, t: string)
    requires TrimStep(s) == t && t != s && TrimStep(t) == t
    ensures Attempts(s) == [s, t]
  {
    assert Attempts(t) == [t];
  }

  /** No step changes "A". */
  lemma NoBracketExample()
    ensures TrimStep("A") == "A"
  {
    TrimStepShortens("A");
  }

  /** "A (B)" is its own trim, and one step cuts it to "A". */
  lemma BracketExample()
    ensures Trim("A (B)") == "A (B)"
    ensures TrimStep("A (B)") == "A"
  {
    var s := "A (B)";
    TrimStartUnchanged(s);
    TrimEndUnchanged(s);
    LastIndexOfAt(s, '(', 2);
    TrimWithCuts(s, Pairs);
    assert CutAt(s, Pairs) == 2;
    assert s[..2] == "A ";
    TrimEndSpace();
  }

  lemma TrimStartUnchanged(s: string)
    requires |s| > 0 && !IsWhiteSpace(s[0])
    ensures TrimStart(s) == s
  {
  }

  lemma TrimEndUnchanged(s: string)
    requires |s| > 0 && !IsWhiteSpace(s[|s| - 1])
    ensures TrimEnd(s) == s
  {
  }

  lemma TrimEndSpace()
    ensures Trim("A ") == "A"
  {
    var s := "A ";
    TrimStartUnchanged(s);
    assert s[..1] == "A";
    assert TrimEnd(s) == TrimEnd(s[..1]);
    TrimEndUnchanged(s[..1]);
  }

  lemma LastIndexOfAt(s: string, c: char, j: nat)
    requires j < |s| && s[j] == c
    requires forall k :: j < k < |s| ==> s[k] != c
    ensures LastIndexOf(s, c) == j
  {
  }

  // ---------------------------------------------------------------------
  // Saving a picture

  /** The first four bytes of the PNG signature (section 3.1 of RFC 2083) as a big-endian number. */
  const PngMagic: int := 0x89504E47

  /** A byte as a number. */
  function ByteValue(b: bv8): (n: nat)
    ensures n < 0x100
  {
    b as nat
  }

  function Unsigned32(data: seq<bv8>): (v: nat)
    requires |data| >= 4
    ensures v < 0x1_0000_0000
  {
    ByteValue(data[0]) * 0x100_0000 + ByteValue(data[1]) * 0x1_0000 + ByteValue(data[2]) * 0x100 + ByteValue(data[3])
  }

  /** `buf.readInt32BE(0)`: the first four bytes as a signed number; a RangeError for a shorter buffer. */
  function ReadInt32BE(data: seq<bv8>): (r: Result<int>)
    ensures r.Err? <==> |data| < 4
    ensures r.Ok? ==> -0x8000_0000 <= r.value < 0x8000_0000
  {
    if |data| < 4 then Err("RangeError")
    else
      var u := Unsigned32(data);
      Ok(if u >= 0x8000_0000 then u - 0x1_0000_0000 else u)
  }

  /** `buf.readUInt32BE(0)`. */
  function ReadUInt32BE(data: seq<bv8>): (r: Result<int>)
    ensures r.Err? <==> |data| < 4
  {
    if |data| < 4 then Err("RangeError") else Ok(Unsigned32(data))
  }

  /** The suffix as the source picks it: a signed read compared with the unsigned signature. */
  function PngSuffixAsWritten(data: seq<bv8>): (r: Result<string>)
    ensures r.Err? <==> |data| < 4
  {
    match ReadInt32BE(data)
    case Err(m) => Err(m)
    case Ok(v) => Ok(if v == PngMagic then ".png" else ".jpg")
  }

  /** The signed read never equals the signature, so a PNG is saved as ".jpg". */
  lemma PngNeverDetected(data: seq<bv8>)
    ensures PngSuffixAsWritten(data) != Ok(".png")
    ensures |data| >= 4 && data[..4] == [0x89, 0x50, 0x4E, 0x47] ==> PngSuffixAsWritten(data) == Ok(".jpg")
  {
  }

  /** ".png" exactly for data starting with the PNG signature, ".jpg" for other data of four bytes or more. */
  function PngSuffix(data: seq<bv8>): (r: Result<string>)
    ensures r.Err? <==> |data| < 4
    ensures r == Ok(".png") <==> |data| >= 4 && data[..4] == [0x89, 0x50, 0x4E, 0x47]
    ensures r.Ok? ==> r.value == ".png" || r.value == ".jpg"
  {
    match ReadUInt32BE(data)
    case Err(m) => Err(m)
    case Ok(v) =>
      SignatureBytes(data);
      Ok(if v == PngMagic then ".png" else ".jpg")
  }

  lemma SignatureBytes(data: seq<bv8>)
    requires |data| >= 4
    ensures Unsigned32(data) == PngMagic <==> data[..4] == [0x89, 0x50, 0x4E, 0x47]
  {
    var b0, b1, b2, b3 := data[0] as nat, data[1] as nat, data[2] as nat, data[3] as nat;
    if Unsigned32(data) == PngMagic {
      assert b0 * 0x100_0000 + b1 * 0x1_0000 + b2 * 0x100 + b3 == PngMagic;
      assert b0 == 0x89 && b1 == 0x50 && b2 == 0x4E && b3 == 0x47;
      assert data[..4] == [data[0], data[1], data[2], data[3]];
    }
  }

  /** `albumCoverName()`: the stored name, or ".CoverArt" when it is missing or empty. */
  function CoverName(stored: Option<string>): (name: string)
    ensures stored.Some? && stored.value != "" ==> name == stored.value
    ensures stored.None? || stored == Some("") ==> name == ".CoverArt"
  {
    if stored.Some? && stored.value != "" then stored.value else ".CoverArt"
  }

  /**
   * Where `SavePicForAlbum` writes the picture beside the music: next to
   * the album's first song, named `coverName` plus the suffix the data's
   * first four bytes choose. `None` when the album has no first song in the
   * library or saving beside the music is off; the suffix's error when the
   * data is too short to read.
   */
  function CoverFileFor(songs: map<SongKey, Song>, album: Album, suffix: Result<string>, saveWithMusic: bool,
                        coverName: string): (r: Result<Option<string>>)
    ensures r.Err? <==> |album.songs| > 0 && album.songs[0] in songs && saveWithMusic && suffix.Err?
    ensures r.Ok? && r.value.Some? ==> suffix.Ok? && EndsWith(r.value.value, coverName + suffix.value)
  {
    if |album.songs| == 0 || album.songs[0] !in songs || !saveWithMusic then Ok(None)
    else
      match suffix
      case Err(m) => Err(m)
      case Ok(s) =>
        Ok(Some(JoinPath(Dirname(songs[album.songs[0]].path), coverName + s)))
  }

  /** The cover file as the source names it, with the signed read of the signature. */
  function CoverFile(songs: map<SongKey, Song>, album: Album, data: seq<bv8>, saveWithMusic: bool, coverName: string)
    : (r: Result<Option<string>>)
    ensures r.Err? <==> |album.songs| > 0 && album.songs[0] in songs && saveWithMusic && |data| < 4
  {
    CoverFileFor(songs, album, PngSuffixAsWritten(data), saveWithMusic, coverName)
  }

  /** As written, every cover file beside the music is a ".jpg", PNG data included. */
  lemma CoverFileIsJpg(songs: map<SongKey, Song>, album: Album, data: seq<bv8>, saveWithMusic: bool, coverName: string)
    requires '/' !in coverName
    requires CoverFile(songs, album, data, saveWithMusic, coverName).Ok?
    requires CoverFile(songs, album, data, saveWithMusic, coverName).value.Some?
    ensures var p := CoverFile(songs, album, data, saveWithMusic, coverName).value.value;
      Basename(p) == coverName + ".jpg" && !EndsWith(p, ".png")
  {
    PngNeverDetected(data);
    var p := CoverFile(songs, album, data, saveWithMusic, coverName).value.value;
    NoSlashInFileName(coverName, ".jpg");
    JoinKeepsName(Dirname(songs[album.songs[0]].path), coverName + ".jpg");
    SuffixOfSuffix(p, coverName, ".jpg");
  }

  /** The cover file with the signature read unsigned, as evidently intended. */
  function CoverFileCorrected(songs: map<SongKey, Song>, album: Album, data: seq<bv8>, saveWithMusic: bool,
                              coverName: string): (r: Result<Option<string>>)
    ensures r.Err? <==> |album.songs| > 0 && album.songs[0] in songs && saveWithMusic && |data| < 4
  {
    CoverFileFor(songs, album, PngSuffix(data), saveWithMusic, coverName)
  }

  /** Corrected, the file is named after the cover name, with ".png" exactly for PNG data. */
  lemma CoverFileName(songs: map<SongKey, Song>, album: Album, data: seq<bv8>, saveWithMusic: bool, coverName: string)
    requires '/' !in coverName
    requires CoverFileCorrected(songs, album, data, saveWithMusic, coverName).Ok?
    requires CoverFileCorrected(songs, album, data, saveWithMusic, coverName).value.Some?
    ensures var p := CoverFileCorrected(songs, album, data, saveWithMusic, coverName).value.value;
      Basename(p) == coverName + PngSuffix(data).value &&
      (EndsWith(p, ".png") <==> data[..4] == [0x89, 0x50, 0x4E, 0x47])
  {
    var suffix := PngSuffix(data).value;
    var dir := Dirname(songs[album.songs[0]].path);
    assert suffix == ".png" || suffix == ".jpg";
    NoSlashInFileName(coverName, suffix);
    JoinKeepsName(dir, coverName + suffix);
    var p := JoinPath(dir, coverName + suffix);
    SuffixOfSuffix(p, coverName, suffix);
  }

  lemma NoSlashInFileName(name: string, suffix: string)
    requires '/' !in name
    requires suffix == ".png" || suffix == ".jpg"
    ensures '/' !in name + suffix
  {
    assert forall i :: 0 <= i < |suffix| ==> suffix[i] != '/';
  }

  /** A string ending in `name + suffix` ends in ".png" exactly when the suffix is ".png", for suffixes ".png" and ".jpg". */
  lemma SuffixOfSuffix(p: string, name: string, suffix: string)
    requires suffix == ".png" || suffix == ".jpg"
    requires EndsWith(p, name + suffix)
    ensures EndsWith(p, ".png") <==> suffix == ".png"
  {
    var n := |name + suffix|;
    assert p[|p| - 4..] == (name + suffix)[n - 4..];
    assert (name + suffix)[n - 4..] == suffix;
  }

  /** Where a picture went: beside the music, or into the image cache. */
  datatype Destination = Beside(path: string) | Cached

  /**
   * The outcome of saving to the cover file `f` and the album pictures
   * after it: a thrown error or the cache leave the pictures alone; a
   * written file becomes the album's picture.
   */
  function Saved(f: Result<Option<string>>, written: bool, key: AlbumKey, pictures: map<AlbumKey, string>)
    : (r: (Result<Destination>, map<AlbumKey, string>))
    ensures f.Err? ==> r.0.Err? && r.1 == pictures
    ensures f.Ok? && f.value.Some? && written ==> r.0 == Ok(Beside(f.value.value)) && r.1 == pictures[key := f.value.value]
    ensures f.Ok? && (f.value.None? || !written) ==> r.0 == Ok(Cached) && r.1 == pictures
  {
    if f.Err? then (Err(f.message), pictures)
    else if f.value.Some? && written then (Ok(Beside(f.value.value)), pictures[key := f.value.value])
    else (Ok(Cached), pictures)
  }

  /**
   * `SavePicForAlbum`: `saveWithMusic` is `overridePref` or the stored
   * preference, and `written` whether writing (and, for a name starting
   * with '.', hiding) the file succeeded. A written file becomes the album's
   * picture; otherwise the picture goes to the cache.
   */
  method SavePicForAlbum(db: MusicDB, album: Album, data: seq<bv8>, saveWithMusic: bool, coverName: string, written: bool)
    returns (r: Result<Destination>)
    modifies db`pictures
    ensures (r, db.pictures) == Saved(CoverFile(db.songs, album, data, saveWithMusic, coverName), written, album.key, old(db.pictures))
  {
    var f := CoverFile(db.songs, album, data, saveWithMusic, coverName);
    var out := Saved(f, written, album.key, db.pictures);
    db.pictures := out.1;
    r := out.0;
  }

  // ---------------------------------------------------------------------
  // Requests from the renderer

  /** `picBufProcessor`: an album id holding '#' is cut before its last '#'. */
  function StripAlbumId(id: string): (r: string)
    ensures '#' !in id ==> r == id
    ensures '#' in id ==> exists rest :: id == r + "#" + rest && '#' !in rest
  {
    var i := LastIndexOf(id, '#');
    if i == -1 then id
    else
      var rest := id[i + 1..];
      assert id == id[..i] + "#" + rest;
      assert forall k :: 0 <= k < |rest| ==> rest[k] == id[i + 1 + k];
      id[..i]
  }

  /** A key with a '#'-free tag appended gets the key back. */
  lemma StripAlbumIdTag(key: AlbumKey, tag: string)
    requires '#' !in tag
    ensures StripAlbumId(key + "#" + tag) == key
  {
    var id := key + "#" + tag;
    LastIndexOfAt(id, '#', |key|);
    assert id[..|key|] == key;
  }

  /** A cover sent by a renderer, for a song's album or for an album. */
  datatype AlbumCoverData =
    | ForSong(songKey: SongKey, nativeImage: seq<bv8>)
    | ForAlbum(albumKey: AlbumKey, nativeImage: seq<bv8>)

  /** `isAlbumCoverData`: a `Uint8Array` `nativeImage` and a string `songKey` or `albumKey`. */
  predicate IsAlbumCoverData(arg: JsValue) {
    Has(arg, "nativeImage") && arg.props["nativeImage"].JBytes? && (HasStr(arg, "songKey") || HasStr(arg, "albumKey"))
  }

  /**
   * The cover a value that passes `isAlbumCoverData` carries. When it holds
   * both keys, the album key wins, as `SaveNativeImageForAlbum` reads it first.
   */
  function AsAlbumCoverData(arg: JsValue): (r: Option<AlbumCoverData>)
    ensures r.Some? <==> IsAlbumCoverData(arg)
    ensures r.Some? ==> JBytes(r.value.nativeImage) == arg.props["nativeImage"]
    ensures r.Some? && r.value.ForAlbum? ==> HasStr(arg, "albumKey") && arg.props["albumKey"] == JStr(r.value.albumKey)
    ensures r.Some? && r.value.ForSong? ==>
      !HasStr(arg, "albumKey") && HasStr(arg, "songKey") && arg.props["songKey"] == JStr(r.value.songKey)
  {
    if !IsAlbumCoverData(arg) then None
    else if HasStr(arg, "albumKey") then Some(ForAlbum(arg.props["albumKey"].s, arg.props["nativeImage"].bytes))
    else Some(ForSong(arg.props["songKey"].s, arg.props["nativeImage"].bytes))
  }

  function CoverToJs(c: AlbumCoverData): JsValue {
    match c
    case ForSong(k, img) => JObj(map["songKey" := JStr(k), "nativeImage" := JBytes(img)])
    case ForAlbum(k, img) => JObj(map["albumKey" := JStr(k), "nativeImage" := JBytes(img)])
  }

  /** Every cover passes the test and reads back as itself. */
  lemma AlbumCoverDataRoundTrip(c: AlbumCoverData)
    ensures IsAlbumCoverData(CoverToJs(c))
    ensures AsAlbumCoverData(CoverToJs(c)) == Some(c)
  {
  }
}
