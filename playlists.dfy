/**
 * Playlists on disk (playlists.ts): a list of song keys is written as an
 * extended M3U text, the `#EXTM3U` header line (the tag section 4.3.1.1 of
 * RFC 8216 puts first) followed by one file path per line, and read back
 * through the path-to-key index saved by the last scan. A file without the
 * header is the legacy format: one song key per line.
 */
module Playlists {
  import opened Wrappers
  import opened Strings
  import opened JsValues
  import opened MusicTypes

  const Header: string := "#EXTM3U"

  /** The data a renderer sends to save a playlist. */
  datatype PlaylistSaveData = PlaylistSaveData(name: string, songs: seq<SongKey>)

  /** `isPlaylistSaveData`: a string `name` and an array of strings `songs`. */
  predicate IsPlaylistSaveData(data: JsValue) {
    HasStr(data, "name") && Has(data, "songs") && IsArrayOfString(data.props["songs"])
  }

  /** The playlist a value that passes `isPlaylistSaveData` carries; `None` for any other value. */
  function AsPlaylistSaveData(data: JsValue): (r: Option<PlaylistSaveData>)
    ensures r.Some? <==> IsPlaylistSaveData(data)
    ensures r.Some? ==> JStr(r.value.name) == data.props["name"] &&
                        FromStrings(r.value.songs) == data.props["songs"]
  {
    if IsPlaylistSaveData(data) then
      var songs := data.props["songs"];
      assert FromStrings(StringItems(songs)).items == songs.items;
      Some(PlaylistSaveData(data.props["name"].s, StringItems(songs)))
    else None
  }

  /** A playlist as the object the renderer sends. */
  function ToJs(p: PlaylistSaveData): JsValue {
    JObj(map["name" := JStr(p.name), "songs" := FromStrings(p.songs)])
  }

  /** Every playlist passes the test, and reading the object back gives the playlist. */
  lemma PlaylistSaveDataRoundTrip(p: PlaylistSaveData)
    ensures IsPlaylistSaveData(ToJs(p))
    ensures AsPlaylistSaveData(ToJs(p)) == Some(p)
  {
  }

  /** The paths of the keys that have a non-empty path, in the order of the keys. */
  function DiskPaths(keys: seq<SongKey>, keyToPath: map<SongKey, string>): (paths: seq<string>)
    ensures |paths| <= |keys|
    ensures forall p :: p in paths ==> p != ""
    decreases |keys|
  {
    if |keys| == 0 then []
    else
      var init := DiskPaths(keys[..|keys| - 1], keyToPath);
      var k := keys[|keys| - 1];
      if k in keyToPath && keyToPath[k] != "" then init + [keyToPath[k]] else init
  }

  /** The text `toDiskFormat` writes: the header, then the paths, one per line. */
  function Encode(keys: seq<SongKey>, keyToPath: map<SongKey, string>): string {
    Join([Header] + DiskPaths(keys, keyToPath), '\n')
  }

  /** The loop of `toDiskFormat`: a key with no path (or an empty one) is skipped. */
  method ToDiskFormat(keys: seq<SongKey>, keyToPath: map<SongKey, string>) returns (text: string)
    ensures text == Encode(keys, keyToPath)
  {
    var res := [Header];
    for i := 0 to |keys|
      invariant res == [Header] + DiskPaths(keys[..i], keyToPath)
    {
      assert keys[..i + 1][..i] == keys[..i];
      var k := keys[i];
      if k in keyToPath && keyToPath[k] != "" {
        res := res + [keyToPath[k]];
      }
    }
    assert keys[..|keys|] == keys;
    text := Join(res, '\n');
  }

  /** The lines that are song keys of the library, in order. */
  function KnownKeys(lines: seq<string>, songs: map<SongKey, Song>): (r: seq<SongKey>)
    ensures forall k :: k in r <==> k in lines && k in songs
    decreases |lines|
  {
    if |lines| == 0 then []
    else
      var init := KnownKeys(lines[..|lines| - 1], songs);
      var l := lines[|lines| - 1];
      assert forall x :: x in lines <==> x in lines[..|lines| - 1] || x == l;
      if l in songs then init + [l] else init
  }

  /** The lines looked up in the path-to-key index, keeping the keys that are songs of the library. */
  function KeysOfPaths(lines: seq<string>, pathToKey: map<string, SongKey>, songs: map<SongKey, Song>): (r: seq<SongKey>)
    ensures forall k :: k in r ==> k in songs
    ensures |r| <= |lines|
    decreases |lines|
  {
    if |lines| == 0 then []
    else
      var init := KeysOfPaths(lines[..|lines| - 1], pathToKey, songs);
      var l := lines[|lines| - 1];
      if l in pathToKey && pathToKey[l] in songs then init + [pathToKey[l]] else init
  }

  /** A text in the legacy format: fewer than two lines, or a first line other than the header. */
  predicate IsLegacy(lines: seq<string>) {
    |lines| < 2 || lines[0] != Header
  }

  /**
   * `fromDiskFormat` once the library is at hand: the legacy format keeps
   * the lines that are song keys; the M3U format looks up every line, the
   * header included, in the path-to-key index.
   */
  function Decode(flat: string, songs: map<SongKey, Song>, pathToKey: map<string, SongKey>): (r: seq<SongKey>)
    ensures forall k :: k in r ==> k in songs
  {
    var lines := Split(flat, '\n');
    if IsLegacy(lines) then KnownKeys(lines, songs) else KeysOfPaths(lines, pathToKey, songs)
  }

  /**
   * Writing a playlist and reading it back gives the same keys when every
   * key has a path the index maps back to it, no path spans two lines, and
   * the header is neither a path of the index nor a song key.
   */
  lemma {:induction false} EncodeDecodeRoundTrip(keys: seq<SongKey>, keyToPath: map<SongKey, string>,
                                                 pathToKey: map<string, SongKey>, songs: map<SongKey, Song>)
    requires forall k :: k in keys ==> k in songs && k in keyToPath && keyToPath[k] != ""
    requires forall k :: k in keys ==> keyToPath[k] in pathToKey && pathToKey[keyToPath[k]] == k
    requires forall k :: k in keys ==> '\n' !in keyToPath[k]
    requires Header !in pathToKey && Header !in songs
    ensures Decode(Encode(keys, keyToPath), songs, pathToKey) == keys
  {
    var paths := DiskPaths(keys, keyToPath);
    PathsOfKeys(keys, keyToPath, pathToKey, songs);
    EncodedLines(paths);
    DecodeHeaderLines(Encode(keys, keyToPath), paths, keys, pathToKey, songs);
  }

  /** A text whose lines are the header and paths that the index maps to song keys decodes to those keys. */
  lemma DecodeHeaderLines(flat: string, paths: seq<string>, keys: seq<SongKey>,
                          pathToKey: map<string, SongKey>, songs: map<SongKey, Song>)
    requires Split(flat, '\n') == [Header] + paths
    requires |paths| == |keys|
    requires forall i :: 0 <= i < |paths| ==> paths[i] in pathToKey && pathToKey[paths[i]] == keys[i]
    requires forall i :: 0 <= i < |keys| ==> keys[i] in songs
    requires Header !in pathToKey && Header !in songs
    ensures Decode(flat, songs, pathToKey) == keys
  {
    var lines := [Header] + paths;
    if |keys| == 0 {
      assert lines == [Header] && lines[..0] == [];
      assert KnownKeys(lines, songs) == [];
    } else {
      assert !IsLegacy(lines);
      LookupPaths(paths, keys, pathToKey, songs);
      HeaderLookup(paths, pathToKey, songs);
    }
  }

  /** The lines of the written text are the header and the paths, when no path spans two lines. */
  lemma EncodedLines(paths: seq<string>)
    requires forall i :: 0 <= i < |paths| ==> '\n' !in paths[i]
    ensures Split(Join([Header] + paths, '\n'), '\n') == [Header] + paths
  {
    var lines := [Header] + paths;
    forall i | 0 <= i < |lines| ensures '\n' !in lines[i] {
      if i > 0 {
        assert lines[i] == paths[i - 1];
      }
    }
    SplitJoin(lines, '\n');
  }

  /**
   * Under the conditions of the round trip, the paths are those of the keys,
   * one per key, each on one line and mapped back to its key.
   */
  lemma {:induction false} PathsOfKeys(keys: seq<SongKey>, keyToPath: map<SongKey, string>,
                                       pathToKey: map<string, SongKey>, songs: map<SongKey, Song>)
    requires forall k :: k in keys ==> k in songs && k in keyToPath && keyToPath[k] != ""
    requires forall k :: k in keys ==> keyToPath[k] in pathToKey && pathToKey[keyToPath[k]] == k
    requires forall k :: k in keys ==> '\n' !in keyToPath[k]
    ensures var paths := DiskPaths(keys, keyToPath);
      |paths| == |keys| &&
      (forall i :: 0 <= i < |keys| ==> keys[i] in songs && paths[i] == keyToPath[keys[i]] && '\n' !in paths[i]) &&
      (forall i :: 0 <= i < |keys| ==> paths[i] in pathToKey && pathToKey[paths[i]] == keys[i])
    decreases |keys|
  {
    if |keys| > 0 {
      var init := keys[..|keys| - 1];
      assert forall k :: k in init ==> k in keys;
      PathsOfKeys(init, keyToPath, pathToKey, songs);
      assert keys[|keys| - 1] in keys;
    }
  }

  /** Looking up paths that the index maps to the given song keys gives those keys back. */
  lemma {:induction false} LookupPaths(paths: seq<string>, keys: seq<SongKey>,
                                       pathToKey: map<string, SongKey>, songs: map<SongKey, Song>)
    requires |paths| == |keys|
    requires forall i :: 0 <= i < |paths| ==> paths[i] in pathToKey && pathToKey[paths[i]] == keys[i]
    requires forall i :: 0 <= i < |keys| ==> keys[i] in songs
    ensures KeysOfPaths(paths, pathToKey, songs) == keys
    decreases |paths|
  {
    if |paths| > 0 {
      var n := |paths| - 1;
      LookupPaths(paths[..n], keys[..n], pathToKey, songs);
      assert keys[..n] + [keys[n]] == keys;
    }
  }

  /** A header line the index does not know contributes nothing. */
  lemma {:induction false} HeaderLookup(paths: seq<string>, pathToKey: map<string, SongKey>, songs: map<SongKey, Song>)
    requires Header !in pathToKey
    ensures KeysOfPaths([Header] + paths, pathToKey, songs) == KeysOfPaths(paths, pathToKey, songs)
    decreases |paths|
  {
    if |paths| > 0 {
      var lines := [Header] + paths;
      assert lines[..|lines| - 1] == [Header] + paths[..|paths| - 1];
      HeaderLookup(paths[..|paths| - 1], pathToKey, songs);
    } else {
      assert ([Header] + paths)[..0] == [];
    }
  }

  /** The map a `Map` of strings describes: for a key written twice, the later value. */
  function MapOf(es: seq<(string, string)>): (m: map<string, string>)
    ensures forall i :: 0 <= i < |es| ==> es[i].0 in m
    ensures forall k :: k in m ==> exists i :: 0 <= i < |es| && es[i] == (k, m[k])
    decreases |es|
  {
    if |es| == 0 then map[]
    else
      var m := MapOf(es[..|es| - 1]);
      var e := es[|es| - 1];
      assert forall i :: 0 <= i < |es| - 1 ==> es[..|es| - 1][i] == es[i];
      m[e.0 := e.1]
  }

  /**
   * The `forEach` of `loadHash`: every entry (path, key) in order sets
   * `keyToPath[key] := path`, so a later path wins for a key listed twice.
   */
  function InverseOf(es: seq<(string, string)>): (m: map<string, string>)
    ensures forall i :: 0 <= i < |es| ==> es[i].1 in m
    ensures forall k :: k in m ==> exists i :: 0 <= i < |es| && es[i] == (m[k], k)
    decreases |es|
  {
    if |es| == 0 then map[]
    else
      var m := InverseOf(es[..|es| - 1]);
      var e := es[|es| - 1];
      assert forall i :: 0 <= i < |es| - 1 ==> es[..|es| - 1][i] == es[i];
      m[e.1 := e.0]
  }

  /** The entry a key maps to is the last entry that lists it. */
  lemma {:induction false} InverseOfLatest(es: seq<(string, string)>, i: nat)
    requires i < |es|
    requires forall j :: i < j < |es| ==> es[j].1 != es[i].1
    ensures InverseOf(es)[es[i].1] == es[i].0
    decreases |es|
  {
    if i < |es| - 1 {
      InverseOfLatest(es[..|es| - 1], i);
    }
  }

  /** The entry a path maps to is the last entry for that path. */
  lemma {:induction false} MapOfLatest(es: seq<(string, string)>, i: nat)
    requires i < |es|
    requires forall j :: i < j < |es| ==> es[j].0 != es[i].0
    ensures MapOf(es)[es[i].0] == es[i].1
    decreases |es|
  {
    if i < |es| - 1 {
      MapOfLatest(es[..|es| - 1], i);
    }
  }

  /**
   * For the entries of a `Map` (distinct paths) whose keys are distinct as
   * well, the two indexes `loadHash` builds are mutual inverses.
   */
  lemma IndexesInverse(es: seq<(string, string)>)
    requires forall i, j :: 0 <= i < j < |es| ==> es[i].0 != es[j].0
    requires forall i, j :: 0 <= i < j < |es| ==> es[i].1 != es[j].1
    ensures forall p :: p in MapOf(es) ==> MapOf(es)[p] in InverseOf(es) && InverseOf(es)[MapOf(es)[p]] == p
    ensures forall k :: k in InverseOf(es) ==> InverseOf(es)[k] in MapOf(es) && MapOf(es)[InverseOf(es)[k]] == k
  {
    forall p | p in MapOf(es) ensures InverseOf(es)[MapOf(es)[p]] == p {
      var i :| 0 <= i < |es| && es[i] == (p, MapOf(es)[p]);
      InverseOfLatest(es, i);
    }
    forall k | k in InverseOf(es) ensures MapOf(es)[InverseOf(es)[k]] == k {
      var i :| 0 <= i < |es| && es[i] == (InverseOf(es)[k], k);
      MapOfLatest(es, i);
    }
  }

  /** The loop of `loadHash` filling `keyToPath`. */
  method Invert(es: seq<(string, string)>) returns (m: map<string, string>)
    ensures m == InverseOf(es)
  {
    m := map[];
    for i := 0 to |es|
      invariant m == InverseOf(es[..i])
    {
      assert es[..i + 1][..i] == es[..i];
      m := m[es[i].1 := es[i].0];
    }
    assert es[..|es|] == es;
  }

  /**
   * The two indexes `loadHash` builds from the stored `songHashIndex` item
   * (`parse` stands for the deserializer): an error when the item is
   * missing or empty or does not parse to a `Map` of strings.
   */
  function Indexes(songHash: Option<string>, parse: string -> JsValue): (r: Result<(map<string, SongKey>, map<SongKey, string>)>)
    ensures r.Ok? <==> songHash.Some? && songHash.value != "" && IsMapOfStrings(parse(songHash.value))
  {
    if songHash.None? || songHash.value == "" then Err("Oh poop")
    else
      var path2key := parse(songHash.value);
      if IsMapOfStrings(path2key) then
        var es := StringEntries(path2key);
        Ok((MapOf(es), InverseOf(es)))
      else Err("Invalid songHashIndex")
  }

  /** Over entries with distinct paths, each key's path maps back to it, and every key listed has a path. */
  lemma EntriesAgree(es: seq<(string, string)>)
    requires forall i, j :: 0 <= i < j < |es| ==> es[i].0 != es[j].0
    ensures forall k :: k in InverseOf(es) ==> InverseOf(es)[k] in MapOf(es) && MapOf(es)[InverseOf(es)[k]] == k
    ensures forall p :: p in MapOf(es) ==> MapOf(es)[p] in InverseOf(es)
  {
    forall k | k in InverseOf(es)
      ensures InverseOf(es)[k] in MapOf(es) && MapOf(es)[InverseOf(es)[k]] == k
    {
      var i :| 0 <= i < |es| && es[i] == (InverseOf(es)[k], k);
      MapOfLatest(es, i);
    }
    forall p | p in MapOf(es)
      ensures MapOf(es)[p] in InverseOf(es)
    {
      var i :| 0 <= i < |es| && es[i] == (p, MapOf(es)[p]);
      assert es[i].1 in InverseOf(es);
    }
  }

  /**
   * The key-to-path index agrees with the path-to-key index: each key's path
   * maps back to it, and every key the paths map to has a path.
   */
  lemma IndexesAgree(songHash: Option<string>, parse: string -> JsValue)
    requires Indexes(songHash, parse).Ok?
    ensures var (pathToKey, keyToPath) := Indexes(songHash, parse).value;
      && (forall k :: k in keyToPath ==> keyToPath[k] in pathToKey && pathToKey[keyToPath[k]] == k)
      && (forall p :: p in pathToKey ==> pathToKey[p] in keyToPath)
  {
    var es := StringEntries(parse(songHash.value));
    assert Indexes(songHash, parse).value == (MapOf(es), InverseOf(es));
    EntriesAgree(es);
  }

  /** `loadHash` apart from storing the result. */
  method ParseIndexes(songHash: Option<string>, parse: string -> JsValue)
    returns (r: Result<(map<string, SongKey>, map<SongKey, string>)>)
    ensures r == Indexes(songHash, parse)
  {
    if songHash.None? || songHash.value == "" {
      return Err("Oh poop");
    }
    var path2key := parse(songHash.value);
    if !IsMapOfStrings(path2key) {
      return Err("Invalid songHashIndex");
    }
    var es := StringEntries(path2key);
    var keyToPath := Invert(es);
    r := Ok((MapOf(es), keyToPath));
  }

  /** The two module-level indexes of playlists.ts, `null` until `loadHash` fills them. */
  class SongIndex {
    var keyToPath: Option<map<SongKey, string>>
    var pathToKey: Option<map<string, SongKey>>

    constructor ()
      ensures keyToPath == None && pathToKey == None
    {
      keyToPath := None;
      pathToKey := None;
    }

    /** `loadHash`: stores both indexes, or throws and changes nothing. */
    method LoadHash(songHash: Option<string>, parse: string -> JsValue) returns (r: Result<()>)
      modifies this
      ensures Indexes(songHash, parse).Err? ==> r.Err? && unchanged(this)
      ensures Indexes(songHash, parse).Ok? ==>
        r.Ok? && pathToKey == Some(Indexes(songHash, parse).value.0) && keyToPath == Some(Indexes(songHash, parse).value.1)
    {
      var loaded := ParseIndexes(songHash, parse);
      if loaded.Err? {
        return Err(loaded.message);
      }
      pathToKey := Some(loaded.value.0);
      keyToPath := Some(loaded.value.1);
      r := Ok(());
    }

    /** `getKeyToPath`: loads the indexes unless they are loaded, and throws with `loadHash`. */
    method GetKeyToPath(songHash: Option<string>, parse: string -> JsValue) returns (r: Result<map<SongKey, string>>)
      modifies this
      ensures old(keyToPath).Some? ==> r == Ok(old(keyToPath).value) && unchanged(this)
      ensures old(keyToPath).None? && Indexes(songHash, parse).Ok? ==> r == Ok(Indexes(songHash, parse).value.1)
      ensures old(keyToPath).None? && Indexes(songHash, parse).Ok? ==>
        pathToKey == Some(Indexes(songHash, parse).value.0) && keyToPath == Some(Indexes(songHash, parse).value.1)
      ensures old(keyToPath).None? && Indexes(songHash, parse).Err? ==> r.Err? && unchanged(this)
    {
      if keyToPath.Some? {
        return Ok(keyToPath.value);
      }
      var loaded := LoadHash(songHash, parse);
      if loaded.Err? {
        return Err(loaded.message);
      }
      r := Ok(keyToPath.value);
    }

    /** `getPathToKey`: as `getKeyToPath`, for the other index. */
    method GetPathToKey(songHash: Option<string>, parse: string -> JsValue) returns (r: Result<map<string, SongKey>>)
      modifies this
      ensures old(pathToKey).Some? ==> r == Ok(old(pathToKey).value) && unchanged(this)
      ensures old(pathToKey).None? && Indexes(songHash, parse).Ok? ==> r == Ok(Indexes(songHash, parse).value.0)
      ensures old(pathToKey).None? && Indexes(songHash, parse).Ok? ==>
        pathToKey == Some(Indexes(songHash, parse).value.0) && keyToPath == Some(Indexes(songHash, parse).value.1)
      ensures old(pathToKey).None? && Indexes(songHash, parse).Err? ==> r.Err? && unchanged(this)
    {
      if pathToKey.Some? {
        return Ok(pathToKey.value);
      }
      var loaded := LoadHash(songHash, parse);
      if loaded.Err? {
        return Err(loaded.message);
      }
      r := Ok(pathToKey.value);
    }

    /** `toDiskFormat`, with the key-to-path index loaded on demand. */
    method Save(keys: seq<SongKey>, songHash: Option<string>, parse: string -> JsValue) returns (r: Result<string>)
      modifies this
      ensures old(keyToPath).Some? ==> r == Ok(Encode(keys, old(keyToPath).value))
      ensures old(keyToPath).None? && Indexes(songHash, parse).Ok? ==> r == Ok(Encode(keys, Indexes(songHash, parse).value.1))
      ensures old(keyToPath).None? && Indexes(songHash, parse).Err? ==> r.Err?
      ensures old(keyToPath).Some? || Indexes(songHash, parse).Err? ==> unchanged(this)
      ensures old(keyToPath).None? && Indexes(songHash, parse).Ok? ==>
        pathToKey == Some(Indexes(songHash, parse).value.0) && keyToPath == Some(Indexes(songHash, parse).value.1)
    {
      var k2p := GetKeyToPath(songHash, parse);
      if k2p.Err? {
        return Err(k2p.message);
      }
      var text := ToDiskFormat(keys, k2p.value);
      r := Ok(text);
    }

    /**
     * `fromDiskFormat`: nothing when the library is unavailable; the legacy
     * format needs no index; the M3U format loads the path-to-key index on
     * demand, and throws when that fails.
     */
    method Load(flat: string, db: Option<map<SongKey, Song>>, songHash: Option<string>, parse: string -> JsValue)
      returns (r: Result<seq<SongKey>>)
      modifies this
      ensures db.None? ==> r == Ok([])
      ensures db.Some? && IsLegacy(Split(flat, '\n')) ==> r == Ok(KnownKeys(Split(flat, '\n'), db.value))
      ensures db.Some? && old(pathToKey).Some? ==> r == Ok(Decode(flat, db.value, old(pathToKey).value))
      ensures db.Some? && !IsLegacy(Split(flat, '\n')) && old(pathToKey).None? ==>
        if Indexes(songHash, parse).Ok? then r == Ok(Decode(flat, db.value, Indexes(songHash, parse).value.0))
        else r.Err?
      ensures r.Ok? ==> forall k :: k in r.value ==> db.Some? && k in db.value
      ensures db.None? || IsLegacy(Split(flat, '\n')) || old(pathToKey).Some? || Indexes(songHash, parse).Err? ==>
        unchanged(this)
      ensures db.Some? && !IsLegacy(Split(flat, '\n')) && old(pathToKey).None? && Indexes(songHash, parse).Ok? ==>
        pathToKey == Some(Indexes(songHash, parse).value.0) && keyToPath == Some(Indexes(songHash, parse).value.1)
    {
      var lines := Split(flat, '\n');
      if db.None? {
        return Ok([]);
      }
      if IsLegacy(lines) {
        return Ok(KnownKeys(lines, db.value));
      }
      var p2k := GetPathToKey(songHash, parse);
      if p2k.Err? {
        return Err(p2k.message);
      }
      r := Ok(KeysOfPaths(lines, p2k.value, db.value));
    }
  }
}
