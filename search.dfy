/**
 * The search query engine (MusicAccess.ts): a query is split into words, each
 * word is looked up in the song, album and artist indexes, and the results
 * for the words are intersected. The index itself is built elsewhere and is
 * taken here as three lookup functions.
 */
module Search {
  import opened Wrappers
  import opened Strings

  predicate NoDup(s: seq<string>) {
    forall i, j :: 0 <= i < j < |s| ==> s[i] != s[j]
  }

  /** `new Set(s)` read back in order: the first occurrence of each element. */
  function Dedup(s: seq<string>): (r: seq<string>)
    ensures NoDup(r)
    ensures forall x :: x in r <==> x in s
    decreases |s|
  {
    if |s| == 0 then []
    else
      var r := Dedup(s[..|s| - 1]);
      var x := s[|s| - 1];
      assert forall y :: y in s <==> y in s[..|s| - 1] || y == x;
      if x in r then r else r + [x]
  }

  /** `intersect(a, b)`: the elements of `b` that are in `a`, in the order of `b`, once each. */
  function Intersection(a: seq<string>, b: seq<string>): (r: seq<string>)
    ensures NoDup(r)
    ensures forall x :: x in r <==> x in a && x in b
    decreases |b|
  {
    if |b| == 0 then []
    else
      var r := Intersection(a, b[..|b| - 1]);
      var x := b[|b| - 1];
      assert forall y :: y in b <==> y in b[..|b| - 1] || y == x;
      if x in a && x !in r then r + [x] else r
  }

  /** The loop of `intersect`, adding each element of `b` found in `a` to the result set. */
  method Intersect(a: seq<string>, b: seq<string>) returns (res: seq<string>)
    ensures res == Intersection(a, b)
  {
    res := [];
    for i := 0 to |b|
      invariant res == Intersection(a, b[..i])
    {
      assert b[..i + 1][..i] == b[..i];
      if b[i] in a && b[i] !in res {
        res := res + [b[i]];
      }
    }
    assert b[..|b|] == b;
  }

  /** The index: for a word and the substring flag, the keys of the matching songs, albums and artists. */
  datatype MusicIndex = MusicIndex(
    songs: (string, bool) -> seq<string>,
    albums: (string, bool) -> seq<string>,
    artists: (string, bool) -> seq<string>)

  datatype SearchResults = SearchResults(songs: seq<string>, albums: seq<string>, artists: seq<string>)

  /** The non-empty strings of `ts`, in order. */
  function NonEmpty(ts: seq<string>): (ws: seq<string>)
    ensures forall w :: w in ws ==> |w| > 0
    decreases |ts|
  {
    if |ts| == 0 then []
    else
      var ws := NonEmpty(ts[..|ts| - 1]);
      var t := ts[|ts| - 1];
      if |t| > 0 then ws + [t] else ws
  }

  /** Nothing non-empty is dropped and nothing else is kept. */
  lemma {:induction false} NonEmptySpec(ts: seq<string>)
    ensures forall t :: t in ts && |t| > 0 ==> t in NonEmpty(ts)
    ensures forall w :: w in NonEmpty(ts) ==> w in ts
    decreases |ts|
  {
    if |ts| > 0 {
      var init := ts[..|ts| - 1];
      NonEmptySpec(init);
      assert forall t :: t in ts <==> t in init || t == ts[|ts| - 1];
    }
  }

  /** The trimmed pieces. */
  function Trimmed(pieces: seq<string>): (ts: seq<string>)
    ensures |ts| == |pieces|
  {
    seq(|pieces|, i requires 0 <= i < |pieces| => Trim(pieces[i]))
  }

  /** The words of a query: its pieces between spaces, trimmed, without the empty ones. */
  function Words(pieces: seq<string>): seq<string> {
    NonEmpty(Trimmed(pieces))
  }

  /** One more piece adds its trimmed text as a word, unless that is empty. */
  lemma WordsStep(pieces: seq<string>, i: nat)
    requires i < |pieces|
    ensures Words(pieces[..i + 1]) ==
      Words(pieces[..i]) + if |Trim(pieces[i])| > 0 then [Trim(pieces[i])] else []
  {
    var ts := Trimmed(pieces[..i + 1]);
    assert ts[..i] == Trimmed(pieces[..i]);
  }

  function QueryWords(query: string): seq<string> {
    Words(Split(query, ' '))
  }

  /** The first word's matches, intersected with each later word's matches in turn. */
  function AllOf(lookup: (string, bool) -> seq<string>, substr: bool, words: seq<string>): (r: seq<string>)
    ensures NoDup(r)
    decreases |words|
  {
    if |words| == 0 then []
    else if |words| == 1 then Dedup(lookup(words[0], substr))
    else Intersection(AllOf(lookup, substr, words[..|words| - 1]), lookup(words[|words| - 1], substr))
  }

  /** AND semantics: a key is found iff there is a word and every word's lookup lists the key. */
  lemma {:induction false} AllOfMeansEvery(lookup: (string, bool) -> seq<string>, substr: bool, words: seq<string>)
    ensures forall x :: x in AllOf(lookup, substr, words) <==>
      |words| > 0 && forall w :: w in words ==> x in lookup(w, substr)
    decreases |words|
  {
    if |words| > 1 {
      var init := words[..|words| - 1];
      AllOfMeansEvery(lookup, substr, init);
      assert forall w :: w in words <==> w in init || w == words[|words| - 1];
    } else if |words| == 1 {
      assert forall w :: w in words <==> w == words[0];
    }
  }

  /** One more word seeds the results when it is the first and narrows them otherwise. */
  lemma AllOfStep(lookup: (string, bool) -> seq<string>, substr: bool, ws: seq<string>, t: string)
    ensures AllOf(lookup, substr, ws + [t]) ==
      if |ws| == 0 then Dedup(lookup(t, substr)) else Intersection(AllOf(lookup, substr, ws), lookup(t, substr))
  {
    assert (ws + [t])[..|ws|] == ws;
  }

  /** What `indexSearch` returns for an installed index. */
  function SearchFor(index: MusicIndex, substr: bool, query: string): SearchResults {
    var words := QueryWords(query);
    SearchResults(AllOf(index.songs, substr, words), AllOf(index.albums, substr, words),
                  AllOf(index.artists, substr, words))
  }

  /** The results hold no duplicates, and hold exactly the keys every word of the query matches. */
  lemma SearchForSpec(index: MusicIndex, substr: bool, query: string)
    ensures var r := SearchFor(index, substr, query);
      var words := QueryWords(query);
      (forall w :: w in words ==> |w| > 0 && w in Trimmed(Split(query, ' '))) &&
      (forall t :: t in Trimmed(Split(query, ' ')) && |t| > 0 ==> t in words) &&
      NoDup(r.songs) && NoDup(r.albums) && NoDup(r.artists) &&
      (|words| == 0 ==> r == SearchResults([], [], [])) &&
      (forall x :: x in r.songs <==> |words| > 0 && forall w :: w in words ==> x in index.songs(w, substr)) &&
      (forall x :: x in r.albums <==> |words| > 0 && forall w :: w in words ==> x in index.albums(w, substr)) &&
      (forall x :: x in r.artists <==> |words| > 0 && forall w :: w in words ==> x in index.artists(w, substr))
  {
    var words := QueryWords(query);
    NonEmptySpec(Trimmed(Split(query, ' ')));
    AllOfMeansEvery(index.songs, substr, words);
    AllOfMeansEvery(index.albums, substr, words);
    AllOfMeansEvery(index.artists, substr, words);
  }

  /**
   * The loop of `indexSearch` over the pieces of the query: the first
   * non-empty trimmed piece seeds the three result sets and each later one
   * intersects them.
   */
  method RunQuery(idx: MusicIndex, substr: bool, pieces: seq<string>) returns (r: SearchResults)
    ensures r == SearchResults(AllOf(idx.songs, substr, Words(pieces)), AllOf(idx.albums, substr, Words(pieces)),
                               AllOf(idx.artists, substr, Words(pieces)))
  {
    var first := true;
    var songs, albums, artists := [], [], [];
    for i := 0 to |pieces|
      invariant first <==> |Words(pieces[..i])| == 0
      invariant songs == AllOf(idx.songs, substr, Words(pieces[..i]))
      invariant albums == AllOf(idx.albums, substr, Words(pieces[..i]))
      invariant artists == AllOf(idx.artists, substr, Words(pieces[..i]))
    {
      WordsStep(pieces, i);
      var t := Trim(pieces[i]);
      ghost var ws := Words(pieces[..i]);
      if |t| > 0 {
        assert Words(pieces[..i + 1]) == ws + [t];
        var sng, alb, art := idx.songs(t, substr), idx.albums(t, substr), idx.artists(t, substr);
        AllOfStep(idx.songs, substr, ws, t);
        AllOfStep(idx.albums, substr, ws, t);
        AllOfStep(idx.artists, substr, ws, t);
        if first {
          songs, albums, artists := Dedup(sng), Dedup(alb), Dedup(art);
        } else {
          songs := Intersect(songs, sng);
          albums := Intersect(albums, alb);
          artists := Intersect(artists, art);
        }
        first := false;
      } else {
        assert Words(pieces[..i + 1]) == ws;
      }
    }
    assert pieces[..|pieces|] == pieces;
    r := SearchResults(songs, albums, artists);
  }

  /** The module-level index of the main process, unset until `setMusicIndex` installs one. */
  class Searcher {
    var index: Option<MusicIndex>

    constructor ()
      ensures index == None
    {
      index := None;
    }

    /** `setMusicIndex`. */
    method SetMusicIndex(i: MusicIndex)
      modifies this
      ensures index == Some(i)
    {
      index := Some(i);
    }

    /**
     * `indexSearch`: throws when no index is installed; otherwise runs over
     * the trimmed pieces of the query, the first non-empty one seeding the
     * three result sets and each later one intersecting them.
     */
    method IndexSearch(substr: bool, query: string) returns (r: Result<SearchResults>)
      ensures index.None? ==> r.Err?
      ensures index.Some? ==> r == Ok(SearchFor(index.value, substr, query))
    {
      if index.None? {
        return Err("Don't call this function directly without initializing theMusicIndex");
      }
      var res := RunQuery(index.value, substr, Split(query, ' '));
      r := Ok(res);
    }

    /** `searchWholeWord`: nothing when no index is installed or the term is missing or empty. */
    method SearchWholeWord(term: Option<string>) returns (r: Option<SearchResults>)
      ensures index.None? || term.None? || term == Some("") ==> r.None?
      ensures index.Some? && term.Some? && term.value != "" ==> r == Some(SearchFor(index.value, false, term.value))
    {
      r := SearchBy(false, term);
    }

    /** `searchSubstring`: as `searchWholeWord`, matching anywhere inside words. */
    method SearchSubstring(term: Option<string>) returns (r: Option<SearchResults>)
      ensures index.None? || term.None? || term == Some("") ==> r.None?
      ensures index.Some? && term.Some? && term.value != "" ==> r == Some(SearchFor(index.value, true, term.value))
    {
      r := SearchBy(true, term);
    }

    method SearchBy(substr: bool, term: Option<string>) returns (r: Option<SearchResults>)
      ensures index.None? || term.None? || term == Some("") ==> r.None?
      ensures index.Some? && term.Some? && term.value != "" ==> r == Some(SearchFor(index.value, substr, term.value))
    {
      if index.None? || term.None? || term.value == "" {
        return None;
      }
      var res := IndexSearch(substr, term.value);
      r := Some(res.value);
    }
  }
}
