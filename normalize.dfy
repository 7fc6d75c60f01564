/**
 * Name normalization (MusicScanner.ts `normalizeName`) and the ordinal
 * comparison used instead of locale comparison (`stringCompare`).
 *
 * Normalization upper-cases, then applies an ordered list of cleaners, each a
 * global character replacement or the removal of a leading article.
 */
module Normalize {
  import opened Strings

  /** A set of characters a global replacement matches. */
  datatype CharClass = OneOf(chars: set<char>) | Range(lo: char, hi: char)

  predicate InClass(c: char, cls: CharClass) {
    match cls
    case OneOf(cs) => c in cs
    case Range(lo, hi) => lo <= c <= hi
  }

  /** One cleaner: a `/[...]/g` replacement or a `/^PREFIX/` deletion. */
  datatype Cleaner = ReplaceAll(cls: CharClass, replacement: string) | StripPrefix(prefix: string)

  const Quote: char := '\U{2019}'
  const CombiningLo: char := '\U{0300}'
  const CombiningHi: char := '\U{036F}'
  const UnicodeHyphen: char := '\U{2010}'

  /** The cleaners, in the order they are applied. */
  const Cleaners: seq<Cleaner> := [
    ReplaceAll(OneOf({'`', Quote}), "'"),
    ReplaceAll(Range(CombiningLo, CombiningHi), ""),
    ReplaceAll(OneOf({UnicodeHyphen}), "-"),
    StripPrefix("THE "),
    StripPrefix("A "),
    StripPrefix("AN ")
  ]

  /** Every character of `s` in `cls` replaced by `rep`. */
  function Replace(s: string, cls: CharClass, rep: string): string
  {
    if |s| == 0 then ""
    else (if InClass(s[0], cls) then rep else [s[0]]) + Replace(s[1..], cls, rep)
  }

  function Apply(c: Cleaner, s: string): string {
    match c
    case ReplaceAll(cls, rep) => Replace(s, cls, rep)
    case StripPrefix(p) => if StartsWith(s, p) then s[|p|..] else s
  }

  function ApplyAll(cs: seq<Cleaner>, s: string): string
  {
    if |cs| == 0 then s else ApplyAll(cs[1..], Apply(cs[0], s))
  }

  /** The comparison key of a name. */
  function Normalized(phrase: string): string {
    ApplyAll(Cleaners, ToUpper(phrase))
  }

  /** `normalizeName`: upper-case, then run each cleaner over the result in turn. */
  method NormalizeName(phrase: string) returns (res: string)
    ensures res == Normalized(phrase)
  {
    res := ToUpper(phrase);
    for i := 0 to |Cleaners|
      invariant ApplyAll(Cleaners[i..], res) == Normalized(phrase)
    {
      assert Cleaners[i..][0] == Cleaners[i] && Cleaners[i..][1..] == Cleaners[i + 1..];
      res := Apply(Cleaners[i], res);
    }
  }

  // ---- Facts about replacement ----

  /** A replacement keeps a character property when every character it keeps
      has it and its replacement text has it. */
  lemma {:induction false} ReplaceKeeps(s: string, cls: CharClass, rep: string, P: char -> bool)
    requires forall i :: 0 <= i < |s| ==> InClass(s[i], cls) || P(s[i])
    requires forall i :: 0 <= i < |rep| ==> P(rep[i])
    ensures forall i :: 0 <= i < |Replace(s, cls, rep)| ==> P(Replace(s, cls, rep)[i])
  {
    if |s| > 0 {
      ReplaceKeeps(s[1..], cls, rep, P);
      var head := if InClass(s[0], cls) then rep else [s[0]];
      var tail := Replace(s[1..], cls, rep);
      var r := Replace(s, cls, rep);
      assert r == head + tail;
      forall i | 0 <= i < |r| ensures P(r[i]) {
        if i < |head| { assert r[i] == head[i]; } else { assert r[i] == tail[i - |head|]; }
      }
    }
  }

  /** Replacement distributes over concatenation. */
  lemma {:induction false} ReplaceConcat(a: string, b: string, cls: CharClass, rep: string)
    ensures Replace(a + b, cls, rep) == Replace(a, cls, rep) + Replace(b, cls, rep)
  {
    if |a| > 0 {
      assert (a + b)[1..] == a[1..] + b;
      ReplaceConcat(a[1..], b, cls, rep);
    } else {
      assert a + b == b;
    }
  }

  /** A string with no character of the class is left as it is. */
  lemma {:induction false} ReplaceNoMatch(s: string, cls: CharClass, rep: string)
    requires forall i :: 0 <= i < |s| ==> !InClass(s[i], cls)
    ensures Replace(s, cls, rep) == s
  {
    if |s| > 0 {
      ReplaceNoMatch(s[1..], cls, rep);
      assert [s[0]] + s[1..] == s;
    }
  }

  // ---- The key in two stages ----

  /** The upper-cased name after the three character replacements. */
  function Cleaned(phrase: string): string {
    Apply(Cleaners[2], Apply(Cleaners[1], Apply(Cleaners[0], ToUpper(phrase))))
  }

  /** Removal of a leading "THE ", then "A ", then "AN ". */
  function StripArticles(s: string): string {
    Apply(Cleaners[5], Apply(Cleaners[4], Apply(Cleaners[3], s)))
  }

  lemma NormalizedSteps(phrase: string)
    ensures Normalized(phrase) == StripArticles(Cleaned(phrase))
  {
    var cs := Cleaners;
    var s0 := ToUpper(phrase);
    var s1 := Apply(cs[0], s0);
    var s2 := Apply(cs[1], s1);
    var s3 := Apply(cs[2], s2);
    var s4 := Apply(cs[3], s3);
    var s5 := Apply(cs[4], s4);
    var s6 := Apply(cs[5], s5);
    assert cs[5..][0] == cs[5] && cs[5..][1..] == [];
    assert ApplyAll(cs[5..], s5) == s6;
    assert cs[4..][0] == cs[4] && cs[4..][1..] == cs[5..];
    assert ApplyAll(cs[4..], s4) == s6;
    assert cs[3..][0] == cs[3] && cs[3..][1..] == cs[4..];
    assert ApplyAll(cs[3..], s3) == s6;
    assert cs[2..][0] == cs[2] && cs[2..][1..] == cs[3..];
    assert ApplyAll(cs[2..], s2) == s6;
    assert cs[1..][0] == cs[1] && cs[1..][1..] == cs[2..];
    assert ApplyAll(cs[1..], s1) == s6;
    assert ApplyAll(cs, s0) == s6;
  }

  /** Cleaning distributes over concatenation. */
  lemma CleanedConcat(a: string, b: string)
    ensures Cleaned(a + b) == Cleaned(a) + Cleaned(b)
  {
    assert ToUpper(a + b) == ToUpper(a) + ToUpper(b);
    var u0, u1 := ToUpper(a), ToUpper(b);
    ReplaceConcat(u0, u1, Cleaners[0].cls, Cleaners[0].replacement);
    var v0, v1 := Apply(Cleaners[0], u0), Apply(Cleaners[0], u1);
    ReplaceConcat(v0, v1, Cleaners[1].cls, Cleaners[1].replacement);
    var w0, w1 := Apply(Cleaners[1], v0), Apply(Cleaners[1], v1);
    ReplaceConcat(w0, w1, Cleaners[2].cls, Cleaners[2].replacement);
  }

  /** A plain upper-case ASCII word passes the replacements unchanged. */
  lemma CleanedPlain(w: string)
    requires forall i :: 0 <= i < |w| ==> 'A' <= w[i] <= 'Z' || 'a' <= w[i] <= 'z' || w[i] == ' '
    ensures Cleaned(w) == ToUpper(w)
  {
    var u := ToUpper(w);
    ReplaceNoMatch(u, Cleaners[0].cls, Cleaners[0].replacement);
    ReplaceNoMatch(u, Cleaners[1].cls, Cleaners[1].replacement);
    ReplaceNoMatch(u, Cleaners[2].cls, Cleaners[2].replacement);
  }

  // ---- Properties of the key ----

  /** A key contains only clean characters: no lower-case ASCII letter, no backtick,
      no right single quote, no combining mark and no Unicode hyphen. */
  predicate CleanChar(c: char) {
    !('a' <= c <= 'z') && c != '`' && c != Quote
    && !(CombiningLo <= c <= CombiningHi) && c != UnicodeHyphen
  }

  lemma NormalizedIsClean(phrase: string)
    ensures forall i :: 0 <= i < |Normalized(phrase)| ==> CleanChar(Normalized(phrase)[i])
  {
    NormalizedSteps(phrase);
    var u := ToUpper(phrase);
    var P1 := (c: char) => !('a' <= c <= 'z') && c != '`' && c != Quote;
    ReplaceKeeps(u, Cleaners[0].cls, "'", P1);
    var s1 := Apply(Cleaners[0], u);
    var P2 := (c: char) => P1(c) && !(CombiningLo <= c <= CombiningHi);
    ReplaceKeeps(s1, Cleaners[1].cls, "", P2);
    var s2 := Apply(Cleaners[1], s1);
    var P3 := (c: char) => P2(c) && c != UnicodeHyphen;
    ReplaceKeeps(s2, Cleaners[2].cls, "-", P3);
    var s3 := Apply(Cleaners[2], s2);
    assert s3 == Cleaned(phrase);
    var n := Normalized(phrase);
    assert n == s3[|s3| - |n|..];
  }

  /** Names that differ only in the case of ASCII letters have the same key. */
  lemma NormalizedIgnoresCase(s: string)
    ensures Normalized(ToLower(s)) == Normalized(s)
  {
    assert ToUpper(ToLower(s)) == ToUpper(s);
  }

  lemma CleanedThe()
    ensures Cleaned("The ") == "THE "
  {
    CleanedPlain("The ");
    var u := ToUpper("The ");
    assert u[0] == 'T' && u[1] == 'H' && u[2] == 'E' && u[3] == ' ';
  }

  lemma CleanedA()
    ensures Cleaned("a ") == "A "
  {
    CleanedPlain("a ");
    var u := ToUpper("a ");
    assert u[0] == 'A' && u[1] == ' ';
  }

  lemma StripArticlesAfterThe(x: string)
    ensures StripArticles("THE " + x) == Apply(Cleaners[5], Apply(Cleaners[4], x))
  {
    var t := "THE " + x;
    assert t[..4] == "THE ";
    assert t[4..] == x;
  }

  lemma StripArticlesAfterA(x: string)
    ensures StripArticles("A " + x) == Apply(Cleaners[5], x)
  {
    var t := "A " + x;
    assert t[0] == 'A';
    assert !StartsWith(t, "THE ");
    assert t[..2] == "A ";
    assert t[2..] == x;
  }

  /** A leading "The " (in any case) does not change the key, unless what follows
      itself begins with "THE " once cleaned. */
  lemma LeadingTheIgnored(s: string)
    requires !StartsWith(Cleaned(s), "THE ")
    ensures Normalized("The " + s) == Normalized(s)
  {
    NormalizedSteps("The " + s);
    NormalizedSteps(s);
    CleanedConcat("The ", s);
    CleanedThe();
    StripArticlesAfterThe(Cleaned(s));
  }

  /** A leading "A " (in any case) does not change the key, unless what follows
      begins with "THE " or "A " once cleaned. */
  lemma LeadingAIgnored(s: string)
    requires !StartsWith(Cleaned(s), "THE ") && !StartsWith(Cleaned(s), "A ")
    ensures Normalized("a " + s) == Normalized(s)
  {
    NormalizedSteps("a " + s);
    NormalizedSteps(s);
    CleanedConcat("a ", s);
    CleanedA();
    StripArticlesAfterA(Cleaned(s));
  }

  /** The article cleaners run one after the other: a cleaned name that starts
      with "THE A " loses both articles, and only the "AN " cleaner still sees
      what follows. */
  lemma StackedArticles(x: string)
    ensures StripArticles("THE A " + x) == Apply(Cleaners[5], x)
  {
    assert "THE A " + x == "THE " + ("A " + x);
    StripArticlesAfterThe("A " + x);
    var t := "A " + x;
    assert t[..2] == "A " && t[2..] == x;
  }

  // ---- Ordinal comparison ----

  /**
   * Code-point lexicographic order. JavaScript's `<` compares UTF-16 code units,
   * which agrees with this except between a character above U+FFFF and one in
   * U+E000 to U+FFFF.
   */
  predicate Less(a: string, b: string)
  {
    if |a| == 0 then |b| > 0
    else if |b| == 0 then false
    else if a[0] != b[0] then a[0] < b[0]
    else Less(a[1..], b[1..])
  }

  /** `stringCompare`: (a > b ? 1 : 0) - (a < b ? 1 : 0). */
  function StringCompare(a: string, b: string): int {
    (if Less(b, a) then 1 else 0) - (if Less(a, b) then 1 else 0)
  }

  /** Exactly one of a < b, a == b, b < a holds. */
  lemma {:induction false} LessTrichotomy(a: string, b: string)
    ensures a == b ==> !Less(a, b) && !Less(b, a)
    ensures a != b ==> (Less(a, b) <==> !Less(b, a))
  {
    if |a| > 0 && |b| > 0 && a[0] == b[0] {
      LessTrichotomy(a[1..], b[1..]);
      assert a == [a[0]] + a[1..] && b == [b[0]] + b[1..];
    }
  }

  /** The comparison answers -1, 0 or 1; 0 exactly for equal strings; and it is antisymmetric. */
  lemma StringCompareSpec(a: string, b: string)
    ensures StringCompare(a, b) in {-1, 0, 1}
    ensures StringCompare(a, b) == 0 <==> a == b
    ensures StringCompare(a, b) == -StringCompare(b, a)
  {
    LessTrichotomy(a, b);
  }

  /** `noArticlesCmp`: ordinal comparison of the keys. */
  function NoArticlesCmp(a: string, b: string): (r: int)
    ensures r == 0 <==> Normalized(a) == Normalized(b)
  {
    StringCompareSpec(Normalized(a), Normalized(b));
    StringCompare(Normalized(a), Normalized(b))
  }
}
