/**
 * Key generation: each kind of record gets keys from its own counter, spelled
 * as a one-letter prefix followed by the counter in decimal. The model relies
 * only on the counter never handing out a key twice.
 */
module Keys {
  import opened Strings

  const SongPrefix: char := 'S'
  const AlbumPrefix: char := 'L'
  const ArtistPrefix: char := 'R'

  /** The key the counter for `prefix` issues when it stands at `n`. */
  function MakeKey(prefix: char, n: nat): (k: string)
    ensures |k| >= 2 && k[0] == prefix && k[1..] == NatToDecimal(n)
  {
    [prefix] + NatToDecimal(n)
  }

  /** `k` was issued by the counter for `prefix` before it reached `n`. */
  predicate IssuedBelow(k: string, prefix: char, n: nat) {
    && |k| >= 2
    && k[0] == prefix
    && (forall i :: 1 <= i < |k| ==> IsDigit(k[i]))
    && DecimalValue(k[1..]) < n
  }

  /** The key issued at `n` was not issued before, and counts as issued afterwards. */
  lemma KeyIsFresh(prefix: char, n: nat)
    ensures !IssuedBelow(MakeKey(prefix, n), prefix, n)
    ensures IssuedBelow(MakeKey(prefix, n), prefix, n + 1)
  {
    DecimalRoundTrip(n);
  }

  /** Two keys from the same counter are equal only when the counter stood at the same value. */
  lemma MakeKeyInjective(prefix: char, m: nat, n: nat)
    requires MakeKey(prefix, m) == MakeKey(prefix, n)
    ensures m == n
  {
    NatToDecimalInjective(m, n);
  }

  /** Keys of different kinds never collide. */
  lemma KindsAreDisjoint(m: nat, n: nat)
    ensures MakeKey(SongPrefix, m) != MakeKey(AlbumPrefix, n)
    ensures MakeKey(SongPrefix, m) != MakeKey(ArtistPrefix, n)
    ensures MakeKey(AlbumPrefix, m) != MakeKey(ArtistPrefix, n)
  {
  }
}
