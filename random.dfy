/**
 * The alias generator of the `random` package: a `Random` object that owns a
 * seeded source and spells strings of a requested length over a fixed
 * 62-character alphabet.
 *
 * The pseudo-random source is made explicit: `source(k)` is what the k-th call
 * of `rand.Intn(len(charset))` on this object returns. Nothing is assumed about
 * its distribution; every property below holds for every source.
 */
module RandomLib {
  import opened Errors

  /** The alphabet aliases are drawn from. */
  const Charset: string := "abcdefghijklmnopqrstuvwxyzABCDEFGHIJKLMNOPQRSTUVWXYZ0123456789"

  /** A result of `rand.Intn(len(charset))`: a position in the alphabet. */
  type Index = i: int | 0 <= i < 62

  predicate IsAlphanumeric(c: char) {
    'a' <= c <= 'z' || 'A' <= c <= 'Z' || '0' <= c <= '9'
  }

  /** The alphabet is the lower-case letters, then the upper-case letters, then the digits. */
  lemma CharsetSegments()
    ensures Charset == "abcdefghijklmnopqrstuvwxyz" + "ABCDEFGHIJKLMNOPQRSTUVWXYZ" + "0123456789"
  {
  }

  /** `run` holds `|run|` consecutive characters starting at `first`. */
  predicate Consecutive(run: string, first: char) {
    forall i :: 0 <= i < |run| ==> run[i] as int == first as int + i
  }

  lemma LettersAndDigitsAreConsecutive()
    ensures Consecutive("abcdefghijklmnopqrstuvwxyz", 'a')
    ensures Consecutive("ABCDEFGHIJKLMNOPQRSTUVWXYZ", 'A')
    ensures Consecutive("0123456789", '0')
  {
  }

  /** Where each character of the alphabet sits: a-z, then A-Z, then 0-9, in code order. */
  lemma CharsetLayout()
    ensures |Charset| == 62
    ensures forall i :: 0 <= i < 26 ==> Charset[i] as int == 'a' as int + i
    ensures forall i :: 26 <= i < 52 ==> Charset[i] as int == 'A' as int + (i - 26)
    ensures forall i :: 52 <= i < 62 ==> Charset[i] as int == '0' as int + (i - 52)
  {
    var lower, upper, digits := "abcdefghijklmnopqrstuvwxyz", "ABCDEFGHIJKLMNOPQRSTUVWXYZ", "0123456789";
    CharsetSegments();
    LettersAndDigitsAreConsecutive();
    assert Charset[..26] == lower && Charset[26..52] == upper && Charset[52..] == digits;
    forall i | 0 <= i < 26 ensures Charset[i] as int == 'a' as int + i {
      assert Charset[i] == lower[i];
    }
    forall i | 26 <= i < 52 ensures Charset[i] as int == 'A' as int + (i - 26) {
      assert Charset[i] == upper[i - 26];
    }
    forall i | 52 <= i < 62 ensures Charset[i] as int == '0' as int + (i - 52) {
      assert Charset[i] == digits[i - 52];
    }
  }

  /** The alphabet has 62 distinct characters, and they are exactly a-z, A-Z and 0-9. */
  lemma CharsetIsAlphanumeric()
    ensures |Charset| == 62
    ensures forall i, j :: 0 <= i < j < |Charset| ==> Charset[i] != Charset[j]
    ensures forall c :: c in Charset <==> IsAlphanumeric(c)
  {
    CharsetLayout();
    forall c | IsAlphanumeric(c)
      ensures c in Charset
    {
      var i := if 'a' <= c <= 'z' then c as int - 'a' as int
               else if 'A' <= c <= 'Z' then 26 + c as int - 'A' as int
               else 52 + c as int - '0' as int;
      assert Charset[i] as int == c as int;
    }
  }

  /** The string spelled by `n` successive draws starting at draw number `from`. */
  function Spell(source: nat -> Index, from: nat, n: nat): (s: string)
    ensures |s| == n
    ensures forall i :: 0 <= i < n ==> s[i] == Charset[source(from + i)]
    decreases n
  {
    if n == 0 then "" else [Charset[source(from)]] + Spell(source, from + 1, n - 1)
  }

  /** Every character of a spelled string is alphanumeric. */
  lemma SpellIsAlphanumeric(source: nat -> Index, from: nat, n: nat)
    ensures forall c :: c in Spell(source, from, n) ==> IsAlphanumeric(c)
  {
    CharsetIsAlphanumeric();
    var s := Spell(source, from, n);
    forall c | c in s
      ensures IsAlphanumeric(c)
    {
      var i :| 0 <= i < |s| && s[i] == c;
      assert c == Charset[source(from + i)];
    }
  }

  /**
   * The output depends only on the draws it consumed, and determines them:
   * two sources spell the same string exactly when they agree on those draws.
   */
  lemma {:induction false} SpellDependsOnDrawsOnly(a: nat -> Index, b: nat -> Index, from: nat, n: nat)
    ensures Spell(a, from, n) == Spell(b, from, n) <==> forall k :: from <= k < from + n ==> a(k) == b(k)
    decreases n
  {
    if Spell(a, from, n) == Spell(b, from, n) {
      CharsetIsAlphanumeric();
      forall k | from <= k < from + n
        ensures a(k) == b(k)
      {
        assert Spell(a, from, n)[k - from] == Spell(b, from, n)[k - from];
      }
    }
  }

  /** An object owning a seeded source (`rand *rand.Rand`); `drawn` counts the draws already made. */
  class Random {
    const source: nat -> Index
    var drawn: nat

    constructor (source: nat -> Index)
      ensures this.source == source && drawn == 0
    {
      this.source := source;
      drawn := 0;
    }

    /** `r.rand.Intn(len(charset))`: the next value of the source. */
    method Intn() returns (i: Index)
      modifies this
      ensures i == source(old(drawn)) && drawn == old(drawn) + 1
    {
      i := source(drawn);
      drawn := drawn + 1;
    }

    /**
     * A string of `length` characters of the alphabet; a non-positive length
     * is refused with a wrapped `ErrShortLength` and draws nothing.
     */
    method RandomString(length: int) returns (s: string, err: Option<Error>)
      modifies this
      ensures length <= 0 ==> s == "" && err == Some(Wrapped(RandomRandomString, ErrShortLength))
      ensures length <= 0 ==> drawn == old(drawn)
      ensures length > 0 ==> err == None && s == Spell(source, old(drawn), length)
      ensures length > 0 ==> drawn == old(drawn) + length
      ensures length > 0 ==> |s| == length && forall c :: c in s ==> IsAlphanumeric(c)
    {
      if length <= 0 {
        return "", Some(Wrapped(RandomRandomString, ErrShortLength));
      }
      var alias := new char[length];
      for i := 0 to length
        invariant drawn == old(drawn) + i
        invariant forall k :: 0 <= k < i ==> alias[k] == Charset[source(old(drawn) + k)]
      {
        var d := Intn();
        alias[i] := Charset[d];
      }
      s, err := alias[..], None;
      SpellIsAlphanumeric(source, old(drawn), length);
    }
  }
}
