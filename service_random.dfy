/**
 * The older generator of the `service` package, `NewRandomString`: it fills a
 * byte slice from the process-wide `rand.Intn` and has no error result.
 *
 * `intn(k)` is what the k-th `rand.Intn(len(charset))` of this call returns.
 */
module ServiceRandom {
  import RandomLib

  /** This package's own copy of the alphabet. */
  const Charset: string := "abcdefghijklmnopqrstuvwxyzABCDEFGHIJKLMNOPQRSTUVWXYZ0123456789"

  /** Both packages draw from the same 62 characters. */
  lemma SameAlphabet()
    ensures Charset == RandomLib.Charset
  {
  }

  /**
   * A string of exactly `length` alphabet characters, or "" for a
   * non-positive length; it never fails.
   */
  method NewRandomString(length: int, intn: nat -> RandomLib.Index) returns (s: string)
    ensures length <= 0 ==> s == ""
    ensures length > 0 ==> |s| == length
    ensures length > 0 ==> forall i :: 0 <= i < length ==> s[i] == Charset[intn(i)]
    ensures forall c :: c in s ==> RandomLib.IsAlphanumeric(c)
  {
    if length <= 0 {
      return "";
    }
    var result := new char[length];
    for i := 0 to length
      invariant forall k :: 0 <= k < i ==> result[k] == Charset[intn(k)]
    {
      result[i] := Charset[intn(i)];
    }
    s := result[..];
    SameAlphabet();
    RandomLib.CharsetIsAlphanumeric();
    forall c | c in s
      ensures RandomLib.IsAlphanumeric(c)
    {
      var i :| 0 <= i < |s| && s[i] == c;
      assert c in Charset;
    }
  }
}
