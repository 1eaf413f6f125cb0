/**
 * Series identifiers and base-type codes of the cache drain
 * (`_did` and `_base_type` in infoset/cache/cache.py).
 */
module Identifiers {
  import opened Wrappers
  import opened Strings
  import opened Json

  /**
   * The digest `_did` applies: SHA-256 rendered as lower-case hex. It is not
   * modelled; every operation that needs it takes it as a parameter, so no
   * property proved here depends on what the digest is.
   */
  type Digest = string -> string

  /** The text that is hashed: `'%s%s%s' % (uid, series, index)`. */
  function PreHash(uid: Json, series: string, index: Json): string {
    PyStr(uid) + series + PyStr(index)
  }

  function Did(hash: Digest, uid: Json, series: string, index: Json): string {
    hash(PreHash(uid, series, index))
  }

  /**
   * Under a digest without collisions, two triples get the same identifier
   * exactly when their concatenated texts agree; the digest adds no
   * collisions of its own, and `DidCollides` shows the concatenation does.
   */
  lemma DidAgreement(hash: Digest, u1: Json, s1: string, i1: Json, u2: Json, s2: string, i2: Json)
    requires forall x, y :: hash(x) == hash(y) ==> x == y
    ensures Did(hash, u1, s1, i1) == Did(hash, u2, s2, i2) <==> PyStr(u1) + s1 + PyStr(i1) == PyStr(u2) + s2 + PyStr(i2)
  {
  }

  /**
   * Because nothing separates the three parts, distinct triples can share
   * an identifier whatever the digest is: ("ab", "c", 1) and ("a", "bc", 1).
   */
  lemma DidCollides(hash: Digest)
    ensures Did(hash, JString("ab"), "c", JInt(1)) == Did(hash, JString("a"), "bc", JInt(1))
  {
    assert NatString(1) == "1";
    assert "ab" + "c" + "1" == "a" + "bc" + "1";
  }

  /** `s.lower() == w` for an all-lower-case ASCII word `w`. */
  predicate EqualsIgnoringCase(s: string, w: string) {
    |s| == |w| && forall i :: 0 <= i < |s| ==> LowerChar(s[i]) == w[i]
  }

  /**
   * `_base_type(data)`: a falsy value is replaced by 'NULL'; the lower-cased
   * text then selects 1, 32 or 64, and anything else gives 0. A truthy value
   * that is not a str has no `lower()` and raises (None).
   */
  function BaseType(data: Json): (r: Option<int>)
    ensures r.Some? ==> r.value in {0, 1, 32, 64}
    ensures r.None? <==> Truthy(data) && !data.JString?
  {
    if !Truthy(data) then Some(0)
    else if !data.JString? then None
    else
      var value := Lower(data.s);
      if value == "floating" then Some(1)
      else if value == "counter32" then Some(32)
      else if value == "counter64" then Some(64)
      else Some(0)
  }

  /** The three names are matched without regard to case; nothing else is. */
  lemma BaseTypeNames(s: string)
    ensures BaseType(JString(s)) == Some(1) <==> EqualsIgnoringCase(s, "floating")
    ensures BaseType(JString(s)) == Some(32) <==> EqualsIgnoringCase(s, "counter32")
    ensures BaseType(JString(s)) == Some(64) <==> EqualsIgnoringCase(s, "counter64")
    ensures BaseType(JString(s)) == Some(0) <==>
      !EqualsIgnoringCase(s, "floating") && !EqualsIgnoringCase(s, "counter32") && !EqualsIgnoringCase(s, "counter64")
  {
    var v := Lower(s);
    assert EqualsIgnoringCase(s, "floating") <==> v == "floating";
    assert EqualsIgnoringCase(s, "counter32") <==> v == "counter32";
    assert EqualsIgnoringCase(s, "counter64") <==> v == "counter64";
  }

  /** A missing or empty base type (null, "", false, 0) is code 0. */
  lemma BaseTypeOfFalsy(data: Json)
    requires !Truthy(data)
    ensures BaseType(data) == Some(0)
  {
  }
}
