/** Sealing of tokens at rest: the nonce in front of the ciphertext, over an abstract AEAD. */
module Cryptobox {
  import opened Wrappers

  type Bytes = seq<bv8>

  datatype Aead = Aead(nonceSize: nat, encrypt: (Bytes, Bytes) -> Bytes, decrypt: (Bytes, Bytes) -> Option<Bytes>)

  /** What is asked of the cipher: nonces are not empty, and what was encrypted decrypts under the same nonce. */
  ghost predicate Correct(a: Aead) {
    && a.nonceSize > 0
    && forall nonce: Bytes, plain: Bytes | |nonce| == a.nonceSize :: a.decrypt(nonce, a.encrypt(nonce, plain)) == Some(plain)
  }

  /** A draw from the random source: a nonce, or nothing. */
  predicate Draws(a: Aead, random: Option<Bytes>) {
    random.Some? ==> |random.value| == a.nonceSize
  }

  /** Said of the cipher alone: the text is empty, or holds a nonce under which the rest of it decrypts. */
  predicate Opens(a: Aead, ct: Bytes) {
    ct == [] || (|ct| >= a.nonceSize && a.decrypt(ct[..a.nonceSize], ct[a.nonceSize..]).Some?)
  }

  /** What it decrypts to. */
  function Hidden(a: Aead, ct: Bytes): Bytes
    requires Opens(a, ct)
  {
    if ct == [] then [] else a.decrypt(ct[..a.nonceSize], ct[a.nonceSize..]).value
  }

  function Seal(a: Aead, random: Option<Bytes>, plain: Bytes): Result<Bytes, string>
    requires Draws(a, random)
  {
    if plain == [] then Ok([])
    else
      match random
      case None => Err("no randomness")
      case Some(nonce) => Ok(nonce + a.encrypt(nonce, plain))
  }

  function Open(a: Aead, ct: Bytes): (r: Result<Bytes, string>)
    ensures r.Ok? <==> Opens(a, ct)
    ensures r.Ok? ==> r.value == Hidden(a, ct)
  {
    if |ct| == 0 then Ok([])
    else if |ct| < a.nonceSize then Err("cryptobox: ciphertext too short")
    else
      match a.decrypt(ct[..a.nonceSize], ct[a.nonceSize..])
      case None => Err("authentication failed")
      case Some(plain) => Ok(plain)
  }

  /** Sealing fails only for want of randomness, and then only if there is something to seal; what it seals opens again. */
  lemma OpenAfterSeal(a: Aead, random: Option<Bytes>, plain: Bytes)
    requires Correct(a) && Draws(a, random)
    ensures Seal(a, random, plain).Err? <==> plain != [] && random.None?
    ensures Seal(a, random, plain).Ok? ==> Open(a, Seal(a, random, plain).value) == Ok(plain)
    ensures Seal(a, random, plain).Ok? ==>
              Opens(a, Seal(a, random, plain).value) && Hidden(a, Seal(a, random, plain).value) == plain
    ensures Seal(a, random, plain).Ok? ==> (Seal(a, random, plain).value == [] <==> plain == [])
  {
    if plain != [] && random.Some? {
      var nonce := random.value;
      var ct := nonce + a.encrypt(nonce, plain);
      assert ct[..a.nonceSize] == nonce && ct[a.nonceSize..] == a.encrypt(nonce, plain);
    }
  }

  /** Equal ciphertexts hide equal texts, sealed with the same nonce unless there was nothing to seal. */
  lemma SealIsInjective(a: Aead, r1: Option<Bytes>, p1: Bytes, r2: Option<Bytes>, p2: Bytes)
    requires Correct(a) && Draws(a, r1) && Draws(a, r2)
    requires Seal(a, r1, p1).Ok? && Seal(a, r1, p1) == Seal(a, r2, p2)
    ensures p1 == p2 && (p1 != [] ==> r1 == r2)
  {
    OpenAfterSeal(a, r1, p1);
    OpenAfterSeal(a, r2, p2);
    if p1 != [] {
      var ct := Seal(a, r1, p1).value;
      assert ct[..a.nonceSize] == r1.value && ct[..a.nonceSize] == r2.value;
    }
  }
}
