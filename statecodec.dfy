/**
 * The encrypted state cookie: unpadded base64url (section 5 of RFC 4648) of
 * `nonce ‖ Seal(key, nonce, json{state, redirect})`, where Seal is AES-GCM
 * (NIST SP 800-38D) with its standard 12-octet nonce.
 *
 * AES-GCM and JSON are not modelled; they are the function values of `Aead`
 * and `Json`, and the laws the real implementations satisfy are the
 * predicates `OpenSeal`, `OnlySealedOpens` and `JsonRoundTrip`, stated as
 * preconditions of the lemmas that need them.
 */
module StateCodec {
  import opened Wrappers
  import opened Text
  import Base64

  /** The JSON record `{"state": ..., "redirect": ...}`. */
  datatype StateData = StateData(state: string, redirect: string)

  /** `cipher.AEAD` over an AES key: Seal(key, nonce, plaintext) and Open(key, nonce, sealed). */
  datatype Aead = Aead(
    seal: (seq<byte>, seq<byte>, seq<byte>) -> seq<byte>,
    open: (seq<byte>, seq<byte>, seq<byte>) -> Option<seq<byte>>)

  /** `json.Marshal` (which cannot fail on two strings) and `json.Unmarshal` into the record. */
  datatype Json = Json(
    marshal: StateData -> seq<byte>,
    unmarshal: seq<byte> -> Option<StateData>)

  /** Opening what was sealed under the same key and nonce gives the plaintext back. */
  ghost predicate OpenSeal(a: Aead) {
    forall k, n, p :: a.open(k, n, a.seal(k, n, p)) == Some(p)
  }

  /** Authenticity: Open succeeds only on the output of Seal for that key, nonce and plaintext. */
  ghost predicate OnlySealedOpens(a: Aead) {
    forall k, n, c :: a.open(k, n, c).Some? ==> c == a.seal(k, n, a.open(k, n, c).value)
  }

  ghost predicate JsonRoundTrip(j: Json) {
    forall d :: j.unmarshal(j.marshal(d)) == Some(d)
  }

  /** `aes.NewCipher` accepts exactly 16-, 24- and 32-octet keys. */
  predicate ValidAesKey(key: seq<byte>) {
    |key| == 16 || |key| == 24 || |key| == 32
  }

  /** `aesGCM.NonceSize()` for the standard GCM construction. */
  const NonceSize: nat := 12

  datatype StateError =
    | CipherError       // aes.NewCipher rejected the key
    | NonceError        // rand.Read failed
    | DecodeError       // not unpadded base64url
    | TooShort          // fewer octets than the nonce
    | AuthError         // Open failed: wrong key or altered data
    | UnmarshalError    // the plaintext is not the JSON record

  /** Go's `(string, error)` result of `encryptState`. */
  datatype Encrypted = Encrypted(value: string, err: Option<StateError>)

  /** Go's `(string, string, error)` result of `decryptState`. */
  datatype Decrypted = Decrypted(state: string, redirect: string, err: Option<StateError>)

  /**
   * `encryptState(key, state, redirect)`, with `entropy` the octets `rand.Read`
   * delivers for the nonce (None, or fewer than NonceSize, is a read error).
   * `cipher.NewGCM` cannot fail on an AES block, so it has no branch here.
   */
  function Encrypt(a: Aead, j: Json, key: seq<byte>, state: string, redirect: string,
                   entropy: Option<seq<byte>>): (e: Encrypted)
    ensures e.err.Some? ==> e.value == ""
    ensures !ValidAesKey(key) ==> e.err == Some(CipherError)
    ensures ValidAesKey(key) && (entropy.None? || |entropy.value| < NonceSize) ==> e.err == Some(NonceError)
    ensures e.err.None? <==> ValidAesKey(key) && entropy.Some? && |entropy.value| >= NonceSize
    ensures e.err.None? ==>
      var nonce := entropy.value[..NonceSize];
      Base64.DecodeRaw(e.value) == Some(nonce + a.seal(key, nonce, j.marshal(StateData(state, redirect))))
  {
    if !ValidAesKey(key) then Encrypted("", Some(CipherError))
    else if entropy.None? || |entropy.value| < NonceSize then Encrypted("", Some(NonceError))
    else
      var nonce := entropy.value[..NonceSize];
      var plaintext := j.marshal(StateData(state, redirect));
      var ciphertext := nonce + a.seal(key, nonce, plaintext);
      Base64.DecodeEncodeRaw(ciphertext);
      Encrypted(Base64.EncodeRaw(ciphertext), None)
  }

  /** `decryptState(key, encryptedData)`. */
  function Decrypt(a: Aead, j: Json, key: seq<byte>, data: string): (d: Decrypted)
    ensures d.err.Some? ==> d.state == "" && d.redirect == ""
    ensures Base64.DecodeRaw(data).None? ==> d.err == Some(DecodeError)
    ensures Base64.DecodeRaw(data).Some? && !ValidAesKey(key) ==> d.err == Some(CipherError)
    ensures Base64.DecodeRaw(data).Some? && ValidAesKey(key) && |Base64.DecodeRaw(data).value| < NonceSize ==>
      d.err == Some(TooShort)
    ensures d.err.None? ==>
      var ct := Base64.DecodeRaw(data).value;
      ValidAesKey(key) && |ct| >= NonceSize &&
      a.open(key, ct[..NonceSize], ct[NonceSize..]).Some? &&
      j.unmarshal(a.open(key, ct[..NonceSize], ct[NonceSize..]).value) == Some(StateData(d.state, d.redirect))
  {
    var decoded := Base64.DecodeRaw(data);
    if decoded.None? then Decrypted("", "", Some(DecodeError))
    else if !ValidAesKey(key) then Decrypted("", "", Some(CipherError))
    else if |decoded.value| < NonceSize then Decrypted("", "", Some(TooShort))
    else
      var nonce, sealed := decoded.value[..NonceSize], decoded.value[NonceSize..];
      var plaintext := a.open(key, nonce, sealed);
      if plaintext.None? then Decrypted("", "", Some(AuthError))
      else
        var record := j.unmarshal(plaintext.value);
        if record.None? then Decrypted("", "", Some(UnmarshalError))
        else Decrypted(record.value.state, record.value.redirect, None)
  }

  /** Decrypting what was encrypted under the same key gives back the state and the redirect. */
  lemma DecryptEncrypt(a: Aead, j: Json, key: seq<byte>, state: string, redirect: string,
                       entropy: Option<seq<byte>>)
    requires OpenSeal(a) && JsonRoundTrip(j)
    requires ValidAesKey(key) && entropy.Some? && |entropy.value| >= NonceSize
    ensures Encrypt(a, j, key, state, redirect, entropy).err.None?
    ensures Decrypt(a, j, key, Encrypt(a, j, key, state, redirect, entropy).value) ==
            Decrypted(state, redirect, None)
  {
    var nonce := entropy.value[..NonceSize];
    var plaintext := j.marshal(StateData(state, redirect));
    var sealed := a.seal(key, nonce, plaintext);
    var ct := nonce + sealed;
    assert ct[..NonceSize] == nonce && ct[NonceSize..] == sealed;
    assert a.open(key, nonce, sealed) == Some(plaintext);
    assert j.unmarshal(plaintext) == Some(StateData(state, redirect));
  }

  /** The envelope starts with the nonce: the first NonceSize decoded octets are the random ones. */
  lemma EnvelopeStartsWithNonce(a: Aead, j: Json, key: seq<byte>, state: string, redirect: string,
                                entropy: Option<seq<byte>>)
    requires Encrypt(a, j, key, state, redirect, entropy).err.None?
    ensures Base64.DecodeRaw(Encrypt(a, j, key, state, redirect, entropy).value).Some?
    ensures var ct := Base64.DecodeRaw(Encrypt(a, j, key, state, redirect, entropy).value).value;
      |ct| >= NonceSize && ct[..NonceSize] == entropy.value[..NonceSize]
  {
  }

  /**
   * Under AEAD authenticity, an accepted cookie is a genuine sealed envelope:
   * its tail is Seal(key, nonce, p) for a plaintext p that decodes to the
   * returned record. Altered data, or data sealed under another key, is
   * rejected with no record.
   */
  lemma AcceptedIsSealed(a: Aead, j: Json, key: seq<byte>, data: string)
    requires OnlySealedOpens(a)
    requires Decrypt(a, j, key, data).err.None?
    ensures var ct := Base64.DecodeRaw(data).value;
      var d := Decrypt(a, j, key, data);
      exists p :: ct[NonceSize..] == a.seal(key, ct[..NonceSize], p) &&
                  j.unmarshal(p) == Some(StateData(d.state, d.redirect))
  {
    var ct := Base64.DecodeRaw(data).value;
    var p := a.open(key, ct[..NonceSize], ct[NonceSize..]).value;
    assert ct[NonceSize..] == a.seal(key, ct[..NonceSize], p);
  }

  /** A sealed envelope that fails authentication yields AuthError and no record. */
  lemma RejectsUnauthenticated(a: Aead, j: Json, key: seq<byte>, data: string)
    requires Base64.DecodeRaw(data).Some? && ValidAesKey(key)
    requires var ct := Base64.DecodeRaw(data).value;
      |ct| >= NonceSize && a.open(key, ct[..NonceSize], ct[NonceSize..]).None?
    ensures Decrypt(a, j, key, data) == Decrypted("", "", Some(AuthError))
  {
  }

  /** A plaintext that is not the JSON record yields UnmarshalError and no record. */
  lemma RejectsNonRecord(a: Aead, j: Json, key: seq<byte>, data: string)
    requires Base64.DecodeRaw(data).Some? && ValidAesKey(key)
    requires var ct := Base64.DecodeRaw(data).value;
      |ct| >= NonceSize && a.open(key, ct[..NonceSize], ct[NonceSize..]).Some? &&
      j.unmarshal(a.open(key, ct[..NonceSize], ct[NonceSize..]).value).None?
    ensures Decrypt(a, j, key, data) == Decrypted("", "", Some(UnmarshalError))
  {
  }

  /** A key of the wrong length makes both directions fail. */
  lemma BadKeyFailsBoth(a: Aead, j: Json, key: seq<byte>, state: string, redirect: string,
                        entropy: Option<seq<byte>>, data: string)
    requires !ValidAesKey(key)
    ensures Encrypt(a, j, key, state, redirect, entropy) == Encrypted("", Some(CipherError))
    ensures Decrypt(a, j, key, data).err.Some?
  {
  }

  /** Base64 is checked before the key: malformed input is a DecodeError whatever the key. */
  lemma DecodeCheckedFirst(a: Aead, j: Json, key: seq<byte>, data: string)
    requires exists i :: 0 <= i < |data| && data[i] == '='
    ensures Decrypt(a, j, key, data) == Decrypted("", "", Some(DecodeError))
  {
    var i :| 0 <= i < |data| && data[i] == '=';
    StripKeepsOther(data, i);
    var s := Base64.StripNewlines(data);
    var k :| 0 <= k < |s| && s[k] == '=';
    DecodeRejects(s, k);
  }

  /** A character other than '\r' and '\n' survives StripNewlines. */
  lemma {:induction false} StripKeepsOther(s: string, i: nat)
    requires i < |s| && s[i] != '\r' && s[i] != '\n'
    ensures exists k :: 0 <= k < |Base64.StripNewlines(s)| && Base64.StripNewlines(s)[k] == s[i]
  {
    var t := Base64.StripNewlines(s[1..]);
    if i == 0 {
      assert Base64.StripNewlines(s)[0] == s[0];
    } else {
      StripKeepsOther(s[1..], i - 1);
      var k :| 0 <= k < |t| && t[k] == s[1..][i - 1];
      if s[0] == '\r' || s[0] == '\n' {
        assert Base64.StripNewlines(s)[k] == s[i];
      } else {
        assert Base64.StripNewlines(s)[k + 1] == s[i];
      }
    }
  }

  /** A character outside the alphabet anywhere makes the decoder fail. */
  lemma {:induction false} DecodeRejects(s: string, k: nat)
    requires k < |s| && !Base64.IsUrlSafe(s[k])
    ensures Base64.DecodeGroups(s).None?
  {
    if |s| >= 4 && k >= 4 {
      DecodeRejects(s[4..], k - 4);
    }
  }
}
