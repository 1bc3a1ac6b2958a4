/** Baseline encryption: a passphrase-derived key kept in memory, the
    enabled/locked state machine around it, and the two blob layouts (the
    HMAC fallback `'HMAC' ‖ mac ‖ plaintext` and the AEAD `nonce ‖ ciphertext`). */
module Crypto {
  import opened Text

  newtype byte = x: int | 0 <= x < 256

  type Bytes = seq<byte>

  /** The cryptographic library, uninterpreted: PBKDF2-HMAC-SHA256 (100000
      rounds, 32 bytes), SHA-256, and AES-GCM sealing and opening, where
      `open` gives `None` for a ciphertext that fails authentication. */
  datatype Primitives = Primitives(
    kdf: (string, Bytes) -> Bytes,
    sha256: Bytes -> Bytes,
    seal: (Bytes, Bytes, Bytes) -> Bytes,
    open: (Bytes, Bytes, Bytes) -> Option<Bytes>)

  /** The stored configuration: whether encryption is on, the salt, and the
      hex digest of SHA-256 of the derived key. */
  datatype Config = Config(enabled: bool, salt: Option<Bytes>, verificationHash: Option<string>)

  const DisabledConfig := Config(false, None, None)

  const MinPassphrase := 8
  const SaltLength := 32
  const NonceLength := 12
  const MacLength := 32

  /** The outcome of `encrypt` and `decrypt`: a value, or the RuntimeError
      raised while no key is held. */
  datatype Outcome<T> = Done(value: T) | NotUnlocked

  // ------------------------------------------------------------ hex digests

  function HexDigit(n: nat): (c: char)
    requires n < 16
    ensures ('0' <= c <= '9') || ('a' <= c <= 'f')
  {
    if n < 10 then ('0' as int + n) as char else ('a' as int + n - 10) as char
  }

  /** `bytes.hex()`: two lower-case hex digits per byte. */
  function Hex(bs: Bytes): (s: string)
    ensures |s| == 2 * |bs|
  {
    if bs == [] then []
    else [HexDigit(bs[0] as int / 16), HexDigit(bs[0] as int % 16)] + Hex(bs[1..])
  }

  /** Different digests have different hex texts, so comparing hex digests
      compares the digests themselves. */
  lemma {:induction false} HexInjective(a: Bytes, b: Bytes)
    requires Hex(a) == Hex(b)
    ensures a == b
  {
    if a != [] {
      var ha, hb := Hex(a), Hex(b);
      assert ha[0] == hb[0] && ha[1] == hb[1];
      assert a[0] as int / 16 == b[0] as int / 16;
      assert a[0] as int % 16 == b[0] as int % 16;
      assert Hex(a[1..]) == ha[2..] == hb[2..] == Hex(b[1..]);
      HexInjective(a[1..], b[1..]);
    }
  }

  // ------------------------------------------------------------ blob layouts

  /** `b'HMAC'`. */
  const HmacTag: Bytes := [72, 77, 65, 67]

  /** `raw[n:]`, empty past the end. */
  function Drop(s: Bytes, n: nat): (r: Bytes)
    ensures |r| == if n < |s| then |s| - n else 0
  {
    if n < |s| then s[n..] else []
  }

  /** The fallback layout: tag, then SHA-256 of key and plaintext, then the plaintext. */
  function HmacBlob(p: Primitives, key: Bytes, plaintext: Bytes): Bytes {
    HmacTag + p.sha256(key + plaintext) + plaintext
  }

  /** The AEAD layout: the nonce, then the sealed plaintext. */
  function AeadBlob(p: Primitives, key: Bytes, nonce: Bytes, plaintext: Bytes): Bytes {
    nonce + p.seal(key, nonce, plaintext)
  }

  /** What `encrypt` writes: the fallback layout without the library, the
      AEAD layout with it. */
  function Sealed(p: Primitives, hasCrypto: bool, key: Bytes, nonce: Bytes, plaintext: Bytes): Bytes {
    if hasCrypto then AeadBlob(p, key, nonce, plaintext) else HmacBlob(p, key, plaintext)
  }

  /** Reading the fallback layout: the mac at offsets 4 to 36, the plaintext
      from 36, and `None` when the mac does not match. */
  function HmacOpen(p: Primitives, key: Bytes, raw: Bytes): Option<Bytes> {
    var mac := Take(Drop(raw, 4), MacLength);
    var plaintext := Drop(raw, 4 + MacLength);
    if mac != p.sha256(key + plaintext) then None else Some(plaintext)
  }

  /** Reading the AEAD layout: the nonce is the first 12 bytes. */
  function AeadOpen(p: Primitives, key: Bytes, raw: Bytes): Option<Bytes> {
    p.open(key, Take(raw, NonceLength), Drop(raw, NonceLength))
  }

  /** `decrypt` as written: the fallback layout is recognised by its tag in
      every mode, before the AEAD layout is tried. */
  function OpenedAsWritten(p: Primitives, hasCrypto: bool, key: Bytes, raw: Bytes): Option<Bytes> {
    if Take(raw, 4) == HmacTag then HmacOpen(p, key, raw)
    else if !hasCrypto then None
    else AeadOpen(p, key, raw)
  }

  /** `decrypt` corrected: with the library the AEAD layout is tried first
      and the fallback layout only when the AEAD opening rejects the blob;
      without it only the fallback layout is read. */
  function Opened(p: Primitives, hasCrypto: bool, key: Bytes, raw: Bytes): Option<Bytes> {
    if hasCrypto && AeadOpen(p, key, raw).Some? then AeadOpen(p, key, raw)
    else if Take(raw, 4) == HmacTag then HmacOpen(p, key, raw)
    else None
  }

  /** The corrected reading differs from the code as written only on a blob
      that carries the fallback tag, in AEAD mode, and that the AEAD opening
      accepts. */
  lemma OpenedAgreesAsWritten(p: Primitives, hasCrypto: bool, key: Bytes, raw: Bytes)
    ensures Opened(p, hasCrypto, key, raw) != OpenedAsWritten(p, hasCrypto, key, raw) ==>
              hasCrypto && Take(raw, 4) == HmacTag && AeadOpen(p, key, raw).Some?
    ensures Take(raw, 4) != HmacTag ==> Opened(p, hasCrypto, key, raw) == OpenedAsWritten(p, hasCrypto, key, raw)
    ensures !hasCrypto ==> Opened(p, hasCrypto, key, raw) == OpenedAsWritten(p, hasCrypto, key, raw)
  {
  }

  /** Parsing a fallback blob at offsets 4 and 36 gives back its mac and its
      plaintext, so a blob whose mac does not match opens to nothing. */
  lemma HmacLayout(p: Primitives, key: Bytes, mac: Bytes, plaintext: Bytes)
    requires |mac| == MacLength
    ensures var raw := HmacTag + mac + plaintext;
            Take(raw, 4) == HmacTag && Take(Drop(raw, 4), MacLength) == mac &&
            Drop(raw, 4 + MacLength) == plaintext &&
            (HmacOpen(p, key, raw) == if mac == p.sha256(key + plaintext) then Some(plaintext) else None)
  {
    var raw := HmacTag + mac + plaintext;
    assert Drop(raw, 4) == mac + plaintext;
    assert Take(mac + plaintext, MacLength) == mac;
    assert Drop(raw, 4 + MacLength) == plaintext;
  }

  /** The fallback round trip: with a 32-byte digest, reading back what was
      written gives the plaintext, in either mode of the code as written. */
  lemma HmacRoundTrip(p: Primitives, hasCrypto: bool, key: Bytes, plaintext: Bytes)
    requires |p.sha256(key + plaintext)| == MacLength
    ensures OpenedAsWritten(p, hasCrypto, key, HmacBlob(p, key, plaintext)) == Some(plaintext)
    ensures Opened(p, false, key, HmacBlob(p, key, plaintext)) == Some(plaintext)
  {
    HmacLayout(p, key, p.sha256(key + plaintext), plaintext);
  }

  /** A valid fallback blob, written before the library was installed, still
      opens in both modes of the corrected reading, as long as the AEAD
      opening rejects it (which authenticated encryption does for anything
      it did not seal). */
  lemma FallbackOpensInBothModes(p: Primitives, hasCrypto: bool, key: Bytes, plaintext: Bytes)
    requires |p.sha256(key + plaintext)| == MacLength
    requires AeadOpen(p, key, HmacBlob(p, key, plaintext)).None?
    ensures Opened(p, hasCrypto, key, HmacBlob(p, key, plaintext)) == Some(plaintext)
  {
    HmacLayout(p, key, p.sha256(key + plaintext), plaintext);
  }

  /** Changing the mac of a fallback blob makes it unreadable. */
  lemma HmacTamperDetected(p: Primitives, hasCrypto: bool, key: Bytes, mac: Bytes, plaintext: Bytes)
    requires |mac| == MacLength && mac != p.sha256(key + plaintext)
    ensures OpenedAsWritten(p, hasCrypto, key, HmacTag + mac + plaintext).None?
    ensures Opened(p, false, key, HmacTag + mac + plaintext).None?
    ensures AeadOpen(p, key, HmacTag + mac + plaintext).None? ==> Opened(p, true, key, HmacTag + mac + plaintext).None?
  {
    HmacLayout(p, key, mac, plaintext);
  }

  /** The AEAD round trip: when opening undoes sealing, reading back a blob
      written in AEAD mode gives the plaintext. */
  lemma AeadRoundTrip(p: Primitives, key: Bytes, nonce: Bytes, plaintext: Bytes)
    requires |nonce| == NonceLength
    requires p.open(key, nonce, p.seal(key, nonce, plaintext)) == Some(plaintext)
    ensures Opened(p, true, key, Sealed(p, true, key, nonce, plaintext)) == Some(plaintext)
    ensures Take(nonce, 4) != HmacTag ==>
              OpenedAsWritten(p, true, key, Sealed(p, true, key, nonce, plaintext)) == Some(plaintext)
  {
    var raw := AeadBlob(p, key, nonce, plaintext);
    assert Take(raw, NonceLength) == nonce;
    assert Drop(raw, NonceLength) == p.seal(key, nonce, plaintext);
    assert Take(raw, 4) == Take(nonce, 4);
  }

  /** Both layouts read back in the mode that wrote them. */
  lemma RoundTrip(p: Primitives, hasCrypto: bool, key: Bytes, nonce: Bytes, plaintext: Bytes)
    requires |nonce| == NonceLength
    requires !hasCrypto ==> |p.sha256(key + plaintext)| == MacLength
    requires hasCrypto ==> p.open(key, nonce, p.seal(key, nonce, plaintext)) == Some(plaintext)
    ensures Opened(p, hasCrypto, key, Sealed(p, hasCrypto, key, nonce, plaintext)) == Some(plaintext)
  {
    if hasCrypto {
      AeadRoundTrip(p, key, nonce, plaintext);
    } else {
      HmacRoundTrip(p, hasCrypto, key, plaintext);
    }
  }

  /** As written, an AEAD blob whose random nonce starts with the bytes of
      "HMAC" is read as a fallback blob, and the AEAD opening is never tried. */
  lemma AeadNonceMisread(p: Primitives, key: Bytes, nonce: Bytes, plaintext: Bytes)
    requires |nonce| == NonceLength && Take(nonce, 4) == HmacTag
    ensures OpenedAsWritten(p, true, key, Sealed(p, true, key, nonce, plaintext))
            == HmacOpen(p, key, Sealed(p, true, key, nonce, plaintext))
  {
    var raw := AeadBlob(p, key, nonce, plaintext);
    assert Take(raw, 4) == Take(nonce, 4);
  }

  /** A toy library whose opening does undo its sealing: sealing appends a
      16-byte tag of zeros, and every digest is 32 zeros. */
  function ZeroBytes(n: nat): (r: Bytes)
    ensures |r| == n && forall i :: 0 <= i < n ==> r[i] == 0
  {
    if n == 0 then [] else [0] + ZeroBytes(n - 1)
  }

  function ToySeal(key: Bytes, nonce: Bytes, plaintext: Bytes): Bytes {
    plaintext + ZeroBytes(16)
  }

  function ToyOpen(key: Bytes, nonce: Bytes, ciphertext: Bytes): Option<Bytes> {
    if |ciphertext| >= 16 then Some(ciphertext[..|ciphertext| - 16]) else None
  }

  const Toy := Primitives((s: string, salt: Bytes) => salt, (x: Bytes) => ZeroBytes(32), ToySeal, ToyOpen)

  /** With that library and the nonce `HMAC` followed by eight ones, the code
      as written cannot read back what it wrote, although the opening undoes
      the sealing; the corrected reading can. */
  lemma AeadRoundTripFails()
    ensures var nonce: Bytes := HmacTag + [1, 1, 1, 1, 1, 1, 1, 1];
            var blob := Sealed(Toy, true, [], nonce, []);
            Toy.open([], nonce, Toy.seal([], nonce, [])) == Some([]) &&
            OpenedAsWritten(Toy, true, [], blob) == None &&
            Opened(Toy, true, [], blob) == Some([])
  {
    var nonce: Bytes := HmacTag + [1, 1, 1, 1, 1, 1, 1, 1];
    var blob := Sealed(Toy, true, [], nonce, []);
    assert blob == nonce + ZeroBytes(16);
    assert Take(blob, 4) == HmacTag;
    var mac := Take(Drop(blob, 4), MacLength);
    assert mac[0] == 1;
    assert Toy.sha256([] + Drop(blob, 4 + MacLength))[0] == 0;
    AeadRoundTrip(Toy, [], nonce, []);
  }

  // ------------------------------------------------------------ the state machine

  /** Whether a held key lets `encrypt` and `decrypt` run (`if not self._derived_key`). */
  predicate KeyUsable(key: Option<Bytes>) {
    key.Some? && key.value != []
  }

  /** The component; the configuration file's contents are its `config` field,
      and loading it from disk is not modelled. */
  class BaselineEncryption {
    const prims: Primitives
    const hasCrypto: bool
    var config: Config
    var derivedKey: Option<Bytes>

    /** An enabled config has a salt and a digest; a disabled one holds no key;
      a held key always matches the stored digest. */
    ghost predicate Valid()
      reads this
    {
      (config.enabled ==> config.salt.Some? && config.verificationHash.Some?) &&
      (derivedKey.Some? ==> config.enabled && config.verificationHash == Some(Hex(prims.sha256(derivedKey.value))))
    }

    /** A component with the default, disabled config. */
    constructor(prims: Primitives, hasCrypto: bool)
      ensures Valid()
      ensures this.prims == prims && this.hasCrypto == hasCrypto
      ensures config == DisabledConfig && derivedKey.None?
    {
      this.prims := prims;
      this.hasCrypto := hasCrypto;
      config := DisabledConfig;
      derivedKey := None;
    }

    function IsEnabled(): bool
      reads this
    {
      config.enabled
    }

    function IsUnlocked(): bool
      reads this
    {
      derivedKey.Some?
    }

    /** `setup`, with the fresh 32-byte salt as a parameter. */
    method Setup(passphrase: string, salt: Bytes) returns (ok: bool)
      requires Valid() && |salt| == SaltLength
      modifies this
      ensures Valid()
      ensures ok <==> |passphrase| >= MinPassphrase
      ensures !ok ==> config == old(config) && derivedKey == old(derivedKey)
      ensures ok ==> var key := prims.kdf(passphrase, salt);
                     config == Config(true, Some(salt), Some(Hex(prims.sha256(key)))) &&
                     derivedKey == Some(key) && IsEnabled() && IsUnlocked()
    {
      if passphrase == "" || |passphrase| < MinPassphrase {
        return false;
      }
      var key := prims.kdf(passphrase, salt);
      var verification := Hex(prims.sha256(key));
      config := Config(true, Some(salt), Some(verification));
      derivedKey := Some(key);
      return true;
    }

    /** `unlock`: a disabled component reports success and holds no key; an
      enabled one takes the derived key exactly when its digest matches. */
    method Unlock(passphrase: string) returns (ok: bool)
      requires Valid()
      modifies this
      ensures Valid() && config == old(config)
      ensures !config.enabled ==> ok && derivedKey == old(derivedKey) && !IsUnlocked()
      ensures config.enabled ==>
                var key := prims.kdf(passphrase, config.salt.value);
                (ok <==> Some(Hex(prims.sha256(key))) == config.verificationHash) &&
                (ok ==> derivedKey == Some(key)) &&
                (!ok ==> derivedKey == old(derivedKey))
    {
      if !config.enabled {
        return true;
      }
      var key := prims.kdf(passphrase, config.salt.value);
      var verification := Hex(prims.sha256(key));
      if Some(verification) != config.verificationHash {
        return false;
      }
      derivedKey := Some(key);
      return true;
    }

    /** `lock`: only the key is dropped. */
    method Lock()
      requires Valid()
      modifies this
      ensures Valid() && config == old(config) && derivedKey.None?
    {
      derivedKey := None;
    }

    /** `disable`: the default config, and no key. */
    method Disable()
      modifies this
      ensures Valid() && config == DisabledConfig && derivedKey.None?
    {
      config := DisabledConfig;
      derivedKey := None;
    }

    /** `encrypt`, with the fresh 12-byte nonce as a parameter. */
    method Encrypt(plaintext: Bytes, nonce: Bytes) returns (r: Outcome<Bytes>)
      requires |nonce| == NonceLength
      ensures r == if KeyUsable(derivedKey) then Done(Sealed(prims, hasCrypto, derivedKey.value, nonce, plaintext))
                   else NotUnlocked
    {
      if derivedKey.None? || derivedKey.value == [] {
        return NotUnlocked;
      }
      var key := derivedKey.value;
      if !hasCrypto {
        var mac := prims.sha256(key + plaintext);
        return Done(HmacTag + mac + plaintext);
      }
      var ciphertext := prims.seal(key, nonce, plaintext);
      return Done(nonce + ciphertext);
    }

    /** `decrypt` as written: fails only while no usable key is held;
      otherwise every failure inside is `None`, and the result agrees with
      the corrected reading except on a tagged blob the AEAD opening accepts. */
    method Decrypt(raw: Bytes) returns (r: Outcome<Option<Bytes>>)
      ensures r == if KeyUsable(derivedKey) then Done(OpenedAsWritten(prims, hasCrypto, derivedKey.value, raw))
                   else NotUnlocked
      ensures KeyUsable(derivedKey) ==> r.Done?
      ensures KeyUsable(derivedKey) && r != Done(Opened(prims, hasCrypto, derivedKey.value, raw)) ==>
                hasCrypto && Take(raw, 4) == HmacTag && AeadOpen(prims, derivedKey.value, raw).Some?
    {
      if derivedKey.None? || derivedKey.value == [] {
        return NotUnlocked;
      }
      var key := derivedKey.value;
      OpenedAgreesAsWritten(prims, hasCrypto, key, raw);
      if Take(raw, 4) == HmacTag {
        var mac := Take(Drop(raw, 4), MacLength);
        var plaintext := Drop(raw, 4 + MacLength);
        if mac != prims.sha256(key + plaintext) {
          return Done(None);
        }
        return Done(Some(plaintext));
      }
      if !hasCrypto {
        return Done(None);
      }
      var nonce := Take(raw, NonceLength);
      var ciphertext := Drop(raw, NonceLength);
      return Done(prims.open(key, nonce, ciphertext));
    }
  }

  /** After `setup` and `lock`, encrypting fails; unlocking with the same
      passphrase succeeds again, and a passphrase whose key has another digest
      is refused. */
  method SetupLockUnlock(e: BaselineEncryption, passphrase: string, other: string, salt: Bytes, nonce: Bytes)
    returns (locked: Outcome<Bytes>, wrong: bool, right: bool)
    requires e.Valid() && |salt| == SaltLength && |nonce| == NonceLength && |passphrase| >= MinPassphrase
    requires e.prims.sha256(e.prims.kdf(other, salt)) != e.prims.sha256(e.prims.kdf(passphrase, salt))
    modifies e
    ensures locked == NotUnlocked && !wrong && right && e.IsUnlocked()
  {
    var ok := e.Setup(passphrase, salt);
    e.Lock();
    locked := e.Encrypt([], nonce);
    wrong := e.Unlock(other);
    if wrong {
      HexInjective(e.prims.sha256(e.prims.kdf(other, salt)), e.prims.sha256(e.prims.kdf(passphrase, salt)));
    }
    right := e.Unlock(passphrase);
  }

  /** Unlocking a disabled component succeeds but leaves it locked. */
  method UnlockDisabled(e: BaselineEncryption, passphrase: string) returns (ok: bool)
    requires e.Valid()
    modifies e
    ensures ok && !e.IsUnlocked() && !e.IsEnabled()
  {
    e.Disable();
    ok := e.Unlock(passphrase);
  }
}
