/** Secrets at rest: the versioned ciphertext envelope and key rotation. */
module SecretCrypter {
  import opened Base64Url
  import opened Decimal
  import opened Domain
  import opened Text

  const SCHEME := "v1"
  const IV_BYTES := 12
  const TAG_BYTES := 16
  const KEY_BYTES := 32

  /** Ids are integers the host writes in plain decimal and reads back exactly. */
  type KeyId = n: nat | n < 0x20_0000_0000_0000

  type Ring = map<KeyId, Bytes>

  /** The authenticated cipher: `seal` gives tag and ciphertext, `open` fails on a bad tag. */
  datatype Aead = Aead(
    seal: (Bytes, Bytes, Bytes) -> (Bytes, Bytes),
    open: (Bytes, Bytes, Bytes, Bytes) -> Option<Bytes>)

  /** All that is assumed of it: opening undoes sealing under the same key and iv. */
  ghost predicate Inverts(aead: Aead) {
    forall key: Bytes, iv: Bytes, plain: Bytes ::
      var (tag, ct) := aead.seal(key, iv, plain);
      |tag| == TAG_BYTES && aead.open(key, iv, tag, ct) == Some(plain)
  }

  /** How the host reads a text that is not plain digits as an integer, if it does. */
  type OtherNumeral = string -> Option<int>

  datatype Error = NoKeys | KeyLength(id: KeyId) | BadEnvelope | UnknownKey(unknown: int) | NotAuthentic

  datatype Result<+T> = Ok(value: T) | Err(error: Error)

  // ---------------------------------------------------------------- the ring

  predicate IsGreatest(ids: set<KeyId>, m: KeyId) {
    m in ids && forall i :: i in ids ==> i <= m
  }

  lemma {:induction false} HasGreatest(ids: set<KeyId>) returns (m: KeyId)
    requires ids != {}
    ensures IsGreatest(ids, m)
    decreases |ids|
  {
    m :| m in ids;
    var rest := ids - {m};
    assert ids == rest + {m};
    if rest != {} {
      var r := HasGreatest(rest);
      m := if m < r then r else m;
    }
  }

  lemma SomeGreatest(ids: set<KeyId>)
    requires ids != {}
    ensures exists m :: IsGreatest(ids, m)
  {
    var m := HasGreatest(ids);
  }

  function Greatest(ids: set<KeyId>): (m: KeyId)
    requires ids != {}
    ensures m in ids && forall i :: i in ids ==> i <= m
  {
    SomeGreatest(ids);
    var m :| m in ids && IsGreatest(ids, m);
    m
  }

  /** A ring the constructor accepts. */
  predicate Usable(ring: Ring) {
    ring != map[] && forall id :: id in ring ==> |ring[id]| == KEY_BYTES
  }

  datatype Crypter = Crypter(keys: Ring, currentKeyId: KeyId)

  /** The constructor; of several keys of a wrong length it names one. */
  function Create(keys: Ring): (r: Result<Crypter>)
    ensures r.Ok? <==> Usable(keys)
    ensures r.Ok? ==> r.value.keys == keys && r.value.currentKeyId in keys
                      && forall id :: id in keys ==> id <= r.value.currentKeyId
    ensures keys == map[] ==> r == Err(NoKeys)
    ensures r.Err? && keys != map[] ==>
              r.error.KeyLength? && r.error.id in keys && |keys[r.error.id]| != KEY_BYTES
  {
    if keys == map[] then Err(NoKeys)
    else
      var short := set id | id in keys && |keys[id]| != KEY_BYTES;
      assert forall id :: id in keys && |keys[id]| != KEY_BYTES ==> id in short;
      if short != {} then Err(KeyLength(Greatest(short))) else Ok(Crypter(keys, Greatest(keys.Keys)))
  }

  ghost predicate Valid(c: Crypter) {
    Create(c.keys) == Ok(c)
  }

  // ---------------------------------------------------------------- the envelope

  function Envelope(id: KeyId, payload: Bytes): string {
    SCHEME + "." + ToDecimal(id) + "." + Encode(payload)
  }

  function KeyFor(c: Crypter, id: int): Result<Bytes> {
    if 0 <= id < 0x20_0000_0000_0000 && id in c.keys then Ok(c.keys[id]) else Err(UnknownKey(id))
  }

  function ReadId(other: OtherNumeral, raw: string): Option<int> {
    if raw != [] && AllDigits(raw) then Some(FromDecimal(raw)) else other(raw)
  }

  /** `iv` is the random initialisation vector. */
  function Encrypt(aead: Aead, c: Crypter, iv: Bytes, plain: Bytes): string
    requires Valid(c) && |iv| == IV_BYTES
  {
    var (tag, ct) := aead.seal(c.keys[c.currentKeyId], iv, plain);
    Envelope(c.currentKeyId, iv + tag + ct)
  }

  function Decrypt(aead: Aead, other: OtherNumeral, c: Crypter, cryptogram: string): Result<Bytes> {
    var parts := Split(cryptogram, '.');
    if |parts| < 3 || parts[0] != SCHEME then Err(BadEnvelope)
    else
      var id := ReadId(other, parts[1]);
      var envelope := Decode(parts[2]);
      if id.None? || |envelope| < IV_BYTES + TAG_BYTES then Err(BadEnvelope)
      else
        match KeyFor(c, id.value)
        case Err(e) => Err(e)
        case Ok(key) =>
          match aead.open(key, envelope[..IV_BYTES], envelope[IV_BYTES..IV_BYTES + TAG_BYTES],
                          envelope[IV_BYTES + TAG_BYTES..])
          case None => Err(NotAuthentic)
          case Some(plain) => Ok(plain)
  }

  function Rotate(aead: Aead, other: OtherNumeral, c: Crypter, iv: Bytes, cryptogram: string): Result<string>
    requires Valid(c) && |iv| == IV_BYTES
  {
    match Decrypt(aead, other, c, cryptogram)
    case Ok(plain) => Ok(Encrypt(aead, c, iv, plain))
    case Err(e) => Err(e)
  }

  // ---------------------------------------------------------------- reading an envelope

  /** The split on dots is unambiguous: it gives back the scheme, the id and the payload. */
  lemma EnvelopeParts(id: KeyId, payload: Bytes)
    ensures Split(Envelope(id, payload), '.') == [SCHEME, ToDecimal(id), Encode(payload)]
    ensures FromDecimal(ToDecimal(id)) == id && Decode(Encode(payload)) == payload
  {
    NoDots(Sextets(payload));
    ReadBack(id);
    DecodeEncode(payload);
    var number, body := ToDecimal(id), Encode(payload);
    assert '.' !in body;
    hide ToDecimal, Encode, Decode;
    assert Envelope(id, payload) == SCHEME + ['.'] + (number + ['.'] + body);
    SplitAt(SCHEME, number + ['.'] + body, '.');
    SplitAt(number, body, '.');
    SplitOne(body, '.');
    assert [SCHEME] + ([number] + [body]) == [SCHEME, number, body];
  }

  /** So no two envelopes are written alike. */
  lemma EnvelopeIsInjective(a: KeyId, p: Bytes, b: KeyId, q: Bytes)
    requires Envelope(a, p) == Envelope(b, q)
    ensures a == b && p == q
  {
    EnvelopeParts(a, p);
    EnvelopeParts(b, q);
    hide Envelope, ToDecimal, Encode, Decode, FromDecimal, Split;
    assert [SCHEME, ToDecimal(a), Encode(p)][1] == [SCHEME, ToDecimal(b), Encode(q)][1];
    assert [SCHEME, ToDecimal(a), Encode(p)][2] == [SCHEME, ToDecimal(b), Encode(q)][2];
  }

  /** Some crypter wrote the cryptogram for `plain` under key `id` of `keys`. */
  ghost predicate Written(aead: Aead, keys: Ring, id: KeyId, cryptogram: string, plain: Bytes) {
    && id in keys
    && exists iv: Bytes :: |iv| == IV_BYTES && IsSealed(aead, keys[id], iv, id, cryptogram, plain)
  }

  ghost predicate IsSealed(aead: Aead, key: Bytes, iv: Bytes, id: KeyId, cryptogram: string, plain: Bytes) {
    cryptogram == Envelope(id, iv + aead.seal(key, iv, plain).0 + aead.seal(key, iv, plain).1)
  }

  /** What any crypter makes of an envelope written under `key`: the plaintext if it has that very
      key at that id, otherwise an unknown-key error, or whatever opening with another key gives. */
  lemma DecryptOfSealed(aead: Aead, other: OtherNumeral, c: Crypter, key: Bytes, iv: Bytes, id: KeyId,
                        cryptogram: string, plain: Bytes)
    requires Inverts(aead) && |iv| == IV_BYTES && IsSealed(aead, key, iv, id, cryptogram, plain)
    ensures id !in c.keys ==> Decrypt(aead, other, c, cryptogram) == Err(UnknownKey(id))
    ensures id in c.keys && c.keys[id] == key ==> Decrypt(aead, other, c, cryptogram) == Ok(plain)
  {
    var (tag, ct) := aead.seal(key, iv, plain);
    assert |tag| == TAG_BYTES && aead.open(key, iv, tag, ct) == Some(plain);
    var envelope := iv + tag + ct;
    EnvelopeParts(id, envelope);
    hide Envelope, Split, ToDecimal, FromDecimal, Encode, Decode, Inverts;
    assert envelope[..IV_BYTES] == iv;
    assert envelope[IV_BYTES..IV_BYTES + TAG_BYTES] == tag;
    assert envelope[IV_BYTES + TAG_BYTES..] == ct;
  }

  /** Encryption writes under the highest id of the ring. */
  lemma EncryptWritesUnderHighest(aead: Aead, c: Crypter, iv: Bytes, plain: Bytes)
    requires Valid(c) && |iv| == IV_BYTES
    ensures Written(aead, c.keys, c.currentKeyId, Encrypt(aead, c, iv, plain), plain)
    ensures forall id :: id in c.keys ==> id <= c.currentKeyId
  {
    assert IsSealed(aead, c.keys[c.currentKeyId], iv, c.currentKeyId, Encrypt(aead, c, iv, plain), plain);
  }

  /** The three parts of what is written: the scheme, the highest key id of the ring in decimal, and
      iv, tag and ciphertext in this order. */
  lemma EncryptWritesParts(aead: Aead, c: Crypter, iv: Bytes, plain: Bytes)
    requires Valid(c) && |iv| == IV_BYTES
    ensures var (tag, ct) := aead.seal(c.keys[c.currentKeyId], iv, plain);
            Split(Encrypt(aead, c, iv, plain), '.') == ["v1", ToDecimal(c.currentKeyId), Encode(iv + tag + ct)]
  {
    var (tag, ct) := aead.seal(c.keys[c.currentKeyId], iv, plain);
    EnvelopeParts(c.currentKeyId, iv + tag + ct);
  }

  /** The parts of a cryptogram name a key of the ring, and the cipher opens the payload under that
      key as iv, tag and ciphertext. */
  ghost predicate Authentic(aead: Aead, other: OtherNumeral, c: Crypter, parts: seq<string>,
                            iv: Bytes, tag: Bytes, ct: Bytes, plain: Bytes)
  {
    && |parts| >= 3 && parts[0] == "v1"
    && |iv| == 12 && |tag| == 16 && Decode(parts[2]) == iv + tag + ct
    && match ReadId(other, parts[1])
       case Some(id) => 0 <= id < 0x20_0000_0000_0000 && id in c.keys && aead.open(c.keys[id], iv, tag, ct) == Some(plain)
       case None => false
  }

  /** Whatever the text: it decrypts to a plaintext if and only if the cipher opens it as that. */
  lemma OnlyAuthenticDecrypts(aead: Aead, other: OtherNumeral, c: Crypter, cryptogram: string, plain: Bytes)
    ensures Decrypt(aead, other, c, cryptogram) == Ok(plain) <==>
            exists iv, tag, ct :: Authentic(aead, other, c, Split(cryptogram, '.'), iv, tag, ct, plain)
  {
    var parts := Split(cryptogram, '.');
    hide ReadId, Decode, Split;
    if Decrypt(aead, other, c, cryptogram) == Ok(plain) {
      var e := Decode(parts[2]);
      assert e == e[..12] + e[12..28] + e[28..];
      assert Authentic(aead, other, c, parts, e[..12], e[12..28], e[28..], plain);
    }
    if iv, tag, ct :| Authentic(aead, other, c, parts, iv, tag, ct, plain) {
      ThreeParts(iv, tag, ct);
      assert parts[0] == SCHEME;
    }
  }

  lemma ThreeParts(iv: Bytes, tag: Bytes, ct: Bytes)
    requires |iv| == 12 && |tag| == 16
    ensures var e := iv + tag + ct; e[..12] == iv && e[12..28] == tag && e[28..] == ct
  {
  }

  /** Every key of the smaller ring is in the larger, unchanged. */
  ghost predicate Grows(ring: Ring, larger: Ring) {
    forall id :: id in ring ==> id in larger && larger[id] == ring[id]
  }

  /** The round trip survives the growth of the ring. */
  lemma DecryptAfterGrowth(aead: Aead, other: OtherNumeral, keys: Ring, id: KeyId, c: Crypter, cryptogram: string, plain: Bytes)
    requires Inverts(aead) && Grows(keys, c.keys) && Written(aead, keys, id, cryptogram, plain)
    ensures Decrypt(aead, other, c, cryptogram) == Ok(plain)
    ensures Written(aead, c.keys, id, cryptogram, plain)
  {
    var iv: Bytes :| |iv| == IV_BYTES && IsSealed(aead, keys[id], iv, id, cryptogram, plain);
    DecryptOfSealed(aead, other, c, keys[id], iv, id, cryptogram, plain);
  }

  // ---------------------------------------------------------------- a secret's whole life

  /** The ring is replaced by a grown one, or the stored secret is rewritten. */
  datatype Step = Grow(c: Crypter) | Rewrite(iv: Bytes)

  datatype Stored = Stored(c: Crypter, cryptogram: string, writtenUnder: KeyId)

  ghost predicate StepOk(s: Stored, step: Step) {
    match step
    case Grow(c) => Valid(c) && Grows(s.c.keys, c.keys)
    case Rewrite(iv) => |iv| == IV_BYTES
  }

  function Live(aead: Aead, other: OtherNumeral, s: Stored, step: Step): Stored
    requires Valid(s.c) && StepOk(s, step)
  {
    match step
    case Grow(c) => s.(c := c)
    case Rewrite(iv) =>
      match Rotate(aead, other, s.c, iv, s.cryptogram)
      case Ok(rewritten) => s.(cryptogram := rewritten, writtenUnder := s.c.currentKeyId)
      case Err(_) => s
  }

  ghost predicate IsLife(aead: Aead, other: OtherNumeral, lives: seq<Stored>, steps: seq<Step>) {
    && |lives| == |steps| + 1
    && Valid(lives[0].c)
    && forall i :: 0 <= i < |steps| ==>
         Valid(lives[i].c) && StepOk(lives[i], steps[i]) && lives[i + 1] == Live(aead, other, lives[i], steps[i])
  }

  lemma StepKeepsSecret(aead: Aead, other: OtherNumeral, s: Stored, step: Step, plain: Bytes)
    requires Inverts(aead) && Valid(s.c) && StepOk(s, step)
    requires Written(aead, s.c.keys, s.writtenUnder, s.cryptogram, plain)
    ensures var t := Live(aead, other, s, step);
            && Valid(t.c) && Written(aead, t.c.keys, t.writtenUnder, t.cryptogram, plain)
            && (step.Rewrite? ==> t.writtenUnder == t.c.currentKeyId)
  {
    hide Decrypt, Encrypt, IsSealed, Inverts, Valid;
    match step {
      case Grow(c) => DecryptAfterGrowth(aead, other, s.c.keys, s.writtenUnder, c, s.cryptogram, plain);
      case Rewrite(iv) =>
        DecryptAfterGrowth(aead, other, s.c.keys, s.writtenUnder, s.c, s.cryptogram, plain);
        EncryptWritesUnderHighest(aead, s.c, iv, plain);
    }
  }

  /** Over any sequence of ring growths and rewritings, a secret stays readable as the same
      plaintext, and right after a rewriting it is stored under the highest id of the ring. */
  lemma {:induction false} SecretSurvives(aead: Aead, other: OtherNumeral, lives: seq<Stored>, steps: seq<Step>,
                                          plain: Bytes, n: nat)
    requires Inverts(aead) && IsLife(aead, other, lives, steps) && n < |lives|
    requires Written(aead, lives[0].c.keys, lives[0].writtenUnder, lives[0].cryptogram, plain)
    ensures Decrypt(aead, other, lives[n].c, lives[n].cryptogram) == Ok(plain)
    ensures Valid(lives[n].c) && Written(aead, lives[n].c.keys, lives[n].writtenUnder, lives[n].cryptogram, plain)
    ensures n > 0 && steps[n - 1].Rewrite? ==>
              lives[n].writtenUnder == lives[n].c.currentKeyId
              && forall id :: id in lives[n].c.keys ==> id <= lives[n].writtenUnder
  {
    if n > 0 {
      SecretSurvives(aead, other, lives, steps, plain, n - 1);
      assert lives[n - 1 + 1] == Live(aead, other, lives[n - 1], steps[n - 1]);
      StepKeepsSecret(aead, other, lives[n - 1], steps[n - 1], plain);
    }
    hide Decrypt, Written, Live;
    DecryptAfterGrowth(aead, other, lives[n].c.keys, lives[n].writtenUnder, lives[n].c, lives[n].cryptogram, plain);
  }
}
