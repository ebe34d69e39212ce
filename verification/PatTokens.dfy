/**
 Personal access tokens: `Mint` and `JWKS` of the PAT issuer, with key rotations in between.

 JSON is a parameter with its inverse; the signature scheme is a parameter with its correctness.
 The Transit key is an append-only list of versions.
 */
module PatTokens {
  import opened Words
  import opened Outcomes
  import opened Base64
  import Signatures

  datatype Header = Header(alg: string, typ: string, kid: string)

  datatype Json = Json(marshal: Header -> Bytes, unmarshal: Bytes -> Option<Header>)

  ghost predicate Invertible(j: Json) {
    forall h :: j.unmarshal(j.marshal(h)) == Some(h)
  }

  /** A token carries the bytes of its signature. */
  type Scheme = Signatures.Scheme<Bytes>

  /** The secrets of versions 1, 2, ...; an empty list is a key that does not exist yet. */
  type Versions = seq<string>

  // ---------- decimal key ids ----------

  /** `strconv.Itoa` for version numbers. */
  function Itoa(n: nat): (s: string)
    ensures s != ""
  {
    if n < 10 then [('0' as int + n) as char]
    else Itoa(n / 10) + [('0' as int + n % 10) as char]
  }

  function Atoi(s: string): (n: int) {
    if s == "" then 0 else 10 * Atoi(s[..|s| - 1]) + (s[|s| - 1] as int - '0' as int)
  }

  lemma {:induction false} ItoaRoundTrip(n: nat)
    ensures Atoi(Itoa(n)) == n
    ensures forall i :: 0 <= i < |Itoa(n)| ==> '0' <= Itoa(n)[i] <= '9'
  {
    if n < 10 {
      assert Atoi(Itoa(n)) == 10 * Atoi("") + n;
    } else {
      ItoaRoundTrip(n / 10);
      assert Itoa(n)[..|Itoa(n)| - 1] == Itoa(n / 10);
    }
  }

  /** Different versions have different key ids. */
  lemma ItoaInjective(m: nat, n: nat)
    requires Itoa(m) == Itoa(n)
    ensures m == n
  {
    ItoaRoundTrip(m);
    ItoaRoundTrip(n);
  }

  // ---------- splitting ----------

  function IndexOf(s: string, c: char): (i: nat)
    ensures i <= |s|
    ensures i < |s| ==> s[i] == c
    ensures forall k :: 0 <= k < i ==> s[k] != c
  {
    if s == "" || s[0] == c then 0 else 1 + IndexOf(s[1..], c)
  }

  lemma IndexOfConcat(a: string, c: char, b: string)
    requires c !in a
    ensures IndexOf(a + [c] + b, c) == |a|
    ensures (a + [c] + b)[..|a|] == a && (a + [c] + b)[|a| + 1..] == b
  {
    var s := a + [c] + b;
    assert s[|a|] == c;
    assert forall k :: 0 <= k < |a| ==> s[k] == a[k];
  }

  // ---------- the signature envelope ----------

  /** `stripVaultEnvelope`: split at the first two colons, then try the four decoders in order. */
  function StripVaultEnvelope(signature: string): (r: Result<string>) {
    var i := IndexOf(signature, ':');
    if i == |signature| then Err("unexpected transit signature envelope")
    else
      var rest := signature[i + 1..];
      var j := IndexOf(rest, ':');
      if j == |rest| || signature[..i] != "vault" then Err("unexpected transit signature envelope")
      else Reencoded(rest[j + 1..])
  }

  function Reencoded(raw: string): (r: Result<string>) {
    if Decode(RAW_URL, raw).Some? then Ok(Encode(RAW_URL, Decode(RAW_URL, raw).value))
    else if Decode(URL, raw).Some? then Ok(Encode(RAW_URL, Decode(URL, raw).value))
    else if Decode(RAW_STD, raw).Some? then Ok(Encode(RAW_URL, Decode(RAW_STD, raw).value))
    else if Decode(STD, raw).Some? then Ok(Encode(RAW_URL, Decode(STD, raw).value))
    else Err("transit signature is not valid base64")
  }

  /** The answer of the backend's sign call. */
  function Envelope(version: string, e: Encoding, signature: Bytes): string {
    "vault" + ":" + version + ":" + Encode(e, signature)
  }

  /** Whichever of the four encodings the backend uses, the token gets the base64url text of the same bytes. */
  lemma EnvelopeIsStripped(version: string, e: Encoding, signature: Bytes)
    requires ':' !in version
    ensures StripVaultEnvelope(Envelope(version, e, signature)) == Ok(Encode(RAW_URL, signature))
  {
    hide Decode, Encode, IndexOf;
    var raw := Encode(e, signature);
    var rest := version + [':'] + raw;
    assert Envelope(version, e, signature) == "vault" + [':'] + rest;
    IndexOfConcat("vault", ':', rest);
    IndexOfConcat(version, ':', raw);
    assert (version + [':'] + raw)[|version| + 1..] == raw;
    DecodersAgree(RAW_URL, e, signature);
    DecodersAgree(URL, e, signature);
    DecodersAgree(RAW_STD, e, signature);
    DecodersAgree(STD, e, signature);
    assert e == RAW_URL || e == URL || e == RAW_STD || e == STD;
  }

  /** The text after the second colon, if the first part says `vault`. */
  ghost predicate InVaultEnvelope(signature: string, raw: string) {
    exists version :: ':' !in version && signature == "vault:" + version + ":" + raw
  }

  /** Nothing but a vault envelope around text that one of the decoders reads is accepted. */
  lemma OnlyEnvelopesAreStripped(signature: string)
    requires StripVaultEnvelope(signature).Ok?
    ensures exists raw, e, bytes ::
              && InVaultEnvelope(signature, raw) && Decode(e, raw) == Some(bytes)
              && StripVaultEnvelope(signature) == Ok(Encode(RAW_URL, bytes))
  {
    hide Decode, Encode, InVaultEnvelope;
    var i := IndexOf(signature, ':');
    var rest := signature[i + 1..];
    var k := IndexOf(rest, ':');
    var raw := rest[k + 1..];
    EnvelopeIsVault(signature, i, k);
    OneDecoderReads(raw);
    var e, bytes :| Decode(e, raw) == Some(bytes) && Reencoded(raw) == Ok(Encode(RAW_URL, bytes));
  }

  lemma EnvelopeIsVault(signature: string, i: nat, k: nat)
    requires i == IndexOf(signature, ':') < |signature| && signature[..i] == "vault"
    requires k == IndexOf(signature[i + 1..], ':') < |signature[i + 1..]|
    ensures InVaultEnvelope(signature, signature[i + 1..][k + 1..])
  {
    hide IndexOf;
    var rest := signature[i + 1..];
    var version, raw := rest[..k], rest[k + 1..];
    assert rest == version + ":" + raw;
    assert signature == signature[..i] + ":" + rest;
    assert signature == "vault:" + version + ":" + raw;
  }

  lemma OneDecoderReads(raw: string)
    requires Reencoded(raw).Ok?
    ensures exists e, bytes :: Decode(e, raw) == Some(bytes) && Reencoded(raw) == Ok(Encode(RAW_URL, bytes))
  {
    hide Decode, Encode;
    var e := if Decode(RAW_URL, raw).Some? then RAW_URL
             else if Decode(URL, raw).Some? then URL
             else if Decode(RAW_STD, raw).Some? then RAW_STD
             else STD;
    assert Decode(e, raw) == Some(Decode(e, raw).value);
  }

  // ---------- minting ----------

  function JwsAlg(keyType: string): (r: Result<string>) {
    if keyType == "ecdsa-p256" then Ok("ES256") else Err("unsupported transit key type")
  }

  function SigningString(j: Json, h: Header, payload: Bytes): string {
    Encode(RAW_URL, j.marshal(h)) + "." + Encode(RAW_URL, payload)
  }

  /**
   `Mint`: the key is read when it has the versions `atRead` and signs when it has `atSign`.
   The sign request pins the version that the kid header names.
   */
  function Mint(j: Json, s: Scheme, keyType: string, atRead: Versions, atSign: Versions, e: Encoding,
                payload: Bytes): (r: Result<string>) {
    if |atRead| == 0 then Err("transit key has no public keys")
    else
      match JwsAlg(keyType)
      case Err(m) => Err(m)
      case Ok(alg) =>
        var version := |atRead|;
        var signingString := SigningString(j, Header(alg, "JWT", Itoa(version)), payload);
        if version > |atSign| then Err("transit sign")
        else
          var answer := Envelope("v" + Itoa(version), e, s.sign(atSign[version - 1], signingString));
          Finish(signingString, StripVaultEnvelope(answer))
  }

  /** The end of `Mint`: the stripped signature is checked and appended. */
  function Finish(signingString: string, stripped: Result<string>): (r: Result<string>) {
    match stripped
    case Err(m) => Err(m)
    case Ok(sig) =>
      match Decode(RAW_URL, sig)
      case None => Err("transit signature is not valid base64url")
      case Some(bytes) =>
        if |bytes| != 64 then Err("transit signature has wrong length")
        else Ok(signingString + "." + sig)
  }

  /** `JWKS`: one entry for every version, in ascending order, keyed by the version number. */
  function Jwks(s: Scheme, atRead: Versions): (keys: seq<(string, string)>)
    ensures |keys| == |atRead|
  {
    seq(|atRead|, i requires 0 <= i < |atRead| => (Itoa(i + 1), s.public(atRead[i])))
  }

  /** The key set as the auth plugin holds it: for a repeated key id the last entry counts. */
  function KeysById(keys: seq<(string, string)>): (m: map<string, string>) {
    if keys == [] then map[] else KeysById(keys[..|keys| - 1])[keys[|keys| - 1].0 := keys[|keys| - 1].1]
  }

  lemma {:induction false} KeyIsPublished(s: Scheme, versions: Versions, v: nat, n: nat)
    requires 1 <= v <= n <= |versions|
    ensures var m := KeysById(Jwks(s, versions)[..n]);
            Itoa(v) in m && m[Itoa(v)] == s.public(versions[v - 1])
  {
    hide Itoa;
    var keys := Jwks(s, versions);
    assert keys[..n][..n - 1] == keys[..n - 1];
    if v < n {
      KeyIsPublished(s, versions, v, n - 1);
      if Itoa(v) == Itoa(n) {
        ItoaInjective(v, n);
      }
    }
  }

  // ---------- verifying ----------

  datatype Token = Token(header: Header, payload: Bytes, signingInput: string, signature: Bytes)

  /** The compact serialization of section 7.1 of RFC 7515: three base64url parts between two dots. */
  function ParseCompact(j: Json, token: string): (t: Option<Token>) {
    var i := IndexOf(token, '.');
    if i == |token| then None
    else
      var rest := token[i + 1..];
      var k := IndexOf(rest, '.');
      if k == |rest| || '.' in rest[k + 1..] then None
      else
        match (Decode(RAW_URL, token[..i]), Decode(RAW_URL, rest[..k]), Decode(RAW_URL, rest[k + 1..]))
        case (Some(h), Some(p), Some(sig)) =>
          (match j.unmarshal(h)
           case None => None
           case Some(header) => Some(Token(header, p, token[..i] + "." + rest[..k], sig)))
        case _ => None
  }

  /** Verification against a key set, as in `validatePAT` without the claim checks. */
  predicate Verifies(j: Json, s: Scheme, keys: map<string, string>, token: string) {
    match ParseCompact(j, token)
    case None => false
    case Some(t) =>
      && t.header.alg == "ES256" && t.header.kid in keys
      && s.verify(keys[t.header.kid], t.signingInput, t.signature)
  }

  lemma CompactRoundTrip(j: Json, h: Header, payload: Bytes, signature: Bytes)
    requires Invertible(j)
    ensures ParseCompact(j, SigningString(j, h, payload) + "." + Encode(RAW_URL, signature))
         == Some(Token(h, payload, SigningString(j, h, payload), signature))
  {
    hide Decode, Encode, IndexOf;
    var a, b, c := Encode(RAW_URL, j.marshal(h)), Encode(RAW_URL, payload), Encode(RAW_URL, signature);
    NoDots(j.marshal(h));
    NoDots(payload);
    NoDots(signature);
    var token := SigningString(j, h, payload) + "." + c;
    var rest := b + ['.'] + c;
    assert token == a + ['.'] + rest;
    IndexOfConcat(a, '.', rest);
    IndexOfConcat(b, '.', c);
    DecodersAgree(RAW_URL, RAW_URL, j.marshal(h));
    DecodersAgree(RAW_URL, RAW_URL, payload);
    DecodersAgree(RAW_URL, RAW_URL, signature);
  }

  lemma NoDots(b: Bytes)
    ensures '.' !in Encode(RAW_URL, b)
  {
    hide Encode;
    EncodedIsPlain(RAW_URL, b);
  }

  /** The signature that `Mint` obtains: that of the version in the kid, over the signing string. */
  function MintedSignature(j: Json, s: Scheme, atRead: Versions, atSign: Versions, payload: Bytes): Bytes
    requires 1 <= |atRead| <= |atSign|
  {
    s.sign(atSign[|atRead| - 1], SigningString(j, Header("ES256", "JWT", Itoa(|atRead|)), payload))
  }

  /** `Mint` on a P-256 key that has the version which was read. */
  lemma MintFinishes(j: Json, s: Scheme, atRead: Versions, atSign: Versions, e: Encoding, payload: Bytes)
    requires 1 <= |atRead| <= |atSign|
    ensures var signingString := SigningString(j, Header("ES256", "JWT", Itoa(|atRead|)), payload);
            var answer := Envelope("v" + Itoa(|atRead|), e, MintedSignature(j, s, atRead, atSign, payload));
            Mint(j, s, "ecdsa-p256", atRead, atSign, e, payload) == Finish(signingString, StripVaultEnvelope(answer))
  {
    hide StripVaultEnvelope, Envelope, SigningString, Itoa, Finish;
  }

  lemma MintNeeds(j: Json, s: Scheme, keyType: string, atRead: Versions, atSign: Versions, e: Encoding, payload: Bytes)
    requires Mint(j, s, keyType, atRead, atSign, e, payload).Ok?
    ensures keyType == "ecdsa-p256" && 1 <= |atRead| <= |atSign|
  {
    hide StripVaultEnvelope, Envelope, SigningString, Itoa, Finish;
  }

  /** `Mint` succeeds exactly for P-256 keys that still have the version read, when the signature has 64 bytes. */
  lemma MintsExactlyWhen(j: Json, s: Scheme, keyType: string, atRead: Versions, atSign: Versions, e: Encoding,
                         payload: Bytes)
    ensures Mint(j, s, keyType, atRead, atSign, e, payload).Ok? <==>
              && keyType == "ecdsa-p256" && 1 <= |atRead| <= |atSign|
              && |MintedSignature(j, s, atRead, atSign, payload)| == 64
  {
    hide Mint, StripVaultEnvelope, Envelope, Encode, SigningString, Itoa, Finish;
    if Mint(j, s, keyType, atRead, atSign, e, payload).Ok? {
      MintNeeds(j, s, keyType, atRead, atSign, e, payload);
    }
    if keyType == "ecdsa-p256" && 1 <= |atRead| <= |atSign| {
      var signature := MintedSignature(j, s, atRead, atSign, payload);
      MintFinishes(j, s, atRead, atSign, e, payload);
      VersionEnvelope(|atRead|, e, signature);
      FinishedToken(SigningString(j, Header("ES256", "JWT", Itoa(|atRead|)), payload), signature);
    }
  }

  /** What `Mint` returns, when it returns a token. */
  lemma MintedToken(j: Json, s: Scheme, keyType: string, atRead: Versions, atSign: Versions, e: Encoding,
                    payload: Bytes)
    requires Mint(j, s, keyType, atRead, atSign, e, payload).Ok?
    ensures keyType == "ecdsa-p256" && 1 <= |atRead| <= |atSign|
    ensures var signingString := SigningString(j, Header("ES256", "JWT", Itoa(|atRead|)), payload);
            Mint(j, s, keyType, atRead, atSign, e, payload)
            == Ok(signingString + "." + Encode(RAW_URL, s.sign(atSign[|atRead| - 1], signingString)))
  {
    hide Mint, StripVaultEnvelope, Envelope, Encode, SigningString, Itoa, Finish;
    MintsExactlyWhen(j, s, keyType, atRead, atSign, e, payload);
    MintFinishes(j, s, atRead, atSign, e, payload);
    VersionEnvelope(|atRead|, e, MintedSignature(j, s, atRead, atSign, payload));
    FinishedToken(SigningString(j, Header("ES256", "JWT", Itoa(|atRead|)), payload),
                  MintedSignature(j, s, atRead, atSign, payload));
  }

  lemma FinishedToken(signingString: string, signature: Bytes)
    ensures var sig := Encode(RAW_URL, signature);
            Finish(signingString, Ok(sig))
            == if |signature| == 64 then Ok(signingString + "." + sig) else Err("transit signature has wrong length")
  {
    hide Decode, Encode;
    DecodersAgree(RAW_URL, RAW_URL, signature);
  }

  lemma VersionEnvelope(version: nat, e: Encoding, signature: Bytes)
    ensures StripVaultEnvelope(Envelope("v" + Itoa(version), e, signature)) == Ok(Encode(RAW_URL, signature))
  {
    hide StripVaultEnvelope, Envelope, Decode, Encode, Itoa;
    NoColons(version);
    EnvelopeIsStripped("v" + Itoa(version), e, signature);
  }

  /** Every minted token parses, and its signature part has exactly 64 bytes. */
  lemma MintedTokenParses(j: Json, s: Scheme, keyType: string, atRead: Versions, atSign: Versions, e: Encoding,
                          payload: Bytes)
    requires Invertible(j) && Mint(j, s, keyType, atRead, atSign, e, payload).Ok?
    ensures var t := ParseCompact(j, Mint(j, s, keyType, atRead, atSign, e, payload).value);
            && t.Some? && t.value.header == Header("ES256", "JWT", Itoa(|atRead|))
            && t.value.payload == payload && |t.value.signature| == 64
  {
    hide Mint, ParseCompact, SigningString, Encode, Itoa;
    MintsExactlyWhen(j, s, keyType, atRead, atSign, e, payload);
    MintedToken(j, s, keyType, atRead, atSign, e, payload);
    var signature := MintedSignature(j, s, atRead, atSign, payload);
    CompactRoundTrip(j, Header("ES256", "JWT", Itoa(|atRead|)), payload, signature);
  }

  lemma NoColons(n: nat)
    ensures ':' !in "v" + Itoa(n)
  {
    hide Itoa;
    ItoaRoundTrip(n);
  }

  /**
   However the key is rotated between the key read, the sign call and a later JWKS read, a minted token
   is a compact JWS that verifies under the key published for its kid, and carries the given claims.
   */
  lemma MintedTokensVerify(j: Json, s: Scheme, keyType: string, atRead: Versions, atSign: Versions, atJwks: Versions,
                           e: Encoding, payload: Bytes)
    requires Invertible(j) && Signatures.Correct(s) && atRead <= atSign
    requires atRead <= atJwks && (atSign <= atJwks || atJwks <= atSign)
    requires Mint(j, s, keyType, atRead, atSign, e, payload).Ok?
    ensures var token := Mint(j, s, keyType, atRead, atSign, e, payload).value;
            && Verifies(j, s, KeysById(Jwks(s, atJwks)), token)
            && ParseCompact(j, token).Some? && ParseCompact(j, token).value.payload == payload
            && ParseCompact(j, token).value.header.kid == Itoa(|atRead|)
  {
    hide Mint, ParseCompact, SigningString, Encode, KeysById, Jwks, Itoa;
    var version := |atRead|;
    var header := Header("ES256", "JWT", Itoa(version));
    MintedToken(j, s, keyType, atRead, atSign, e, payload);
    CompactRoundTrip(j, header, payload, s.sign(atSign[version - 1], SigningString(j, header, payload)));
    KeyIsPublished(s, atJwks, version, |atJwks|);
    assert Jwks(s, atJwks)[..|atJwks|] == Jwks(s, atJwks);
    assert atJwks[version - 1] == atSign[version - 1];
  }
}
