/** Key references and aliases: the plugin's resolution and the gateway's own validation of the same strings. */
module KeyNames {
  import opened Outcomes
  import opened Text
  import opened Words
  import opened Hex

  // ---------- characters and lengths ----------

  predicate All(p: char -> bool, s: string) {
    forall i :: 0 <= i < |s| ==> p(s[i])
  }

  /** Bytes of a character in UTF-8. */
  function Width(c: char): nat {
    var n := c as int;
    if n < 0x80 then 1 else if n < 0x800 then 2 else if n < 0x10000 then 3 else 4
  }

  /** Both programs measure strings in bytes. */
  function ByteLen(s: string): (n: nat) {
    if s == "" then 0 else ByteLen(s[..|s| - 1]) + Width(s[|s| - 1])
  }

  lemma {:induction false} AsciiLength(s: string)
    requires forall i :: 0 <= i < |s| ==> s[i] as int < 0x80
    ensures ByteLen(s) == |s|
  {
    if s != "" {
      AsciiLength(s[..|s| - 1]);
    }
  }

  // ---------- the plugin ----------

  /** The character class of `aliasCharsRe`. */
  predicate IsAliasChar(c: char) {
    'A' <= c <= 'Z' || 'a' <= c <= 'z' || '0' <= c <= '9' || c == '.' || c == '-'
  }

  const KEY_ID_PREFIX: string := "kms:"
  const MAX_ALIAS: nat := 128

  /** `validateAlias`. */
  function ValidateAlias(alias: string): Result<()> {
    if alias == "" then Err("alias is required")
    else if ByteLen(alias) > MAX_ALIAS then Err("alias must be at most 128 characters")
    else if KEY_ID_PREFIX <= alias then Err("alias must not use the reserved kms:<alias> format")
    else if !All(IsAliasChar, alias) then Err("alias contains unsupported characters")
    else Ok(())
  }

  /** `canonicalAlias`. */
  function CanonicalAlias(alias: string): Result<string> {
    var trimmed := TrimSpace(alias);
    match ValidateAlias(trimmed)
    case Err(m) => Err(m)
    case Ok(_) => Ok(trimmed)
  }

  /** The reference without its prefix, if it has one. */
  function Unprefixed(s: string): string {
    if KEY_ID_PREFIX <= s then s[|KEY_ID_PREFIX|..] else s
  }

  datatype KeyRef = KeyRef(id: string, alias: string)

  /** `resolveKeyRef`. */
  function ResolveKeyRef(keyRef: string): Result<KeyRef> {
    var trimmed := TrimSpace(keyRef);
    if trimmed == "" then Err("key_id is required")
    else
      match CanonicalAlias(Unprefixed(trimmed))
      case Err(m) => Err(m)
      case Ok(a) => Ok(KeyRef(KEY_ID_PREFIX + a, a))
  }

  /** `tenantNamespace`, from the SHA-256 digest of the client id. */
  function TenantNamespace(digest: Bytes): (namespace: string)
    requires |digest| == 32
    ensures |namespace| == 39 && namespace[..7] == "tenant_"
  {
    "tenant_" + EncodeHex(digest[..16])
  }

  /** `scopedBackendKey`, for the namespace of a tenant. */
  function ScopedBackendKey(namespace: string, alias: string): Result<string> {
    match CanonicalAlias(alias)
    case Err(m) => Err(m)
    case Ok(a) => Ok(namespace + "_" + a)
  }

  // ---------- the gateway ----------

  /** `char::is_ascii_alphanumeric`. */
  predicate IsAsciiAlphanumeric(c: char) {
    var n := c as int;
    0x30 <= n <= 0x39 || 0x41 <= n <= 0x5A || 0x61 <= n <= 0x7A
  }

  predicate GatewayAliasChar(c: char) {
    IsAsciiAlphanumeric(c) || c == '-' || c == '.'
  }

  /** `validate_required`. */
  function GatewayRequired(value: string): Result<()> {
    if TrimSpace(value) == "" then Err("is required") else Ok(())
  }

  /** `validate_alias`. */
  function GatewayAlias(value: string): Result<()> {
    var trimmed := TrimSpace(value);
    if ByteLen(trimmed) > MAX_ALIAS then Err("alias must be at most 128 characters")
    else if KEY_ID_PREFIX <= trimmed then Err("alias must not use the reserved kms:<alias> format")
    else if !All(GatewayAliasChar, trimmed) then Err("alias contains unsupported characters")
    else Ok(())
  }

  /** `validate_key_reference`. */
  function GatewayReference(value: string): Result<()> {
    if GatewayRequired(value).Err? then Err("is required")
    else
      var trimmed := TrimSpace(value);
      var alias := Unprefixed(trimmed);
      if alias == "" then Err("is required") else GatewayAlias(alias)
  }

  // ---------- what holds of both ----------

  /** A string whose last character is no space does not trim to nothing. */
  lemma TrimKeepsLast(s: string)
    requires s != "" && !IsSpace(s[|s| - 1])
    ensures TrimSpace(s) != ""
  {
    hide IsSpace, TrimSpace;
    TrimsExactly(s);
    var before, after :| Surrounded(s, before, TrimSpace(s), after);
    var last := s[|s| - 1];
    assert last !in before && last !in after;
    assert TrimSpace(s) == "" ==> s == before + after;
    assert last in s;
  }

  /** Trimmed text stays visible when the prefix goes, unless there was nothing else. */
  lemma UnprefixedIsVisible(value: string)
    requires TrimSpace(value) != "" && Unprefixed(TrimSpace(value)) != ""
    ensures TrimSpace(Unprefixed(TrimSpace(value))) != ""
  {
    hide IsSpace;
    var trimmed := TrimSpace(value);
    var alias := Unprefixed(trimmed);
    assert alias[|alias| - 1] == trimmed[|trimmed| - 1];
    TrimKeepsLast(alias);
  }

  lemma AliasesAgree(value: string)
    ensures CanonicalAlias(value).Ok? <==> GatewayAlias(value).Ok? && TrimSpace(value) != ""
  {
    hide TrimSpace, ByteLen, All;
    SameAliasChars(TrimSpace(value));
  }

  /** The two character classes are the same. */
  lemma SameAliasChars(s: string)
    ensures All(IsAliasChar, s) <==> All(GatewayAliasChar, s)
  {
    assert forall i :: 0 <= i < |s| ==> (IsAliasChar(s[i]) <==> GatewayAliasChar(s[i]));
  }

  lemma NothingIsNoAlias()
    ensures TrimSpace("") == "" && CanonicalAlias("").Err?
  {
  }

  /** The gateway accepts a key reference exactly when the plugin resolves it. */
  lemma ReferencesAgree(value: string)
    ensures GatewayReference(value).Ok? <==> ResolveKeyRef(value).Ok?
  {
    hide TrimSpace, Unprefixed, CanonicalAlias, GatewayAlias;
    var trimmed := TrimSpace(value);
    NothingIsNoAlias();
    if trimmed != "" && Unprefixed(trimmed) != "" {
      UnprefixedIsVisible(value);
      AliasesAgree(Unprefixed(trimmed));
    }
  }

  /** An alias that has been accepted. */
  predicate IsAlias(s: string) {
    s != "" && |s| <= MAX_ALIAS && All(IsAliasChar, s)
  }

  /** Letters, digits, dot and dash, by their ASCII codes. */
  predicate IsPlain(c: char) {
    var n := c as int;
    0x41 <= n <= 0x5A || 0x61 <= n <= 0x7A || 0x30 <= n <= 0x39 || n == 0x2E || n == 0x2D
  }

  lemma AliasAccepted(s: string)
    ensures ValidateAlias(s).Ok? <==> IsAlias(s)
    ensures IsAlias(s) ==> TrimSpace(s) == s
  {
    if All(IsAliasChar, s) {
      AsciiLength(s);
      assert KEY_ID_PREFIX <= s ==> !IsAliasChar(s[3]);
      assert Trimmed(IsSpace, s);
      TrimOfTrimmed(IsSpace, s);
    }
  }

  lemma AliasCharsAre(c: char)
    ensures IsAliasChar(c) <==> IsPlain(c)
  {
  }

  /** In full: an alias is 1 to 128 of those characters, and is kept without the spaces around it. */
  lemma AliasExactly(value: string)
    ensures var t := TrimSpace(value);
            && (CanonicalAlias(value).Ok? <==> 1 <= |t| <= 128 && forall i :: 0 <= i < |t| ==> IsPlain(t[i]))
            && (CanonicalAlias(value).Ok? ==> CanonicalAlias(value) == Ok(t))
  {
    hide TrimSpace, IsPlain, IsAliasChar;
    var t := TrimSpace(value);
    AliasAccepted(t);
    forall i | 0 <= i < |t| ensures IsAliasChar(t[i]) <==> IsPlain(t[i]) {
      AliasCharsAre(t[i]);
    }
  }

  /** A reference resolves to an alias exactly when it is that alias, with or without `kms:` and spaces. */
  lemma ReferenceExactly(value: string, alias: string)
    ensures ResolveKeyRef(value) == Ok(KeyRef("kms:" + alias, alias)) <==>
              var t := TrimSpace(value);
              && IsAlias(alias)
              && (t == alias || ("kms:" <= t && TrimSpace(t[4..]) == alias))
    ensures ResolveKeyRef(value).Ok? ==> ResolveKeyRef(value).value.id == "kms:" + ResolveKeyRef(value).value.alias
  {
    hide TrimSpace, ValidateAlias, IsAliasChar;
    var t := TrimSpace(value);
    AliasAccepted(alias);
    AliasAccepted(TrimSpace(Unprefixed(t)));
    if IsAlias(t) {
      OnlyIdsHaveAPrefix(t);
      AliasAccepted(t);
    }
    TrimSpaceTwice(value);
  }

  lemma AliasCharsArePlain(c: char)
    requires IsAliasChar(c)
    ensures !IsSpace(c) && c != ':'
  {
  }

  lemma IdIsTrimmed(alias: string)
    requires IsAlias(alias)
    ensures TrimSpace(KEY_ID_PREFIX + alias) == KEY_ID_PREFIX + alias
  {
    hide IsSpace, Trim;
    var id := KEY_ID_PREFIX + alias;
    var last := alias[|alias| - 1];
    AliasCharsArePlain(last);
    AliasCharsArePlain('k');
    assert id[0] == 'k' && id[|id| - 1] == last;
    TrimOfTrimmed(IsSpace, id);
  }

  lemma OnlyIdsHaveAPrefix(alias: string)
    requires IsAlias(alias)
    ensures Unprefixed(KEY_ID_PREFIX + alias) == alias && Unprefixed(alias) == alias
  {
    hide IsAliasChar;
    assert (KEY_ID_PREFIX + alias)[|KEY_ID_PREFIX|..] == alias;
    if KEY_ID_PREFIX <= alias {
      AliasCharsArePlain(alias[3]);
    }
  }

  /** An accepted alias resolves to itself, with or without the prefix. */
  lemma AliasResolves(alias: string)
    requires IsAlias(alias)
    ensures ResolveKeyRef(alias) == Ok(KeyRef(KEY_ID_PREFIX + alias, alias))
    ensures ResolveKeyRef(KEY_ID_PREFIX + alias) == Ok(KeyRef(KEY_ID_PREFIX + alias, alias))
  {
    hide TrimSpace, Unprefixed, ValidateAlias;
    AliasAccepted(alias);
    IdIsTrimmed(alias);
    OnlyIdsHaveAPrefix(alias);
  }

  /** Resolution is idempotent: the id and the alias it yields both resolve to the same key again. */
  lemma ResolutionIsIdempotent(value: string)
    requires ResolveKeyRef(value).Ok?
    ensures var r := ResolveKeyRef(value);
            && IsAlias(r.value.alias) && r.value.id == KEY_ID_PREFIX + r.value.alias
            && ResolveKeyRef(r.value.id) == r && ResolveKeyRef(r.value.alias) == r
  {
    hide IsAlias, ResolveKeyRef;
    ResolvedIsValid(value);
    var alias := ResolveKeyRef(value).value.alias;
    AliasAccepted(alias);
    AliasResolves(alias);
  }

  lemma ResolvedIsValid(value: string)
    requires ResolveKeyRef(value).Ok?
    ensures var r := ResolveKeyRef(value).value; ValidateAlias(r.alias).Ok? && r.id == KEY_ID_PREFIX + r.alias
  {
    hide TrimSpace, ValidateAlias, Unprefixed;
  }

  /** Tenants whose digests differ in the first half have different namespaces. */
  lemma NamespacesAreDistinct(digest: Bytes, digest': Bytes)
    requires |digest| == |digest'| == 32 && TenantNamespace(digest) == TenantNamespace(digest')
    ensures digest[..16] == digest'[..16]
  {
    hide EncodeHex, DecodeHex;
    var a, b := EncodeHex(digest[..16]), EncodeHex(digest'[..16]);
    assert TenantNamespace(digest)[7..] == a && TenantNamespace(digest')[7..] == b;
    HexRoundTrip(digest[..16]);
    HexRoundTrip(digest'[..16]);
  }

  /** Different tenants or different aliases never share a backend key. */
  lemma BackendKeysAreDistinct(digest: Bytes, alias: string, digest': Bytes, alias': string)
    requires |digest| == |digest'| == 32
    requires var key := ScopedBackendKey(TenantNamespace(digest), alias);
             key.Ok? && key == ScopedBackendKey(TenantNamespace(digest'), alias')
    ensures TenantNamespace(digest) == TenantNamespace(digest') && CanonicalAlias(alias) == CanonicalAlias(alias')
  {
    hide TenantNamespace, CanonicalAlias;
    var namespace, namespace' := TenantNamespace(digest), TenantNamespace(digest');
    var key := ScopedBackendKey(namespace, alias).value;
    assert key[..39] == namespace && key[..39] == namespace';
    assert key[40..] == CanonicalAlias(alias).value && key[40..] == CanonicalAlias(alias').value;
  }
}
