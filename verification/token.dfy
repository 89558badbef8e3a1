/**
 * JWT bundle handling of the row-authorization extension
 * (jans-cedarling/cedarling_pg/src/token.rs): validation of each token's shape, algorithm and
 * registered claims (section 4.1 of RFC 7519), cross-token consistency, and the merge of all
 * tokens' claims into a standard map and a per-token-prefixed custom map.
 *
 * Decoding a token (the JWT library's header and payload decoding) is not modelled; the model
 * receives it as a total function `decode` from token text to its decoded header and claims.
 */
module Token {
  import opened Wrappers
  import opened Strings
  import opened Json
  import opened Errors
  import opened Jws

  type Claims = map<string, Value>

  datatype TokenType = AccessToken | IdToken | UserinfoToken

  function TypeName(t: TokenType): string {
    match t
    case AccessToken => "access_token"
    case IdToken => "id_token"
    case UserinfoToken => "userinfo_token"
  }

  datatype TokenBundle = TokenBundle(
    accessToken: Option<string>,
    idToken: Option<string>,
    userinfoToken: Option<string>)

  /** `TokenBundle::new`: no token at all. */
  function NewBundle(): (b: TokenBundle)
    ensures forall t :: TokenOf(b, t).None?
  {
    TokenBundle(None, None, None)
  }

  function TokenOf(b: TokenBundle, t: TokenType): Option<string> {
    match t
    case AccessToken => b.accessToken
    case IdToken => b.idToken
    case UserinfoToken => b.userinfoToken
  }

  predicate HasAnyToken(b: TokenBundle) {
    b.accessToken.Some? || b.idToken.Some? || b.userinfoToken.Some?
  }

  /**
   * What the JWT library makes of a token: the `alg` value of its header (or the library's
   * error text when the header cannot be decoded) and its claims (or the extraction error).
   */
  datatype Decoded = Decoded(header: Result<string, string>, claims: Result<Claims, CedarlingError>)

  /** Non-fatal findings the source reports as warnings while validating. */
  datatype Warning =
    | SymmetricAlgorithm(t: TokenType, alg: Algorithm)
    | MissingExp(t: TokenType)
    | OlderThanDay(t: TokenType)
    | MissingSub(t: TokenType)
    | IssuerMismatch

  // ----- Shape and header -----

  /** `decode_header`: the header's algorithm; an unknown `alg` name makes decoding fail. */
  function DecodeHeader(d: Decoded): Result<Algorithm, string> {
    match d.header
    case Err(e) => Err(e)
    case Ok(name) =>
      match AlgorithmFromName(name)
      case Some(a) => Ok(a)
      case None => Err("unknown algorithm " + name)
  }

  /** `validate_jwt_format`: three dot-separated parts and a decodable header. */
  function ValidateJwtFormat(token: string, t: TokenType, d: Decoded): (r: Result<(), CedarlingError>)
    ensures r.Ok? <==> PartCount(token) == 3 && DecodeHeader(d).Ok?
    ensures r.Err? ==> r.error.TokenValidation?
  {
    if PartCount(token) != 3 then
      Err(TokenValidation(TypeName(t) + " does not have valid JWT format"))
    else
      match DecodeHeader(d)
      case Err(e) => Err(TokenValidation("Invalid " + TypeName(t) + " header: " + e))
      case Ok(_) => Ok(())
  }

  // ----- Registered claims -----

  /** Allowed age of `iat` before a warning is logged (24 hours, in seconds). */
  const MaxAge: int := 24 * 60 * 60
  /** Allowed clock skew for an `iat` in the future (5 minutes, in seconds). */
  const FutureSkew: int := 300

  function CheckExp(c: Claims, t: TokenType, now: int): Result<seq<Warning>, CedarlingError> {
    if "exp" in c then
      match AsI64(c["exp"])
      case Some(exp) =>
        if exp < now then Err(TokenValidation(TypeName(t) + " has expired")) else Ok([])
      case None => Err(TokenValidation(TypeName(t) + " has invalid exp claim format"))
    else Ok([MissingExp(t)])
  }

  function CheckNbf(c: Claims, t: TokenType, now: int): Result<(), CedarlingError> {
    if "nbf" in c && AsI64(c["nbf"]).Some? && AsI64(c["nbf"]).value > now then
      Err(TokenValidation(TypeName(t) + " not yet valid (nbf)"))
    else Ok(())
  }

  function CheckIat(c: Claims, t: TokenType, now: int): Result<seq<Warning>, CedarlingError> {
    if "iat" in c && AsI64(c["iat"]).Some? then
      var iat := AsI64(c["iat"]).value;
      var warnings := if now - iat > MaxAge then [OlderThanDay(t)] else [];
      if iat > now + FutureSkew then Err(TokenValidation(TypeName(t) + " issued in the future (iat)"))
      else Ok(warnings)
    else Ok([])
  }

  function CheckIss(c: Claims, t: TokenType): Result<(), CedarlingError> {
    if "iss" in c then
      if AsStr(c["iss"]) == Some("") then Err(TokenValidation(TypeName(t) + " has empty issuer"))
      else Ok(())
    else if t != UserinfoToken then Err(TokenValidation(TypeName(t) + " missing required iss claim"))
    else Ok(())
  }

  function CheckSub(c: Claims, t: TokenType): Result<seq<Warning>, CedarlingError> {
    if "sub" in c then
      if AsStr(c["sub"]) == Some("") then Err(TokenValidation(TypeName(t) + " has empty subject"))
      else Ok([])
    else if t != AccessToken then Ok([MissingSub(t)])
    else Ok([])
  }

  /**
   * When the registered claims of a token are acceptable at time `now`, stated claim by claim:
   * `exp` must be an integer not before `now`; an integer `nbf` must not be after `now`
   * (a non-integer one is ignored); an integer `iat` may be at most `FutureSkew` seconds
   * ahead; `iss` must be present (except in a userinfo token) and not the empty string;
   * `sub` may be absent but not the empty string.
   */
  predicate StandardClaimsAcceptable(c: Claims, t: TokenType, now: int) {
    && ("exp" in c ==> AsI64(c["exp"]).Some? && now <= AsI64(c["exp"]).value)
    && ("nbf" in c && AsI64(c["nbf"]).Some? ==> AsI64(c["nbf"]).value <= now)
    && ("iat" in c && AsI64(c["iat"]).Some? ==> AsI64(c["iat"]).value <= now + FutureSkew)
    && ("iss" in c ==> c["iss"] != Str(""))
    && ("iss" !in c ==> t == UserinfoToken)
    && ("sub" in c ==> c["sub"] != Str(""))
  }

  /** `validate_standard_claims`, with the current time as a parameter. */
  function ValidateStandardClaims(c: Claims, t: TokenType, now: int): (r: Result<seq<Warning>, CedarlingError>)
    ensures r.Ok? <==> StandardClaimsAcceptable(c, t, now)
    ensures r.Err? ==> r.error.TokenValidation?
    ensures r.Ok? ==> (OlderThanDay(t) in r.value <==>
                         "iat" in c && AsI64(c["iat"]).Some? && now - AsI64(c["iat"]).value > MaxAge)
    ensures r.Ok? ==> (MissingExp(t) in r.value <==> "exp" !in c)
  {
    var w1 :- CheckExp(c, t, now);
    var _ :- CheckNbf(c, t, now);
    var w2 :- CheckIat(c, t, now);
    var _ :- CheckIss(c, t);
    var w3 :- CheckSub(c, t);
    Ok(w1 + w2 + w3)
  }

  // ----- One token -----

  /** Everything `validate_jwt_with_signature` demands of one token. */
  predicate TokenAcceptable(token: string, t: TokenType, d: Decoded, now: int) {
    && PartCount(token) == 3
    && DecodeHeader(d).Ok?
    && ClassifyAlgorithm(DecodeHeader(d).value).Some?
    && d.claims.Ok?
    && StandardClaimsAcceptable(d.claims.value, t, now)
  }

  /**
   * `validate_jwt_with_signature`: shape, header, algorithm allow-list, claim extraction and
   * registered claims, in that order. The signature itself is not verified by the source.
   */
  function ValidateJwt(token: string, t: TokenType, d: Decoded, now: int): (r: Result<seq<Warning>, CedarlingError>)
    ensures r.Ok? <==> TokenAcceptable(token, t, d, now)
    ensures r.Err? && !r.error.TokenValidation? ==> d.claims.Err? && r.error == d.claims.error
    ensures PartCount(token) != 3 ==> r.Err? && r.error.TokenValidation?
  {
    var _ :- ValidateJwtFormat(token, t, d);
    match DecodeHeader(d)
    case Err(e) => Err(TokenValidation("Invalid " + TypeName(t) + " header: " + e))
    case Ok(alg) =>
      match ClassifyAlgorithm(alg)
      case None => Err(TokenValidation("Unsupported algorithm for " + TypeName(t) + ": " + AlgorithmName(alg)))
      case Some(cls) =>
        var claims :- d.claims;
        var w :- ValidateStandardClaims(claims, t, now);
        Ok((if cls == Symmetric then [SymmetricAlgorithm(t, alg)] else []) + w)
  }

  // ----- Cross-token consistency -----

  /** The claims of token `t` of the bundle, when it is present and its claims extract. */
  function PresentClaims(b: TokenBundle, decode: string -> Decoded, t: TokenType): Option<Claims> {
    match TokenOf(b, t)
    case None => None
    case Some(tok) => if decode(tok).claims.Ok? then Some(decode(tok).claims.value) else None
  }

  /** The claims of token `t`: none if absent, the extraction error if they do not extract. */
  function ClaimsOf(b: TokenBundle, decode: string -> Decoded, t: TokenType): (r: Result<Option<Claims>, CedarlingError>)
    ensures r.Ok? ==> r.value == PresentClaims(b, decode, t)
    ensures r.Err? <==> TokenOf(b, t).Some? && decode(TokenOf(b, t).value).claims.Err?
    ensures r.Err? ==> r.error == decode(TokenOf(b, t).value).claims.error
  {
    match TokenOf(b, t)
    case None => Ok(None)
    case Some(tok) =>
      var c :- decode(tok).claims;
      Ok(Some(c))
  }

  /** Two string claims agree, or at least one of them is absent or not a string. */
  predicate StringsAgree(m1: Claims, k1: string, m2: Claims, k2: string) {
    StrField(m1, k1).Some? && StrField(m2, k2).Some? ==> StrField(m1, k1) == StrField(m2, k2)
  }

  /**
   * The consistency the bundle must have: the access token's `client_id` is the id token's
   * `aud`, and the id and userinfo tokens agree on `sub` and on `aud`, wherever both sides
   * are strings. Issuers are not compared here: a mismatch only warns.
   */
  predicate Consistent(ca: Option<Claims>, ci: Option<Claims>, cu: Option<Claims>) {
    && (ca.Some? && ci.Some? ==> StringsAgree(ca.value, "client_id", ci.value, "aud"))
    && (ci.Some? && cu.Some? ==> StringsAgree(ci.value, "sub", cu.value, "sub"))
    && (ci.Some? && cu.Some? ==> StringsAgree(ci.value, "aud", cu.value, "aud"))
  }

  function CheckAccessId(a: Claims, i: Claims): Result<seq<Warning>, CedarlingError> {
    if StrField(a, "client_id").Some? && StrField(i, "aud").Some?
       && StrField(a, "client_id") != StrField(i, "aud") then
      Err(TokenValidation("access_token client_id does not match id_token aud"))
    else if StrField(a, "iss").Some? && StrField(i, "iss").Some? && StrField(a, "iss") != StrField(i, "iss") then
      Ok([IssuerMismatch])
    else Ok([])
  }

  function CheckIdUserinfo(i: Claims, u: Claims): Result<(), CedarlingError> {
    if StrField(i, "sub").Some? && StrField(u, "sub").Some? && StrField(i, "sub") != StrField(u, "sub") then
      Err(TokenValidation("id_token sub does not match userinfo_token sub"))
    else if StrField(i, "aud").Some? && StrField(u, "aud").Some? && StrField(i, "aud") != StrField(u, "aud") then
      Err(TokenValidation("id_token aud does not match userinfo_token aud"))
    else Ok(())
  }

  /** The comparisons of `validate_token_consistency`, on already extracted claims. */
  function CheckConsistency(ca: Option<Claims>, ci: Option<Claims>, cu: Option<Claims>)
    : (r: Result<seq<Warning>, CedarlingError>)
    ensures r.Ok? <==> Consistent(ca, ci, cu)
    ensures r.Err? ==> r.error.TokenValidation?
  {
    var w :- if ca.Some? && ci.Some? then CheckAccessId(ca.value, ci.value) else Ok([]);
    var _ :- if ci.Some? && cu.Some? then CheckIdUserinfo(ci.value, cu.value) else Ok(());
    Ok(w)
  }

  /** Issuers never decide consistency: replacing either issuer leaves the verdict unchanged. */
  lemma IssuerNeverFails(a: Claims, i: Claims, cu: Option<Claims>, x: Value, y: Value)
    ensures CheckConsistency(Some(a["iss" := x]), Some(i["iss" := y]), cu).Ok?
            == CheckConsistency(Some(a), Some(i), cu).Ok?
  {
  }

  /** Every present token's claims extract. */
  predicate ClaimsExtract(b: TokenBundle, decode: string -> Decoded) {
    forall t :: TokenOf(b, t).Some? ==> decode(TokenOf(b, t).value).claims.Ok?
  }

  /**
   * `validate_token_consistency`: extract every present token's claims, then compare. It
   * fails with the extraction error of the first token, in the order access, id, userinfo,
   * whose claims do not extract, or else with a `TokenValidation` mismatch.
   */
  function ValidateTokenConsistency(b: TokenBundle, decode: string -> Decoded): (r: Result<seq<Warning>, CedarlingError>)
    ensures r.Ok? <==> ClaimsExtract(b, decode)
                       && Consistent(PresentClaims(b, decode, AccessToken),
                                     PresentClaims(b, decode, IdToken),
                                     PresentClaims(b, decode, UserinfoToken))
    ensures ClaimsOf(b, decode, AccessToken).Err? ==> r == Err(ClaimsOf(b, decode, AccessToken).error)
    ensures ClaimsOf(b, decode, AccessToken).Ok? && ClaimsOf(b, decode, IdToken).Err? ==>
              r == Err(ClaimsOf(b, decode, IdToken).error)
    ensures ClaimsOf(b, decode, AccessToken).Ok? && ClaimsOf(b, decode, IdToken).Ok?
            && ClaimsOf(b, decode, UserinfoToken).Err? ==>
              r == Err(ClaimsOf(b, decode, UserinfoToken).error)
    ensures r.Err? && ClaimsExtract(b, decode) ==> r.error.TokenValidation?
  {
    var ca :- ClaimsOf(b, decode, AccessToken);
    var ci :- ClaimsOf(b, decode, IdToken);
    var cu :- ClaimsOf(b, decode, UserinfoToken);
    CheckConsistency(ca, ci, cu)
  }

  // ----- The bundle -----

  function ValidateIfPresent(b: TokenBundle, decode: string -> Decoded, now: int, t: TokenType)
    : Result<seq<Warning>, CedarlingError>
  {
    match TokenOf(b, t)
    case None => Ok([])
    case Some(tok) => ValidateJwt(tok, t, decode(tok), now)
  }

  /** What `TokenBundle::validate` demands of a bundle, stated declaratively. */
  predicate BundleAcceptable(b: TokenBundle, decode: string -> Decoded, now: int) {
    && HasAnyToken(b)
    && (forall t :: TokenOf(b, t).Some? ==> TokenAcceptable(TokenOf(b, t).value, t, decode(TokenOf(b, t).value), now))
    && Consistent(PresentClaims(b, decode, AccessToken),
                  PresentClaims(b, decode, IdToken),
                  PresentClaims(b, decode, UserinfoToken))
  }

  /**
   * `TokenBundle::validate`: a bundle without any token is refused; then each present token
   * is validated in the order access, id, userinfo, and finally the tokens are compared.
   */
  function Validate(b: TokenBundle, decode: string -> Decoded, now: int): (r: Result<seq<Warning>, CedarlingError>)
    ensures !HasAnyToken(b) ==> r == Err(TokenValidation("At least one token must be provided"))
  {
    if !HasAnyToken(b) then Err(TokenValidation("At least one token must be provided"))
    else
      var w1 :- ValidateIfPresent(b, decode, now, AccessToken);
      var w2 :- ValidateIfPresent(b, decode, now, IdToken);
      var w3 :- ValidateIfPresent(b, decode, now, UserinfoToken);
      var w4 :- ValidateTokenConsistency(b, decode);
      Ok(w1 + w2 + w3 + w4)
  }

  /** `Validate` accepts exactly the bundles `BundleAcceptable` describes. */
  lemma ValidateAcceptsExactly(b: TokenBundle, decode: string -> Decoded, now: int)
    ensures Validate(b, decode, now).Ok? <==> BundleAcceptable(b, decode, now)
  {
  }

  // ----- Claim merge -----

  /** The registered claim names, which are merged unprefixed. */
  const StandardClaimNames: set<string> := {"sub", "iss", "aud", "exp", "nbf", "iat", "jti"}

  /** The key a custom claim `k` of token `t` is stored under: `<token type>_<k>`. */
  function PrefixedKey(t: TokenType, k: string): string {
    TypeName(t) + "_" + k
  }

  /** Prefixed keys never collide: the key determines both the token type and the claim name. */
  lemma PrefixedKeyInjective(t1: TokenType, k1: string, t2: TokenType, k2: string)
    ensures PrefixedKey(t1, k1) == PrefixedKey(t2, k2) <==> t1 == t2 && k1 == k2
  {
    if PrefixedKey(t1, k1) == PrefixedKey(t2, k2) {
      assert PrefixedKey(t1, k1)[0] == TypeName(t1)[0];
      assert PrefixedKey(t2, k2)[0] == TypeName(t2)[0];
      assert t1 == t2;
      var n := |TypeName(t1) + "_"|;
      assert k1 == PrefixedKey(t1, k1)[n..];
      assert k2 == PrefixedKey(t2, k2)[n..];
    }
  }

  lemma PrefixedKeyInjectiveOn(t: TokenType)
    ensures forall k1, k2 :: PrefixedKey(t, k1) == PrefixedKey(t, k2) ==> k1 == k2
  {
    forall k1, k2 | PrefixedKey(t, k1) == PrefixedKey(t, k2) {
      PrefixedKeyInjective(t, k1, t, k2);
    }
  }

  datatype TokenClaims = TokenClaims(standard: Claims, custom: Claims)

  /**
   * `merge_claims`: registered claims overwrite the standard map under their own names; every
   * other claim goes to the custom map under its prefixed key. The source iterates a hash map,
   * but distinct claims write distinct keys, so the iteration order does not matter.
   */
  function MergeClaims(acc: TokenClaims, claims: Claims, t: TokenType): (r: TokenClaims)
    ensures r.standard.Keys == acc.standard.Keys + (claims.Keys * StandardClaimNames)
    ensures forall k :: k in claims && k in StandardClaimNames ==> r.standard[k] == claims[k]
    ensures forall k :: k in acc.standard && (k !in claims || k !in StandardClaimNames) ==>
              r.standard[k] == acc.standard[k]
    ensures forall k :: k in claims && k !in StandardClaimNames ==>
              PrefixedKey(t, k) in r.custom && r.custom[PrefixedKey(t, k)] == claims[k]
    ensures forall pk :: pk in r.custom && pk !in acc.custom ==>
              exists k :: k in claims && k !in StandardClaimNames && pk == PrefixedKey(t, k)
    ensures forall pk :: pk in acc.custom && !OwnedBy(pk, t) ==> pk in r.custom && r.custom[pk] == acc.custom[pk]
  {
    PrefixedKeyInjectiveOn(t);
    var added := map k | k in claims && k !in StandardClaimNames :: PrefixedKey(t, k) := claims[k];
    TokenClaims(
      acc.standard + map k | k in claims && k in StandardClaimNames :: claims[k],
      acc.custom + added)
  }

  /** A custom key belongs to token `t` when it carries `t`'s prefix. */
  predicate OwnedBy(pk: string, t: TokenType) {
    StartsWith(pk, TypeName(t) + "_")
  }

  /** Keys of one token's custom claims never carry another token's prefix. */
  lemma OwnedByOnlyOwner(t1: TokenType, k: string, t2: TokenType)
    ensures OwnedBy(PrefixedKey(t1, k), t2) <==> t1 == t2
  {
    if OwnedBy(PrefixedKey(t1, k), t2) {
      assert PrefixedKey(t1, k)[0] == TypeName(t1)[0];
      assert (TypeName(t2) + "_")[0] == TypeName(t2)[0];
    }
  }

  function MergeIfPresent(acc: TokenClaims, b: TokenBundle, decode: string -> Decoded, t: TokenType)
    : Result<TokenClaims, CedarlingError>
  {
    match TokenOf(b, t)
    case None => Ok(acc)
    case Some(tok) =>
      var c :- decode(tok).claims;
      Ok(MergeClaims(acc, c, t))
  }

  /**
   * `extract_claims`: the claims of the access, id and userinfo tokens, merged in that order;
   * the first token whose claims do not extract fails the whole extraction.
   */
  function ExtractClaims(b: TokenBundle, decode: string -> Decoded): (r: Result<TokenClaims, CedarlingError>)
    ensures r.Ok? <==> ClaimsExtract(b, decode)
  {
    var a1 :- MergeIfPresent(TokenClaims(map[], map[]), b, decode, AccessToken);
    var a2 :- MergeIfPresent(a1, b, decode, IdToken);
    MergeIfPresent(a2, b, decode, UserinfoToken)
  }

  /** Whether token `t` is present and carries claim `k`. */
  predicate Provides(b: TokenBundle, decode: string -> Decoded, t: TokenType, k: string) {
    PresentClaims(b, decode, t).Some? && k in PresentClaims(b, decode, t).value
  }

  /**
   * The value a registered claim should have after the merge, stated independently: the
   * userinfo token's if it has the claim, else the id token's, else the access token's.
   */
  function LastWriter(b: TokenBundle, decode: string -> Decoded, k: string): Option<Value> {
    if Provides(b, decode, UserinfoToken, k) then Some(PresentClaims(b, decode, UserinfoToken).value[k])
    else if Provides(b, decode, IdToken, k) then Some(PresentClaims(b, decode, IdToken).value[k])
    else if Provides(b, decode, AccessToken, k) then Some(PresentClaims(b, decode, AccessToken).value[k])
    else None
  }

  /**
   * The standard map holds exactly the registered claims of the present tokens, and for a
   * claim several tokens carry, the later token in the order access, id, userinfo wins.
   */
  lemma {:induction false} ExtractStandardLastWins(b: TokenBundle, decode: string -> Decoded, k: string)
    requires ExtractClaims(b, decode).Ok?
    ensures ExtractClaims(b, decode).value.standard.Keys <= StandardClaimNames
    ensures k in StandardClaimNames ==>
              LastWriter(b, decode, k)
              == (if k in ExtractClaims(b, decode).value.standard
                  then Some(ExtractClaims(b, decode).value.standard[k]) else None)
  {
    var empty := TokenClaims(map[], map[]);
    var a1 := MergeIfPresent(empty, b, decode, AccessToken).value;
    var a2 := MergeIfPresent(a1, b, decode, IdToken).value;
    var a3 := MergeIfPresent(a2, b, decode, UserinfoToken).value;
    assert ExtractClaims(b, decode).value == a3;
  }

  /**
   * Every custom claim of every present token survives the merge under its own prefixed key,
   * so custom claims of different tokens never overwrite each other, and the custom map
   * holds nothing else.
   */
  lemma {:induction false} ExtractCustomKeepsAll(b: TokenBundle, decode: string -> Decoded, t: TokenType, k: string)
    requires ExtractClaims(b, decode).Ok?
    ensures Provides(b, decode, t, k) && k !in StandardClaimNames ==>
              PrefixedKey(t, k) in ExtractClaims(b, decode).value.custom
              && ExtractClaims(b, decode).value.custom[PrefixedKey(t, k)] == PresentClaims(b, decode, t).value[k]
    ensures forall pk :: pk in ExtractClaims(b, decode).value.custom ==>
              exists t', k' :: Provides(b, decode, t', k') && k' !in StandardClaimNames && pk == PrefixedKey(t', k')
  {
    var empty := TokenClaims(map[], map[]);
    var a1 := MergeIfPresent(empty, b, decode, AccessToken).value;
    var a2 := MergeIfPresent(a1, b, decode, IdToken).value;
    var a3 := MergeIfPresent(a2, b, decode, UserinfoToken).value;
    assert ExtractClaims(b, decode).value == a3;
    OwnedByOnlyOwner(t, k, AccessToken);
    OwnedByOnlyOwner(t, k, IdToken);
    OwnedByOnlyOwner(t, k, UserinfoToken);
  }
}
