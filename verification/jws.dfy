/**
 * Structural checks on a compact-serialised JWS (jans-cedarling/cedarling_pg/src/token.rs):
 * the three-part shape of section 7.1 of RFC 7515, the base64url-to-base64 fix-up of a part
 * before decoding (section 5 of RFC 4648), and the allow-list of signing algorithms, whose
 * names are those of section 3.1 of RFC 7518.
 */
module Jws {
  import opened Wrappers
  import opened Strings

  /** Number of parts `token.split('.')` yields. */
  function PartCount(token: string): nat {
    |Split(token, '.')|
  }

  /** A token has the compact three-part shape exactly when it contains two dots. */
  lemma PartCountIsDots(token: string)
    ensures PartCount(token) == 3 <==> Count(token, '.') == 2
  {
    SplitLength(token, '.');
  }

  /** The base64url characters '-' and '_' become the standard alphabet's '+' and '/'. */
  function ToStandardAlphabet(c: char): char {
    if c == '-' then '+' else if c == '_' then '/' else c
  }

  /** Number of '=' needed to bring length `n` to a multiple of four. */
  function PaddingFor(n: nat): (k: nat)
    ensures k < 4 && (n + k) % 4 == 0
  {
    (4 - n % 4) % 4
  }

  /**
   * The fix-up `base64_decode_jwt_part` performs before decoding: append '=' until the length
   * is a multiple of four, then replace '-' by '+' and '_' by '/'. (The source does the two
   * replacements one after the other; since neither replacement character is itself replaced,
   * that is the same as one character-wise substitution.)
   */
  method PadJwtPart(part: string) returns (r: string)
    ensures |r| % 4 == 0
    ensures |r| == |part| + PaddingFor(|part|)
    ensures forall i :: 0 <= i < |part| ==> r[i] == ToStandardAlphabet(part[i])
    ensures forall i :: |part| <= i < |r| ==> r[i] == '='
    ensures '-' !in r && '_' !in r
  {
    var padded := part;
    while |padded| % 4 != 0
      invariant |part| <= |padded| <= |part| + PaddingFor(|part|)
      invariant padded[..|part|] == part
      invariant forall i :: |part| <= i < |padded| ==> padded[i] == '='
      decreases |part| + PaddingFor(|part|) - |padded|
    {
      padded := padded + "=";
    }
    var standard := "";
    var i := 0;
    while i < |padded|
      invariant 0 <= i <= |padded|
      invariant |standard| == i
      invariant forall j :: 0 <= j < i ==> standard[j] == ToStandardAlphabet(padded[j])
    {
      standard := standard + [ToStandardAlphabet(padded[i])];
      i := i + 1;
    }
    r := standard;
  }

  /** The signing algorithms the JWT library knows. */
  datatype Algorithm =
    | HS256 | HS384 | HS512
    | ES256 | ES384
    | RS256 | RS384 | RS512
    | PS256 | PS384 | PS512
    | EdDSA

  /** The `alg` header value naming each algorithm. */
  function AlgorithmName(a: Algorithm): string {
    match a
    case HS256 => "HS256"
    case HS384 => "HS384"
    case HS512 => "HS512"
    case ES256 => "ES256"
    case ES384 => "ES384"
    case RS256 => "RS256"
    case RS384 => "RS384"
    case RS512 => "RS512"
    case PS256 => "PS256"
    case PS384 => "PS384"
    case PS512 => "PS512"
    case EdDSA => "EdDSA"
  }

  /** Reading the `alg` header value; any other name makes the header undecodable. */
  function AlgorithmFromName(name: string): (r: Option<Algorithm>)
    ensures r.Some? ==> AlgorithmName(r.value) == name
  {
    match name
    case "HS256" => Some(HS256)
    case "HS384" => Some(HS384)
    case "HS512" => Some(HS512)
    case "ES256" => Some(ES256)
    case "ES384" => Some(ES384)
    case "RS256" => Some(RS256)
    case "RS384" => Some(RS384)
    case "RS512" => Some(RS512)
    case "PS256" => Some(PS256)
    case "PS384" => Some(PS384)
    case "PS512" => Some(PS512)
    case "EdDSA" => Some(EdDSA)
    case _ => None
  }

  /** Every algorithm's name reads back as that algorithm. */
  lemma AlgorithmNameRoundTrip(a: Algorithm)
    ensures AlgorithmFromName(AlgorithmName(a)) == Some(a)
  {
  }

  datatype AlgorithmClass = Asymmetric | Symmetric

  const AsymmetricAllowed: set<Algorithm> := {RS256, RS384, RS512, ES256, ES384}
  const SymmetricAllowed: set<Algorithm> := {HS256, HS384, HS512}

  /**
   * The algorithm allow-list of `validate_jwt_with_signature`: RSA and ECDSA are accepted,
   * HMAC is accepted with a warning, and everything else (RSA-PSS, EdDSA) is refused.
   */
  function ClassifyAlgorithm(a: Algorithm): (r: Option<AlgorithmClass>)
    ensures r.Some? <==> a in AsymmetricAllowed + SymmetricAllowed
    ensures r == Some(Symmetric) <==> a in SymmetricAllowed
  {
    match a
    case RS256 | RS384 | RS512 | ES256 | ES384 => Some(Asymmetric)
    case HS256 | HS384 | HS512 => Some(Symmetric)
    case _ => None
  }

  /** An `alg` name is accepted exactly when it is one of the eight allowed names. */
  lemma AllowedNames(name: string)
    ensures (AlgorithmFromName(name).Some? && ClassifyAlgorithm(AlgorithmFromName(name).value).Some?)
            <==> name in {"RS256", "RS384", "RS512", "ES256", "ES384", "HS256", "HS384", "HS512"}
  {
  }
}
