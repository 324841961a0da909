/**
 * Choice, normalisation and format check of the wallet's private key in
 * `publish-kg`: the `--private-key` argument, else the `PRIVATE_KEY`
 * environment value; a `0x` prefix added when missing; then the pattern
 * `^0x[a-fA-F0-9]{64}$`.
 */
module PrivateKey {
  import opened Wrappers
  import opened JsSemantics

  datatype KeyError =
    | KeyRequired       // "Private key required. Provide via --private-key or PRIVATE_KEY environment variable."
    | InvalidKeyFormat  // "Invalid private key format. Must be a 64-character hex string."

  /** `privateKey || process.env.PRIVATE_KEY`, followed by the `!walletPrivateKey` test. */
  function ChooseKey(privateKey: Option<string>, envKey: Option<string>): (r: Option<string>)
    ensures r.Some? <==> Truthy(privateKey) || Truthy(envKey)
    ensures r.Some? ==> r.value != ""
    ensures Truthy(privateKey) ==> r == privateKey
    ensures !Truthy(privateKey) && Truthy(envKey) ==> r == envKey
  {
    var k := OrElse(privateKey, envKey);
    if Truthy(k) then k else None
  }

  /** `s.startsWith('0x')` */
  predicate HasHexPrefix(s: string) {
    StartsWith(s, "0x")
  }

  /** `key.startsWith('0x') ? key : `0x${key}``: the key gains a `0x` prefix and loses nothing. */
  function Normalize(key: string): (r: string)
    ensures HasHexPrefix(r)
    ensures r == key <==> HasHexPrefix(key)
    ensures r != key ==> r[2..] == key
  {
    if HasHexPrefix(key) then key else "0x" + key
  }

  /** Normalising an already normalised key changes nothing. */
  lemma NormalizeIdempotent(key: string)
    ensures Normalize(Normalize(key)) == Normalize(key)
  {
  }

  predicate IsHexDigit(c: char) {
    '0' <= c <= '9' || 'a' <= c <= 'f' || 'A' <= c <= 'F'
  }

  /** Exactly 64 hexadecimal digits and nothing else. */
  predicate IsHexBody(s: string) {
    |s| == 64 && forall i :: 0 <= i < |s| ==> IsHexDigit(s[i])
  }

  /** The strings `^0x[a-fA-F0-9]{64}$` accepts, read declaratively. */
  predicate WellFormedKey(k: string) {
    HasHexPrefix(k) && IsHexBody(k[2..])
  }

  /** `[a-fA-F0-9]{n}$`: exactly `n` hex digits, then the end of the input. */
  function MatchHexRun(s: string, n: nat): bool {
    if n == 0 then s == [] else s != [] && IsHexDigit(s[0]) && MatchHexRun(s[1..], n - 1)
  }

  /** `/^0x[a-fA-F0-9]{64}$/.test(k)`, matched left to right. */
  function MatchesKeyPattern(k: string): bool {
    |k| >= 2 && k[0] == '0' && k[1] == 'x' && MatchHexRun(k[2..], 64)
  }

  lemma {:induction false} HexRunIff(s: string, n: nat)
    ensures MatchHexRun(s, n) <==> |s| == n && forall i :: 0 <= i < |s| ==> IsHexDigit(s[i])
  {
    if n > 0 && s != [] {
      HexRunIff(s[1..], n - 1);
      assert forall i :: 1 <= i < |s| ==> s[i] == s[1..][i - 1];
    }
  }

  /** The matcher accepts exactly the well-formed keys. */
  lemma KeyPatternIff(k: string)
    ensures MatchesKeyPattern(k) <==> WellFormedKey(k)
  {
    if |k| >= 2 {
      HexRunIff(k[2..], 64);
    }
  }

  /** Choice, normalisation and format check, in the order the action runs them. */
  function ResolveKey(privateKey: Option<string>, envKey: Option<string>): (r: Result<string, KeyError>)
    ensures r == Failure(KeyRequired) <==> !Truthy(privateKey) && !Truthy(envKey)
    ensures r.Success? ==> WellFormedKey(r.value) && r.value == Normalize(ChooseKey(privateKey, envKey).value)
  {
    match ChooseKey(privateKey, envKey)
    case None => Failure(KeyRequired)
    case Some(key) =>
      var formatted := Normalize(key);
      KeyPatternIff(formatted);
      if MatchesKeyPattern(formatted) then Success(formatted) else Failure(InvalidKeyFormat)
  }

  /**
   * A chosen key is accepted if and only if it already is `0x` followed by
   * 64 hex digits, or it is 64 hex digits without the prefix.
   */
  lemma NormalizedKeyAccepted(key: string)
    ensures MatchesKeyPattern(Normalize(key)) <==> WellFormedKey(key) || IsHexBody(key)
  {
    var formatted := Normalize(key);
    KeyPatternIff(formatted);
    if HasHexPrefix(key) {
      assert formatted == key;
    } else {
      assert formatted[2..] == key && !WellFormedKey(key);
      assert WellFormedKey(formatted) <==> IsHexBody(key);
    }
  }

  /** Hence the whole key step succeeds exactly for those two shapes of the chosen key. */
  lemma ResolveKeySucceedsIff(privateKey: Option<string>, envKey: Option<string>)
    ensures ResolveKey(privateKey, envKey).Success? <==>
      var chosen := ChooseKey(privateKey, envKey);
      chosen.Some? && (WellFormedKey(chosen.value) || IsHexBody(chosen.value))
  {
    var chosen := ChooseKey(privateKey, envKey);
    if chosen.Some? {
      NormalizedKeyAccepted(chosen.value);
    }
  }

  /** An upper-case `0X` prefix is not recognised: the key gains a second prefix and is rejected. */
  lemma UpperCasePrefixRejected(body: string)
    requires IsHexBody(body)
    ensures ResolveKey(Some("0X" + body), None) == Failure(InvalidKeyFormat)
  {
    var key := "0X" + body;
    assert !HasHexPrefix(key);
    NormalizedKeyAccepted(key);
  }
}
