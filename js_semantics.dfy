/**
 * The pieces of JavaScript semantics the two task actions rely on:
 * truthiness of optional strings (`""` behaves like an absent value),
 * `a || b`, `String.prototype.trim` and `Array.prototype.find`.
 */
module JsSemantics {
  import opened Wrappers

  /** A string argument is truthy when it is present and not empty. */
  predicate Truthy(o: Option<string>) {
    o.Some? && o.value != ""
  }

  /** `a || b` on optional strings: the first operand when it is truthy, otherwise the second. */
  function OrElse(a: Option<string>, b: Option<string>): (r: Option<string>)
    ensures Truthy(r) <==> Truthy(a) || Truthy(b)
    ensures Truthy(a) ==> r == a
    ensures !Truthy(a) ==> r == b
  {
    if Truthy(a) then a else b
  }

  /** `o || ""`: the string when it is truthy, otherwise the empty string. */
  function OrEmpty(o: Option<string>): (r: string)
    ensures r != "" <==> Truthy(o)
    ensures r != "" ==> o == Some(r)
  {
    if Truthy(o) then o.value else ""
  }

  /** The characters `trim` removes: ECMAScript WhiteSpace (including the Zs category) and LineTerminator. */
  const JsWhitespace: set<char> := {
    '\t', '\n', '\U{000B}', '\U{000C}', '\r', ' ', '\U{00A0}', '\U{1680}',
    '\U{2000}', '\U{2001}', '\U{2002}', '\U{2003}', '\U{2004}', '\U{2005}',
    '\U{2006}', '\U{2007}', '\U{2008}', '\U{2009}', '\U{200A}',
    '\U{2028}', '\U{2029}', '\U{202F}', '\U{205F}', '\U{3000}', '\U{FEFF}'
  }

  predicate IsJsWhitespace(c: char) {
    c in JsWhitespace
  }

  predicate AllWhitespace(s: string) {
    forall i :: 0 <= i < |s| ==> IsJsWhitespace(s[i])
  }

  /** Whitespace with one more whitespace character on either side is still whitespace. */
  lemma WhitespaceAround(c: char, w: string)
    requires IsJsWhitespace(c) && AllWhitespace(w)
    ensures AllWhitespace([c] + w) && AllWhitespace(w + [c])
  {
  }

  /** Drops the leading whitespace of `s`: what remains is a suffix, and what is dropped is all whitespace. */
  function TrimStart(s: string): (r: string)
    ensures |r| <= |s| && r == s[|s| - |r|..]
    ensures AllWhitespace(s[..|s| - |r|])
    ensures r == [] <==> AllWhitespace(s)
    ensures r != [] ==> !IsJsWhitespace(r[0])
  {
    if s != [] && IsJsWhitespace(s[0]) then
      var r := TrimStart(s[1..]);
      var dropped := s[1..][..|s| - 1 - |r|];
      assert s[..|s| - |r|] == [s[0]] + dropped;
      WhitespaceAround(s[0], dropped);
      r
    else s
  }

  /** Drops the trailing whitespace of `s`: what remains is a prefix, and what is dropped is all whitespace. */
  function TrimEnd(s: string): (r: string)
    ensures |r| <= |s| && r == s[..|r|]
    ensures AllWhitespace(s[|r|..])
    ensures r == [] <==> AllWhitespace(s)
    ensures r != [] ==> !IsJsWhitespace(r[|r| - 1])
  {
    if s != [] && IsJsWhitespace(s[|s| - 1]) then
      var r := TrimEnd(s[..|s| - 1]);
      var dropped := s[..|s| - 1][|r|..];
      assert s[|r|..] == dropped + [s[|s| - 1]];
      WhitespaceAround(s[|s| - 1], dropped);
      r
    else s
  }

  /**
   * `s.trim()`: drops whitespace from both ends. The result is empty exactly
   * for all-whitespace input, and otherwise starts and ends on a
   * non-whitespace character.
   */
  function Trim(s: string): (r: string)
    ensures |r| <= |s|
    ensures r == [] <==> AllWhitespace(s)
    ensures r != [] ==> !IsJsWhitespace(r[0]) && !IsJsWhitespace(r[|r| - 1])
    decreases |s|
  {
    if s != [] && IsJsWhitespace(s[0]) then
      assert forall i :: 1 <= i < |s| ==> s[i] == s[1..][i - 1];
      Trim(s[1..])
    else if s != [] && IsJsWhitespace(s[|s| - 1]) then
      assert forall i :: 0 <= i < |s| - 1 ==> s[i] == s[..|s| - 1][i];
      Trim(s[..|s| - 1])
    else s
  }

  /** Trimming both ends at once is trimming the start, then the end. */
  lemma {:induction false} TrimIsStartThenEnd(s: string)
    ensures Trim(s) == TrimEnd(TrimStart(s))
    decreases |s|
  {
    if s != [] && IsJsWhitespace(s[0]) {
      TrimIsStartThenEnd(s[1..]);
      assert Trim(s) == Trim(s[1..]) && TrimStart(s) == TrimStart(s[1..]);
    } else if s != [] && IsJsWhitespace(s[|s| - 1]) {
      var init := s[..|s| - 1];
      TrimIsStartThenEnd(init);
      assert init[0] == s[0];
      assert TrimStart(init) == init && TrimStart(s) == s;
      assert Trim(s) == Trim(init) && TrimEnd(s) == TrimEnd(init);
    }
  }

  /** `s` is whitespace, then `r` from index `i` on, then whitespace again. */
  predicate PaddedPiece(s: string, i: int, r: string) {
    && 0 <= i && i + |r| <= |s| && r == s[i..i + |r|]
    && AllWhitespace(s[..i]) && AllWhitespace(s[i + |r|..])
  }

  /** `trim()` keeps a piece of its input and drops only whitespace on either side of it. */
  lemma TrimDropsOnlyWhitespace(s: string)
    ensures PaddedPiece(s, |s| - |TrimStart(s)|, Trim(s))
  {
    TrimStartThenEndPiece(s);
    TrimIsStartThenEnd(s);
  }

  lemma TrimStartThenEndPiece(s: string)
    ensures PaddedPiece(s, |s| - |TrimStart(s)|, TrimEnd(TrimStart(s)))
  {
    PrefixOfSuffix(s, TrimStart(s), TrimEnd(TrimStart(s)));
  }

  /** A prefix `r` of a suffix `t` of `s`, each cut off from whitespace, is a padded piece of `s`. */
  lemma PrefixOfSuffix(s: string, t: string, r: string)
    requires |t| <= |s| && t == s[|s| - |t|..] && AllWhitespace(s[..|s| - |t|])
    requires |r| <= |t| && r == t[..|r|] && AllWhitespace(t[|r|..])
    ensures PaddedPiece(s, |s| - |t|, r)
  {
    assert t[|r|..] == s[|s| - |t| + |r|..];
  }

  /** `s.startsWith(prefix)` */
  predicate StartsWith(s: string, prefix: string) {
    |prefix| <= |s| && s[..|prefix|] == prefix
  }

  /** The required-argument test `!s || s.trim() === ""`. */
  function IsBlank(s: string): (blank: bool)
    ensures blank <==> AllWhitespace(s)
  {
    s == "" || Trim(s) == ""
  }

  /** `s.find(p)`: the first element satisfying `p`, or nothing. */
  function Find<T>(s: seq<T>, p: T -> bool): (r: Option<T>)
    ensures r.None? <==> forall i :: 0 <= i < |s| ==> !p(s[i])
    ensures r.Some? ==> exists i :: 0 <= i < |s| && s[i] == r.value && p(s[i]) && forall j :: 0 <= j < i ==> !p(s[j])
  {
    if s == [] then None
    else if p(s[0]) then Some(s[0])
    else
      var r := Find(s[1..], p);
      assert forall i :: 1 <= i < |s| ==> s[i] == s[1..][i - 1];
      r
  }

  /** `find` returns the element at the first position that satisfies `p`. */
  lemma FindAt<T>(s: seq<T>, p: T -> bool, k: nat)
    requires k < |s| && p(s[k])
    requires forall j :: 0 <= j < k ==> !p(s[j])
    ensures Find(s, p) == Some(s[k])
  {
  }
}
