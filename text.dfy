/** String helpers standing in for the JavaScript built-ins the program relies on:
    String.prototype.trim, toLowerCase, includes, startsWith, endsWith and
    Array.prototype.join. Strings are sequences of UTF-16 code units (`char`). */
module Text {

  /** The characters String.prototype.trim removes: the ECMAScript WhiteSpace
      and LineTerminator code points. */
  predicate IsWhitespace(c: char) {
    c == ' ' || ('\t' <= c <= '\r')
    || c == '\U{00A0}' || c == '\U{1680}' || ('\U{2000}' <= c <= '\U{200A}')
    || c == '\U{2028}' || c == '\U{2029}' || c == '\U{202F}' || c == '\U{205F}'
    || c == '\U{3000}' || c == '\U{FEFF}'
  }

  predicate IsBlank(s: string) {
    forall i :: 0 <= i < |s| ==> IsWhitespace(s[i])
  }

  /** No whitespace at either end. */
  predicate IsTrimmed(s: string) {
    s == [] || (!IsWhitespace(s[0]) && !IsWhitespace(s[|s| - 1]))
  }

  /** String.prototype.trim: removes the whitespace at both ends, one
      character at a time. */
  function Trim(s: string): (r: string)
    ensures IsTrimmed(r)
    ensures |r| <= |s|
    ensures r == [] <==> IsBlank(s)
    decreases |s|
  {
    if s == [] then s
    else if IsWhitespace(s[0]) then
      var r := Trim(s[1..]);
      assert IsBlank(s[1..]) ==> IsBlank(s) by {
        if IsBlank(s[1..]) {
          assert forall i :: 1 <= i < |s| ==> s[i] == s[1..][i - 1];
        }
      }
      r
    else if IsWhitespace(s[|s| - 1]) then
      var r := Trim(s[..|s| - 1]);
      assert !IsBlank(s[..|s| - 1]) by { assert s[..|s| - 1][0] == s[0]; }
      r
    else s
  }

  lemma TrimmedIsFixpoint(s: string)
    requires IsTrimmed(s)
    ensures Trim(s) == s
  {
  }

  /** Trimming twice is trimming once. */
  lemma TrimIdempotent(s: string)
    ensures Trim(Trim(s)) == Trim(s)
  {
    TrimmedIsFixpoint(Trim(s));
  }

  function LowerChar(c: char): (r: char)
    ensures 'A' <= c <= 'Z' ==> r as int == c as int + 32
    ensures !('A' <= c <= 'Z') ==> r == c
  {
    if 'A' <= c <= 'Z' then (c as int + 32) as char else c
  }

  /** toLowerCase, restricted to the ASCII letters. */
  function ToLower(s: string): (r: string)
    ensures |r| == |s|
    ensures forall i :: 0 <= i < |s| ==> r[i] == LowerChar(s[i])
  {
    seq(|s|, i requires 0 <= i < |s| => LowerChar(s[i]))
  }

  predicate StartsWith(s: string, prefix: string) {
    |prefix| <= |s| && s[..|prefix|] == prefix
  }

  predicate EndsWith(s: string, suffix: string) {
    |suffix| <= |s| && s[|s| - |suffix|..] == suffix
  }

  /** String.prototype.includes. */
  predicate Contains(s: string, sub: string)
    decreases |s|
  {
    StartsWith(s, sub) || (s != [] && Contains(s[1..], sub))
  }

  /** Contains holds exactly when `sub` occurs at some index of `s`. */
  lemma {:induction false} ContainsAt(s: string, sub: string, k: nat)
    requires k + |sub| <= |s| && s[k..k + |sub|] == sub
    ensures Contains(s, sub)
    decreases k
  {
    if k > 0 {
      assert s[1..][k - 1..k - 1 + |sub|] == s[k..k + |sub|];
      ContainsAt(s[1..], sub, k - 1);
    }
  }

  /** Array.prototype.join. */
  function Join(parts: seq<string>, sep: string): string
  {
    if |parts| == 0 then ""
    else if |parts| == 1 then parts[0]
    else parts[0] + sep + Join(parts[1..], sep)
  }

  /** The joined text ends with the last part. */
  lemma {:induction false} JoinEndsWithLast(parts: seq<string>, sep: string)
    requires |parts| > 0
    ensures EndsWith(Join(parts, sep), parts[|parts| - 1])
  {
    if |parts| > 1 {
      JoinEndsWithLast(parts[1..], sep);
      var rest := Join(parts[1..], sep);
      var whole := parts[0] + sep + rest;
      assert whole[|whole| - |rest|..] == rest;
    }
  }

  function DigitChar(d: nat): char
    requires d < 10
  {
    ('0' as int + d) as char
  }

  /** Decimal rendering of a natural number, as String(n) gives it. */
  function NatToString(n: nat): (r: string)
    ensures |r| > 0
    ensures forall i :: 0 <= i < |r| ==> '0' <= r[i] <= '9'
  {
    if n < 10 then [DigitChar(n)] else NatToString(n / 10) + [DigitChar(n % 10)]
  }

  /** String(n) for any integer. */
  function IntToString(n: int): (r: string)
    ensures |r| > 0
    ensures n < 0 <==> r[0] == '-'
  {
    if n < 0 then "-" + NatToString(-n) else NatToString(n)
  }

  /** A join of several parts starts with the first of them. */
  lemma {:induction false} JoinStartsWithFirst(parts: seq<string>, sep: string)
    requires |parts| > 0
    ensures StartsWith(Join(parts, sep), parts[0])
  {
    if |parts| > 1 {
      var whole := parts[0] + sep + Join(parts[1..], sep);
      assert whole[..|parts[0]|] == parts[0];
    }
  }
}
