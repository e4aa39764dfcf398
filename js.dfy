/** The pieces of JavaScript value semantics that the DevShelf sources lean on:
    missing values, truthiness of strings, `toLowerCase`, `includes`, `trim`,
    `slice(0, n)` and the decimal rendering of a status number. */
module Js {

  /** A value that may be `null` or `undefined` (both are `None`). */
  datatype Option<+T> = None | Some(value: T)

  /** The outcome of a computation that may throw; `Err` carries the thrown
      Error's message. */
  datatype Result<+T> = Ok(value: T) | Err(message: string)

  /** A `string | null | undefined` is truthy iff it is a non-empty string. */
  predicate Truthy(s: Option<string>) {
    s.Some? && s.value != ""
  }

  /** `a || b` where `a` may be missing and `b` is a string. */
  function OrElse(a: Option<string>, b: string): (r: string)
    ensures Truthy(a) ==> r == a.value
    ensures !Truthy(a) ==> r == b
  {
    if Truthy(a) then a.value else b
  }

  /** A `boolean | undefined` is truthy iff it is `true`. */
  predicate IsTrue(b: Option<bool>) {
    b == Some(true)
  }

  // ---------------------------------------------------------------- case

  /** Lower-casing of one character, restricted to ASCII letters. */
  function LowerChar(c: char): char {
    if 'A' <= c <= 'Z' then (c as int + 32) as char else c
  }

  function ToLower(s: string): (r: string)
    ensures |r| == |s|
    ensures forall i :: 0 <= i < |s| ==> r[i] == LowerChar(s[i])
  {
    seq(|s|, i requires 0 <= i < |s| => LowerChar(s[i]))
  }

  // ------------------------------------------------------------ includes

  predicate StartsWith(s: string, prefix: string) {
    |prefix| <= |s| && s[..|prefix|] == prefix
  }

  /** `needle` occurs somewhere in `hay`: the meaning of `hay.includes(needle)`. */
  ghost predicate Occurs(hay: string, needle: string) {
    exists i :: 0 <= i <= |hay| && StartsWith(hay[i..], needle)
  }

  /** `hay.includes(needle)`, as a left-to-right scan. */
  function Includes(hay: string, needle: string): bool
    decreases |hay|
  {
    if StartsWith(hay, needle) then true
    else if hay == [] then false
    else Includes(hay[1..], needle)
  }

  /** The scan finds the needle exactly when it occurs. */
  lemma {:induction false} IncludesIffOccurs(hay: string, needle: string)
    ensures Includes(hay, needle) <==> Occurs(hay, needle)
    decreases |hay|
  {
    if StartsWith(hay, needle) {
      assert hay[0..] == hay;
    } else if hay == [] {
      forall i | 0 <= i <= |hay| ensures !StartsWith(hay[i..], needle) {
        assert hay[i..] == hay;
      }
    } else {
      IncludesIffOccurs(hay[1..], needle);
      if Occurs(hay, needle) {
        var i :| 0 <= i <= |hay| && StartsWith(hay[i..], needle);
        assert i != 0 by { assert hay[0..] == hay; }
        assert hay[1..][i - 1..] == hay[i..];
      }
      if Occurs(hay[1..], needle) {
        var i :| 0 <= i <= |hay[1..]| && StartsWith(hay[1..][i..], needle);
        assert hay[1..][i..] == hay[i + 1..];
      }
    }
  }

  /** Every string includes the empty string. */
  lemma IncludesEmpty(hay: string)
    ensures Includes(hay, "")
  {
  }

  // ---------------------------------------------------------------- trim

  /** The code points `String.prototype.trim` removes: ECMAScript WhiteSpace
      and LineTerminator. */
  predicate IsSpace(c: char) {
    var n := c as int;
    n == 0x20 || (0x09 <= n <= 0x0D) || n == 0xA0 || n == 0x1680
    || (0x2000 <= n <= 0x200A) || n == 0x2028 || n == 0x2029
    || n == 0x202F || n == 0x205F || n == 0x3000 || n == 0xFEFF
  }

  predicate AllSpace(s: string) {
    forall i :: 0 <= i < |s| ==> IsSpace(s[i])
  }

  /** Number of leading white-space characters. */
  function LeadingSpaces(s: string): (k: nat)
    ensures k <= |s|
    ensures forall i :: 0 <= i < k ==> IsSpace(s[i])
    ensures k < |s| ==> !IsSpace(s[k])
  {
    if s != [] && IsSpace(s[0]) then 1 + LeadingSpaces(s[1..]) else 0
  }

  /** Number of trailing white-space characters. */
  function TrailingSpaces(s: string): (k: nat)
    ensures k <= |s|
    ensures forall i :: |s| - k <= i < |s| ==> IsSpace(s[i])
    ensures k < |s| ==> !IsSpace(s[|s| - 1 - k])
  {
    if s != [] && IsSpace(s[|s| - 1]) then 1 + TrailingSpaces(s[..|s| - 1]) else 0
  }

  /** `s.trim()`: the slice of `s` without leading and trailing white space. */
  function Trim(s: string): (r: string)
    ensures r == "" <==> AllSpace(s)
    ensures r != "" ==> !IsSpace(r[0]) && !IsSpace(r[|r| - 1])
    ensures |r| <= |s|
    ensures exists a :: 0 <= a && a + |r| <= |s| && r == s[a..a + |r|] && AllSpace(s[..a]) && AllSpace(s[a + |r|..])
  {
    var a := LeadingSpaces(s);
    var b := TrailingSpaces(s[a..]);
    SpaceRunsOf(s);
    TrimEmptyIff(s, a, b);
    TrimEnds(s, a, b);
    TrimBounded(s, a, b);
    s[a..|s| - b]
  }

  /** What `LeadingSpaces` and `TrailingSpaces` report: `a` leading and `b`
      trailing white-space characters, each run as long as it can be. */
  ghost predicate SpaceRuns(s: string, a: nat, b: nat) {
    && a + b <= |s|
    && (forall i :: 0 <= i < a ==> IsSpace(s[i]))
    && (a < |s| ==> !IsSpace(s[a]))
    && (forall i :: |s| - b <= i < |s| ==> IsSpace(s[i]))
    && (a + b < |s| ==> !IsSpace(s[|s| - 1 - b]))
  }

  /** The runs `Trim` cuts off are the ones `SpaceRuns` describes. */
  lemma SpaceRunsOf(s: string)
    ensures SpaceRuns(s, LeadingSpaces(s), TrailingSpaces(s[LeadingSpaces(s)..]))
  {
    var a := LeadingSpaces(s);
    var rest := s[a..];
    var b := TrailingSpaces(rest);
    forall i | |s| - b <= i < |s| ensures IsSpace(s[i]) {
      assert s[i] == rest[i - a];
    }
    if a + b < |s| {
      assert s[|s| - 1 - b] == rest[|rest| - 1 - b];
    }
  }

  lemma TrimEmptyIff(s: string, a: nat, b: nat)
    requires SpaceRuns(s, a, b)
    ensures s[a..|s| - b] == "" <==> AllSpace(s)
  {
  }

  lemma TrimEnds(s: string, a: nat, b: nat)
    requires SpaceRuns(s, a, b)
    ensures var r := s[a..|s| - b]; r != "" ==> !IsSpace(r[0]) && !IsSpace(r[|r| - 1])
  {
  }

  lemma TrimBounded(s: string, a: nat, b: nat)
    requires SpaceRuns(s, a, b)
    ensures var r := s[a..|s| - b];
      exists k :: 0 <= k && k + |r| <= |s| && r == s[k..k + |r|] && AllSpace(s[..k]) && AllSpace(s[k + |r|..])
  {
    var r := s[a..|s| - b];
    assert AllSpace(s[..a]);
    assert AllSpace(s[a + |r|..]);
  }

  // --------------------------------------------------------------- slice

  /** `xs.slice(0, n)`: the first `n` elements, or all of them if fewer. */
  function Take<T>(xs: seq<T>, n: nat): (r: seq<T>)
    ensures |r| == if |xs| < n then |xs| else n
    ensures r == xs[..|r|]
  {
    if |xs| < n then xs else xs[..n]
  }

  // ----------------------------------------------------- decimal numbers

  function DigitChar(d: nat): char
    requires d < 10
  {
    "0123456789"[d]
  }

  function DigitValue(c: char): nat {
    if '0' <= c <= '9' then c as int - '0' as int else 0
  }

  /** The decimal text of a number, as a template literal interpolates it. */
  function NatToString(n: nat): (r: string)
    ensures |r| >= 1
    ensures forall i :: 0 <= i < |r| ==> '0' <= r[i] <= '9'
  {
    if n < 10 then [DigitChar(n)] else NatToString(n / 10) + [DigitChar(n % 10)]
  }

  /** Reading decimal digits back into a number. */
  function ParseDecimal(s: string): nat {
    if s == [] then 0 else ParseDecimal(s[..|s| - 1]) * 10 + DigitValue(s[|s| - 1])
  }

  lemma {:induction false} ParseNatToString(n: nat)
    ensures ParseDecimal(NatToString(n)) == n
  {
    if n >= 10 {
      var s := NatToString(n);
      assert s[..|s| - 1] == NatToString(n / 10);
      ParseNatToString(n / 10);
    }
  }

  /** Different numbers render as different texts. */
  lemma NatToStringInjective(m: nat, n: nat)
    requires m != n
    ensures NatToString(m) != NatToString(n)
  {
    ParseNatToString(m);
    ParseNatToString(n);
  }
}
