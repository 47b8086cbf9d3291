/**
 * The JavaScript string primitives the storefront relies on: `trim`, `toUpperCase`,
 * `toLowerCase`, `includes`, `Array.prototype.join`, number-to-string and the two
 * string-to-number conversions (`parseFloat`, `Number`).
 *
 * Strings are sequences of Unicode code points. Case mapping is exact on ASCII and
 * Latin-1 (U+0000 to U+00FF) and the identity on every other character.
 */
module Text {
  import opened Wrappers

  // ---------------------------------------------------------------------------
  // White space
  // ---------------------------------------------------------------------------

  /** ECMAScript WhiteSpace and LineTerminator: what `trim` removes and `\s` matches. */
  predicate IsSpace(c: char) {
    || c == ' ' || c == '\t' || c == '\n' || c == '\r' || c == '\U{B}' || c == '\U{C}'
    || c == '\U{A0}' || c == '\U{1680}' || ('\U{2000}' <= c <= '\U{200A}')
    || c == '\U{2028}' || c == '\U{2029}' || c == '\U{202F}' || c == '\U{205F}'
    || c == '\U{3000}' || c == '\U{FEFF}'
  }

  predicate AllSpace(s: string) {
    forall i :: 0 <= i < |s| ==> IsSpace(s[i])
  }

  /** `String.prototype.trimStart`. */
  function TrimStart(s: string): (r: string)
    ensures |r| <= |s| && r == s[|s| - |r|..]
    ensures r == [] || !IsSpace(r[0])
  {
    if |s| > 0 && IsSpace(s[0]) then TrimStart(s[1..]) else s
  }

  /** `String.prototype.trimEnd`. */
  function TrimEnd(s: string): (r: string)
    ensures |r| <= |s| && r == s[..|r|]
    ensures r == [] || !IsSpace(r[|r| - 1])
  {
    if |s| > 0 && IsSpace(s[|s| - 1]) then TrimEnd(s[..|s| - 1]) else s
  }

  /** `String.prototype.trim`: white space removed from both ends. */
  function Trim(s: string): (r: string)
    ensures r == [] || (!IsSpace(r[0]) && !IsSpace(r[|r| - 1]))
  {
    TrimEnd(TrimStart(s))
  }

  lemma TrimStartOfUntrimmed(s: string)
    requires s == [] || !IsSpace(s[0])
    ensures TrimStart(s) == s
  {
  }

  lemma TrimEndOfUntrimmed(s: string)
    requires s == [] || !IsSpace(s[|s| - 1])
    ensures TrimEnd(s) == s
  {
  }

  /** Trimming twice is trimming once. */
  lemma TrimIdempotent(s: string)
    ensures Trim(Trim(s)) == Trim(s)
  {
    var t := Trim(s);
    TrimStartOfUntrimmed(t);
    TrimEndOfUntrimmed(t);
  }

  lemma {:induction false} TrimStartEmptyIff(s: string)
    ensures TrimStart(s) == [] <==> AllSpace(s)
  {
    if |s| > 0 && IsSpace(s[0]) {
      TrimStartEmptyIff(s[1..]);
      assert AllSpace(s) <==> AllSpace(s[1..]);
    }
  }

  lemma {:induction false} TrimEndKeepsLead(t: string)
    requires t != [] && !IsSpace(t[0])
    ensures TrimEnd(t) != []
    decreases |t|
  {
    if IsSpace(t[|t| - 1]) {
      TrimEndKeepsLead(t[..|t| - 1]);
    }
  }

  /** A string trims to the empty string exactly when it is all white space. */
  lemma TrimEmptyIffAllSpace(s: string)
    ensures Trim(s) == [] <==> AllSpace(s)
  {
    TrimStartEmptyIff(s);
    if TrimStart(s) != [] {
      TrimEndKeepsLead(TrimStart(s));
    }
  }

  /** Whatever holds of every character of `s` holds of every character of `trim(s)`. */
  lemma TrimKeeps(s: string, p: char -> bool)
    requires forall k :: 0 <= k < |s| ==> p(s[k])
    ensures forall k :: 0 <= k < |Trim(s)| ==> p(Trim(s)[k])
  {
    var t := TrimStart(s);
    assert forall k :: 0 <= k < |t| ==> t[k] == s[|s| - |t| + k];
    var r := TrimEnd(t);
    assert forall k :: 0 <= k < |r| ==> r[k] == t[k];
  }

  // ---------------------------------------------------------------------------
  // Case mapping
  // ---------------------------------------------------------------------------

  /** `toUpperCase` of one character: a string, because `ß` becomes `SS`. */
  function UpperChar(c: char): (r: string)
    ensures |r| >= 1
    ensures IsSpace(c) ==> r == [c]
    ensures !IsSpace(c) ==> !IsSpace(r[0]) && !IsSpace(r[|r| - 1])
  {
    if 'a' <= c <= 'z' then [(c as int - 32) as char]
    else if '\U{E0}' <= c <= '\U{FE}' && c != '\U{F7}' then [(c as int - 32) as char]
    else if c == '\U{FF}' then ['\U{178}']
    else if c == '\U{B5}' then ['\U{39C}']
    else if c == '\U{DF}' then "SS"
    else [c]
  }

  /** Every character `toUpperCase` produces is its own upper case. */
  lemma UpperCharStable(c: char)
    ensures forall k :: 0 <= k < |UpperChar(c)| ==> UpperChar(UpperChar(c)[k]) == [UpperChar(c)[k]]
  {
  }

  /** `String.prototype.toUpperCase`. */
  function ToUpper(s: string): (r: string)
    ensures s == [] ==> r == []
  {
    if s == [] then [] else UpperChar(s[0]) + ToUpper(s[1..])
  }

  /** `toUpperCase` leaves no ASCII lower-case letter behind. */
  lemma {:induction false} ToUpperNoAsciiLower(s: string)
    ensures forall k :: 0 <= k < |ToUpper(s)| ==> !('a' <= ToUpper(s)[k] <= 'z')
  {
    if s != [] {
      ToUpperNoAsciiLower(s[1..]);
      var u := UpperChar(s[0]);
      assert forall k :: 0 <= k < |u| ==> !('a' <= u[k] <= 'z');
      assert ToUpper(s) == u + ToUpper(s[1..]);
    }
  }

  lemma {:induction false} ToUpperAppend(a: string, b: string)
    ensures ToUpper(a + b) == ToUpper(a) + ToUpper(b)
  {
    if a == [] {
      assert a + b == b;
    } else {
      assert (a + b)[0] == a[0];
      assert (a + b)[1..] == a[1..] + b;
      ToUpperAppend(a[1..], b);
      calc {
        ToUpper(a + b);
        UpperChar(a[0]) + ToUpper(a[1..] + b);
        UpperChar(a[0]) + (ToUpper(a[1..]) + ToUpper(b));
        (UpperChar(a[0]) + ToUpper(a[1..])) + ToUpper(b);
      }
    }
  }

  lemma ToUpperSnoc(a: string, c: char)
    ensures ToUpper(a + [c]) == ToUpper(a) + UpperChar(c)
  {
    ToUpperAppend(a, [c]);
    assert ToUpper([c]) == UpperChar(c) + ToUpper([]);
  }

  lemma {:induction false} ToUpperOfStable(s: string)
    requires forall k :: 0 <= k < |s| ==> UpperChar(s[k]) == [s[k]]
    ensures ToUpper(s) == s
  {
    if s != [] {
      ToUpperOfStable(s[1..]);
    }
  }

  /** Upper-casing twice is upper-casing once. */
  lemma {:induction false} ToUpperIdempotent(s: string)
    ensures ToUpper(ToUpper(s)) == ToUpper(s)
  {
    if s != [] {
      UpperCharStable(s[0]);
      ToUpperOfStable(UpperChar(s[0]));
      ToUpperAppend(UpperChar(s[0]), ToUpper(s[1..]));
      ToUpperIdempotent(s[1..]);
    }
  }

  lemma {:induction false} ToUpperTrimStart(s: string)
    ensures ToUpper(TrimStart(s)) == TrimStart(ToUpper(s))
  {
    if s != [] {
      if IsSpace(s[0]) {
        ToUpperTrimStart(s[1..]);
        assert ToUpper(s) == [s[0]] + ToUpper(s[1..]);
      } else {
        var u := ToUpper(s);
        assert u[0] == UpperChar(s[0])[0];
      }
    }
  }

  lemma {:induction false} ToUpperTrimEnd(s: string)
    ensures ToUpper(TrimEnd(s)) == TrimEnd(ToUpper(s))
    decreases |s|
  {
    if s != [] {
      var init, c := s[..|s| - 1], s[|s| - 1];
      assert s == init + [c];
      ToUpperSnoc(init, c);
      if IsSpace(c) {
        ToUpperTrimEnd(init);
        assert ToUpper(s) == ToUpper(init) + [c];
        assert (ToUpper(init) + [c])[..|ToUpper(init) + [c]| - 1] == ToUpper(init);
      } else {
        var u := ToUpper(s);
        assert u[|u| - 1] == UpperChar(c)[|UpperChar(c)| - 1];
        TrimEndOfUntrimmed(u);
      }
    }
  }

  /** Upper-casing commutes with trimming: case mapping never creates or removes white space. */
  lemma ToUpperTrim(s: string)
    ensures ToUpper(Trim(s)) == Trim(ToUpper(s))
  {
    ToUpperTrimEnd(TrimStart(s));
    ToUpperTrimStart(s);
  }

  /** `toLowerCase` of one character. */
  function LowerChar(c: char): char {
    if 'A' <= c <= 'Z' then (c as int + 32) as char
    else if '\U{C0}' <= c <= '\U{DE}' && c != '\U{D7}' then (c as int + 32) as char
    else c
  }

  /** `String.prototype.toLowerCase`. */
  function ToLower(s: string): (r: string)
    ensures |r| == |s|
    ensures forall i :: 0 <= i < |s| ==> r[i] == LowerChar(s[i])
  {
    seq(|s|, i requires 0 <= i < |s| => LowerChar(s[i]))
  }

  // ---------------------------------------------------------------------------
  // Searching and joining
  // ---------------------------------------------------------------------------

  predicate StartsWith(s: string, prefix: string) {
    |prefix| <= |s| && s[..|prefix|] == prefix
  }

  /** `String.prototype.includes`. */
  predicate Contains(s: string, q: string)
    decreases |s|
  {
    StartsWith(s, q) || (|s| > 0 && Contains(s[1..], q))
  }

  /** `s.includes(c)` for a one-character `c` is membership. */
  lemma {:induction false} ContainsChar(s: string, c: char)
    ensures Contains(s, [c]) <==> c in s
    decreases |s|
  {
    if s != [] {
      ContainsChar(s[1..], c);
      assert s == [s[0]] + s[1..];
    }
  }

  predicate OccursAt(s: string, q: string, i: int) {
    0 <= i <= |s| - |q| && s[i..i + |q|] == q
  }

  /** `includes` finds exactly the substrings: `q` occurs at some position of `s`. */
  lemma {:induction false} ContainsIffOccurs(s: string, q: string)
    ensures Contains(s, q) <==> exists i :: OccursAt(s, q, i)
    decreases |s|
  {
    if StartsWith(s, q) {
      assert OccursAt(s, q, 0);
    } else if |s| > 0 {
      ContainsIffOccurs(s[1..], q);
      if Contains(s[1..], q) {
        var i :| OccursAt(s[1..], q, i);
        assert s[1..][i..i + |q|] == s[i + 1..i + 1 + |q|];
        assert OccursAt(s, q, i + 1);
      } else {
        forall i | OccursAt(s, q, i)
          ensures false
        {
          assert i != 0;
          assert s[1..][i - 1..i - 1 + |q|] == s[i..i + |q|];
          assert OccursAt(s[1..], q, i - 1);
        }
      }
    } else {
      forall i | OccursAt(s, q, i)
        ensures false
      {
      }
    }
  }

  /** `Array.prototype.join(sep)` on strings. */
  function Join(parts: seq<string>, sep: string): (r: string)
    ensures |parts| == 1 ==> r == parts[0]
  {
    if |parts| == 0 then ""
    else if |parts| == 1 then parts[0]
    else parts[0] + sep + Join(parts[1..], sep)
  }

  /** The joined string is as long as its parts together with one separator between each two. */
  lemma {:induction false} JoinLength(parts: seq<string>, sep: string)
    requires |parts| > 0
    ensures |Join(parts, sep)| == Sum(parts) + (|parts| - 1) * |sep|
  {
    if |parts| > 1 {
      JoinLength(parts[1..], sep);
    }
  }

  function Sum(parts: seq<string>): nat {
    if parts == [] then 0 else |parts[0]| + Sum(parts[1..])
  }

  // ---------------------------------------------------------------------------
  // Numbers and strings
  // ---------------------------------------------------------------------------

  predicate IsDigit(c: char) {
    '0' <= c <= '9'
  }

  function DigitChar(d: nat): (c: char)
    requires d < 10
    ensures IsDigit(c)
  {
    ['0', '1', '2', '3', '4', '5', '6', '7', '8', '9'][d]
  }

  function DigitValue(c: char): (d: nat)
    requires IsDigit(c)
    ensures d < 10 && DigitChar(d) == c
  {
    c as int - '0' as int
  }

  /** `String(n)` for a non-negative integer: its decimal digits. */
  function NatToString(n: nat): (r: string)
    ensures |r| >= 1 && forall i :: 0 <= i < |r| ==> IsDigit(r[i])
  {
    if n < 10 then [DigitChar(n)] else NatToString(n / 10) + [DigitChar(n % 10)]
  }

  /** `String(n)` for an integer. */
  function IntToString(n: int): (r: string)
    ensures |r| >= 1
  {
    if n < 0 then "-" + NatToString(-n) else NatToString(n)
  }

  /** The value of a run of decimal digits. */
  function DigitsValue(d: string): nat
    requires forall i :: 0 <= i < |d| ==> IsDigit(d[i])
  {
    if |d| == 0 then 0 else DigitsValue(d[..|d| - 1]) * 10 + DigitValue(d[|d| - 1])
  }

  /** Reading the digits of a number back gives the number. */
  lemma {:induction false} DigitsOfNat(n: nat)
    ensures DigitsValue(NatToString(n)) == n
  {
    if n >= 10 {
      var s := NatToString(n / 10) + [DigitChar(n % 10)];
      assert s[..|s| - 1] == NatToString(n / 10);
      DigitsOfNat(n / 10);
    }
  }

  /** The length of the leading run of decimal digits. */
  function DigitRun(s: string): (k: nat)
    ensures k <= |s| && forall i :: 0 <= i < k ==> IsDigit(s[i])
    ensures k < |s| ==> !IsDigit(s[k])
  {
    if |s| > 0 && IsDigit(s[0]) then 1 + DigitRun(s[1..]) else 0
  }

  /** A sign and its remainder, `+`/`-` at the head of a numeric literal. */
  function SplitSign(s: string): (int, string) {
    if |s| > 0 && s[0] == '-' then (-1, s[1..])
    else if |s| > 0 && s[0] == '+' then (1, s[1..])
    else (1, s)
  }

  /**
   * `parseFloat`, restricted to integers: leading white space, an optional sign and the
   * longest run of digits; no digits is `NaN` (`None`).
   */
  function ParseFloat(s: string): (r: Option<int>)
    ensures r.None? <==> DigitRun(SplitSign(TrimStart(s)).1) == 0
  {
    var (sign, rest) := SplitSign(TrimStart(s));
    var k := DigitRun(rest);
    if k == 0 then None else Some(sign * DigitsValue(rest[..k]))
  }

  /**
   * `Number(s)` for a string, restricted to integers: blank is 0, a signed run of digits
   * is its value, anything else is `NaN` (`None`).
   */
  function StringToNumber(s: string): (r: Option<int>)
    ensures AllSpace(s) ==> r == Some(0)
  {
    var t := Trim(s);
    TrimEmptyIffAllSpace(s);
    if t == [] then Some(0)
    else
      var (sign, rest) := SplitSign(t);
      if |rest| > 0 && DigitRun(rest) == |rest| then Some(sign * DigitsValue(rest)) else None
  }

  // ---------------------------------------------------------------------------
  // Ordering
  // ---------------------------------------------------------------------------

  /** The default ordering of `Array.prototype.sort` on strings: code unit by code unit. */
  predicate StringLess(a: string, b: string)
    decreases |a|
  {
    if a == [] then b != []
    else if b == [] then false
    else if a[0] != b[0] then a[0] < b[0]
    else StringLess(a[1..], b[1..])
  }

  /** No string sorts before itself. */
  lemma {:induction false} StringLessIrreflexive(a: string)
    ensures !StringLess(a, a)
    decreases |a|
  {
    if a != [] {
      StringLessIrreflexive(a[1..]);
    }
  }

  /** The ordering is transitive. */
  lemma {:induction false} StringLessTrans(a: string, b: string, c: string)
    requires StringLess(a, b) && StringLess(b, c)
    ensures StringLess(a, c)
    decreases |a|
  {
    if a != [] && a[0] == b[0] && b[0] == c[0] {
      StringLessTrans(a[1..], b[1..], c[1..]);
    }
  }

  /** Any two different strings are ordered one way or the other, and never both ways. */
  lemma {:induction false} StringLessTotal(a: string, b: string)
    ensures a == b || StringLess(a, b) || StringLess(b, a)
    ensures !(StringLess(a, b) && StringLess(b, a))
    decreases |a|
  {
    if a != [] && b != [] && a[0] == b[0] {
      StringLessTotal(a[1..], b[1..]);
      if a[1..] == b[1..] {
        assert a == [a[0]] + a[1..] && b == [b[0]] + b[1..];
      }
    }
  }

  /** Upper-casing never shortens a string. */
  lemma {:induction false} ToUpperNotShorter(s: string)
    ensures |ToUpper(s)| >= |s|
  {
    if s != [] {
      ToUpperNotShorter(s[1..]);
    }
  }
}
