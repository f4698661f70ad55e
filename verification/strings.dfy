/**
 * The few Python string operations the core relies on: substring membership
 * (`sub in s`), `str.strip()` with no argument, and `str(n)` for a
 * non-negative integer, each with a lemma that ties it to an independent
 * description (an occurrence index, "every character is whitespace", a
 * decimal parser).
 */
module Strings {

  // ---------------------------------------------------------------------------
  // Substring membership
  // ---------------------------------------------------------------------------

  /** `sub` occurs in `s` starting at index `i`. */
  ghost predicate OccursAt(s: string, sub: string, i: int)
  {
    0 <= i && i + |sub| <= |s| && s[i..i + |sub|] == sub
  }

  /** Python's `sub in s` on strings, scanning `s` from the left. */
  function Contains(s: string, sub: string): bool
    decreases |s|
  {
    |sub| <= |s| && (s[..|sub|] == sub || Contains(s[1..], sub))
  }

  /** When the scan finds `sub`, `sub` occurs in `s`. */
  lemma {:induction false} ContainsOccurs(s: string, sub: string)
    requires Contains(s, sub)
    ensures exists i :: OccursAt(s, sub, i)
    decreases |s|
  {
    if s[..|sub|] == sub {
      assert OccursAt(s, sub, 0);
    } else {
      ContainsOccurs(s[1..], sub);
      var i :| OccursAt(s[1..], sub, i);
      assert s[1..][i..i + |sub|] == s[i + 1..i + 1 + |sub|];
      assert OccursAt(s, sub, i + 1);
    }
  }

  /** When `sub` occurs in `s` at `i`, the scan finds it. */
  lemma {:induction false} OccursContains(s: string, sub: string, i: int)
    requires OccursAt(s, sub, i)
    ensures Contains(s, sub)
    decreases i
  {
    if i > 0 && s[..|sub|] != sub {
      assert s[1..][i - 1..i - 1 + |sub|] == s[i..i + |sub|];
      OccursContains(s[1..], sub, i - 1);
    }
  }

  /** The scan finds `sub` exactly when `sub` occurs somewhere in `s`. */
  lemma ContainsIffOccurs(s: string, sub: string)
    ensures Contains(s, sub) <==> exists i :: OccursAt(s, sub, i)
  {
    if Contains(s, sub) {
      ContainsOccurs(s, sub);
    } else if i :| OccursAt(s, sub, i) {
      OccursContains(s, sub, i);
    }
  }

  // ---------------------------------------------------------------------------
  // str.strip()
  // ---------------------------------------------------------------------------

  /**
   * The characters Python's `str.isspace()` accepts, which are the ones
   * `str.strip()` removes when called without an argument.
   */
  predicate IsSpace(c: char)
  {
    || c == ' '
    || ('\t' <= c <= '\r')
    || ('\U{1C}' <= c <= '\U{1F}')
    || c == '\U{85}' || c == '\U{A0}' || c == '\U{1680}'
    || ('\U{2000}' <= c <= '\U{200A}')
    || c == '\U{2028}' || c == '\U{2029}' || c == '\U{202F}'
    || c == '\U{205F}' || c == '\U{3000}'
  }

  predicate AllSpace(s: string)
  {
    forall i :: 0 <= i < |s| ==> IsSpace(s[i])
  }

  /** Drops leading whitespace. */
  function TrimStart(s: string): (r: string)
    ensures r == [] || !IsSpace(r[0])
    decreases |s|
  {
    if s != [] && IsSpace(s[0]) then TrimStart(s[1..]) else s
  }

  /** Drops trailing whitespace. */
  function TrimEnd(s: string): (r: string)
    ensures r == [] || !IsSpace(r[|r| - 1])
    decreases |s|
  {
    if s != [] && IsSpace(s[|s| - 1]) then TrimEnd(s[..|s| - 1]) else s
  }

  /** Python's `s.strip()`. */
  function Strip(s: string): string
  {
    TrimEnd(TrimStart(s))
  }

  lemma {:induction false} TrimStartEmptyIff(s: string)
    ensures TrimStart(s) == [] <==> AllSpace(s)
    decreases |s|
  {
    if s != [] && IsSpace(s[0]) {
      TrimStartEmptyIff(s[1..]);
      assert AllSpace(s[1..]) ==> AllSpace(s) by {
        if AllSpace(s[1..]) {
          forall i | 0 <= i < |s| ensures IsSpace(s[i]) {
            if i > 0 { assert s[i] == s[1..][i - 1]; }
          }
        }
      }
    }
  }

  /** Trimming the end never removes a leading character that is not whitespace. */
  lemma {:induction false} TrimEndKeepsHead(s: string)
    requires s != [] && !IsSpace(s[0])
    ensures TrimEnd(s) != [] && TrimEnd(s)[0] == s[0]
    decreases |s|
  {
    if IsSpace(s[|s| - 1]) {
      assert |s| > 1;
      TrimEndKeepsHead(s[..|s| - 1]);
    }
  }

  /** `s.strip()` is empty exactly when `s` is empty or all whitespace. */
  lemma StripEmptyIffAllSpace(s: string)
    ensures Strip(s) == [] <==> AllSpace(s)
  {
    TrimStartEmptyIff(s);
    var t := TrimStart(s);
    if t != [] {
      TrimEndKeepsHead(t);
    }
  }

  // ---------------------------------------------------------------------------
  // str(n) and its decimal reading
  // ---------------------------------------------------------------------------

  predicate IsDigit(c: char)
  {
    '0' <= c <= '9'
  }

  predicate AllDigits(s: string)
  {
    forall i :: 0 <= i < |s| ==> IsDigit(s[i])
  }

  function DigitChar(d: nat): (c: char)
    requires d < 10
    ensures IsDigit(c)
  {
    ('0' as int + d) as char
  }

  function DigitValue(c: char): (d: nat)
    requires IsDigit(c)
    ensures d < 10
  {
    c as int - '0' as int
  }

  /** Python's `str(n)` for `n >= 0`: decimal digits, no sign, no leading zero. */
  function NatToString(n: nat): (r: string)
    ensures 1 <= |r| && AllDigits(r)
    ensures |r| > 1 ==> r[0] != '0'
    decreases n
  {
    if n < 10 then [DigitChar(n)] else NatToString(n / 10) + [DigitChar(n % 10)]
  }

  /** The number a string of decimal digits denotes. */
  function ParseNat(s: string): nat
    requires AllDigits(s)
    decreases |s|
  {
    if s == [] then 0 else 10 * ParseNat(s[..|s| - 1]) + DigitValue(s[|s| - 1])
  }

  /** Reading back the decimal text of `n` gives `n`. */
  lemma {:induction false} ParseNatToString(n: nat)
    ensures ParseNat(NatToString(n)) == n
    decreases n
  {
    var s := NatToString(n);
    if n < 10 {
      assert s[..0] == [];
    } else {
      assert s[..|s| - 1] == NatToString(n / 10);
      ParseNatToString(n / 10);
    }
  }

  /** The longest prefix of `s` made of decimal digits. */
  function LeadingDigits(s: string): (r: string)
    ensures AllDigits(r) && |r| <= |s| && r == s[..|r|]
    decreases |s|
  {
    if s != [] && IsDigit(s[0]) then [s[0]] + LeadingDigits(s[1..]) else []
  }

  /** A run of digits followed by a non-digit (or nothing) is read back whole. */
  lemma {:induction false} LeadingDigitsOfRun(digits: string, rest: string)
    requires AllDigits(digits)
    requires rest == [] || !IsDigit(rest[0])
    ensures LeadingDigits(digits + rest) == digits
    decreases |digits|
  {
    if digits != [] {
      assert (digits + rest)[1..] == digits[1..] + rest;
      LeadingDigitsOfRun(digits[1..], rest);
    } else {
      assert digits + rest == rest;
    }
  }

}
