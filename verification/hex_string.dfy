/**
 * `String.prototype.isHex` of src/Type.js: the test of a string against the
 * case-insensitive regular expression `/^([0-9a-f]+)$/i`.
 */
module HexString {

  /** The characters of the class `[0-9a-f]`. */
  const HexClass: string := "0123456789abcdef"

  /**
   * Canonicalize for a non-unicode case-insensitive pattern (section
   * 21.2.2.8.2 of ECMA-262, 6th edition): upper-case, except that a
   * non-ASCII character is never mapped onto an ASCII one. Only the ASCII
   * letters are mapped here; see README for non-ASCII letters.
   */
  function Canonicalize(c: char): (u: char)
    ensures !('a' <= u <= 'z')
    ensures u != c ==> 'a' <= c <= 'z'
  {
    if 'a' <= c <= 'z' then (c as int - 32) as char else c
  }

  /** Canonicalizing twice is canonicalizing once. */
  lemma CanonicalizeIsIdempotent(c: char)
    ensures Canonicalize(Canonicalize(c)) == Canonicalize(c)
  {
  }

  /**
   * A CharacterSetMatcher with ignoreCase: `c` matches the class when some
   * member of the class canonicalizes to the same character as `c`.
   */
  predicate InClass(c: char)
  {
    exists i :: 0 <= i < |HexClass| && Canonicalize(HexClass[i]) == Canonicalize(c)
  }

  /** The hexadecimal digit characters, in both cases. */
  predicate IsHexDigit(c: char)
  {
    '0' <= c <= '9' || 'a' <= c <= 'f' || 'A' <= c <= 'F'
  }

  /**
   * `/^([0-9a-f]+)$/i.test(s)`: one class character, then either the end
   * of the input or the rest of the `+` repetition.
   */
  predicate IsHex(s: string)
    decreases |s|
  {
    |s| > 0 && InClass(s[0]) && (|s| == 1 || IsHex(s[1..]))
  }

  /** The case-insensitive class is exactly the hexadecimal digits of either case. */
  lemma InClassIff(c: char)
    ensures InClass(c) <==> IsHexDigit(c)
  {
    if IsHexDigit(c) {
      var i := if '0' <= c <= '9' then c as int - '0' as int
                else if 'a' <= c <= 'f' then c as int - 'a' as int + 10
                else c as int - 'A' as int + 10;
      assert Canonicalize(HexClass[i]) == Canonicalize(c);
    } else {
      forall i | 0 <= i < |HexClass|
        ensures Canonicalize(HexClass[i]) != Canonicalize(c)
      {
      }
    }
  }

  /** `isHex` holds exactly for non-empty strings of hexadecimal digits. */
  lemma {:induction false} IsHexIff(s: string)
    ensures IsHex(s) <==> |s| > 0 && forall i :: 0 <= i < |s| ==> IsHexDigit(s[i])
    decreases |s|
  {
    if |s| > 0 {
      InClassIff(s[0]);
      if |s| > 1 {
        IsHexIff(s[1..]);
        assert forall i :: 1 <= i < |s| ==> s[i] == s[1..][i - 1];
      }
    }
  }

  lemma EmptyIsNotHex()
    ensures !IsHex("")
  {
  }

  /** Upper-casing the ASCII letters of a string. */
  function ToUpperAscii(s: string): string
  {
    seq(|s|, i requires 0 <= i < |s| => Canonicalize(s[i]))
  }

  /** Lower-casing the ASCII letters of a string. */
  function ToLowerAscii(s: string): string
  {
    seq(|s|, i requires 0 <= i < |s| => if 'A' <= s[i] <= 'Z' then (s[i] as int + 32) as char else s[i])
  }

  /**
   * The two ASCII case maps agree up to case: upper-casing a lower-cased
   * string gives the upper-cased original, and the other way round.
   */
  lemma CaseMapsAgree(s: string)
    ensures ToUpperAscii(ToLowerAscii(s)) == ToUpperAscii(s)
    ensures ToLowerAscii(ToUpperAscii(s)) == ToLowerAscii(s)
  {
  }

  /** Both ASCII case maps keep hexadecimal digits and non-digits apart, position by position. */
  lemma CaseMapsKeepHexDigits(s: string)
    ensures forall i :: 0 <= i < |s| ==> (IsHexDigit(ToUpperAscii(s)[i]) <==> IsHexDigit(s[i]))
    ensures forall i :: 0 <= i < |s| ==> (IsHexDigit(ToLowerAscii(s)[i]) <==> IsHexDigit(s[i]))
  {
  }

  /** Changing the case of the ASCII letters does not change the answer. */
  lemma CaseDoesNotMatter(s: string)
    ensures IsHex(ToUpperAscii(s)) == IsHex(s)
    ensures IsHex(ToLowerAscii(s)) == IsHex(s)
  {
    IsHexIff(s);
    IsHexIff(ToUpperAscii(s));
    IsHexIff(ToLowerAscii(s));
    CaseMapsKeepHexDigits(s);
  }

  /**
   * The claim is about ASCII case only: the ligature U+FB00 is not hex, but
   * the full Unicode upper-casing of `toUpperCase` turns it into "FF", which is.
   */
  lemma FullUpperCasingCanMakeHex()
    ensures !IsHex("\U{FB00}") && IsHex("FF")
    ensures ToUpperAscii("\U{FB00}") == "\U{FB00}"
  {
    IsHexIff("\U{FB00}");
    IsHexIff("FF");
  }

  /** Hex strings are closed under concatenation. */
  lemma ConcatIsHex(a: string, b: string)
    requires IsHex(a) && IsHex(b)
    ensures IsHex(a + b)
  {
    IsHexIff(a);
    IsHexIff(b);
    IsHexIff(a + b);
    assert forall i :: 0 <= i < |a + b| ==> (a + b)[i] == if i < |a| then a[i] else b[i - |a|];
  }

  lemma Examples()
    ensures IsHex("deadBEEF")
    ensures !IsHex("xyz")
    ensures !IsHex("")
    ensures IsHex("0")
  {
    IsHexIff("deadBEEF");
    IsHexIff("xyz");
    IsHexIff("0");
  }
}
