/** String helpers standing in for the Rust standard library calls the core
    makes: `to_lowercase` (ASCII only), `str::len` (UTF-8 byte length),
    `Display` for integers, `join`, `starts_with` and `ends_with`. */
module Strings {

  /** ASCII lower-casing of one character; every other character is kept. */
  function LowerChar(c: char): char
  {
    if 'A' <= c <= 'Z' then (c as int + 32) as char else c
  }

  predicate IsAsciiUpper(c: char)
  {
    'A' <= c <= 'Z'
  }

  /** `str::to_lowercase`, restricted to ASCII letters. */
  function Lower(s: string): (r: string)
    ensures |r| == |s|
    ensures forall i :: 0 <= i < |r| ==> !IsAsciiUpper(r[i])
    ensures forall i :: 0 <= i < |r| ==> r[i] == s[i] || (IsAsciiUpper(s[i]) && r[i] as int == s[i] as int + 32)
  {
    seq(|s|, i requires 0 <= i < |s| => LowerChar(s[i]))
  }

  /** Number of bytes the UTF-8 encoding of `c` takes. */
  function Utf8Width(c: char): (w: nat)
    ensures 1 <= w <= 4
    ensures w == 1 <==> c as int < 0x80
  {
    if c as int < 0x80 then 1
    else if c as int < 0x800 then 2
    else if c as int < 0x1_0000 then 3
    else 4
  }

  predicate IsAscii(s: string)
  {
    forall i :: 0 <= i < |s| ==> s[i] as int < 0x80
  }

  /** `String::len`: the length in bytes of the UTF-8 encoding. It is at least
      the number of characters, at most four times it, and equal to it
      exactly when the string is ASCII. */
  function Utf8Len(s: string): (n: nat)
    ensures |s| <= n <= 4 * |s|
    ensures n == |s| <==> IsAscii(s)
  {
    if s == [] then 0 else Utf8Width(s[0]) + Utf8Len(s[1..])
  }

  function DigitChar(d: nat): (c: char)
    requires d < 10
    ensures '0' <= c <= '9' && c as int - '0' as int == d
  {
    (d + '0' as int) as char
  }

  predicate IsDigits(s: string)
  {
    forall i :: 0 <= i < |s| ==> '0' <= s[i] <= '9'
  }

  /** The decimal `Display` of a natural number: a non-empty string of
      digits, without a leading zero unless the number is zero. */
  function NatToString(n: nat): (s: string)
    ensures |s| >= 1 && IsDigits(s)
    ensures s[0] == '0' ==> n == 0
    decreases n
  {
    if n < 10 then [DigitChar(n)] else NatToString(n / 10) + [DigitChar(n % 10)]
  }

  /** Reads a string of decimal digits back as a number. */
  function ParseDecimal(s: string): nat
    requires IsDigits(s)
  {
    if s == [] then 0 else 10 * ParseDecimal(s[..|s| - 1]) + (s[|s| - 1] as int - '0' as int)
  }

  /** Decimal rendering loses nothing: reading it back gives the number. */
  lemma {:induction false} ParseNatToString(n: nat)
    ensures ParseDecimal(NatToString(n)) == n
    decreases n
  {
    var s := NatToString(n);
    if n >= 10 {
      ParseNatToString(n / 10);
      assert s[..|s| - 1] == NatToString(n / 10);
    }
  }

  /** `[T]::join(sep)`: the parts with `sep` between consecutive ones. */
  function Join(parts: seq<string>, sep: string): string
  {
    if |parts| == 0 then ""
    else if |parts| == 1 then parts[0]
    else parts[0] + sep + Join(parts[1..], sep)
  }

  /** Concatenation of a sequence of strings. */
  function Concat(parts: seq<string>): string
  {
    if |parts| == 0 then "" else parts[0] + Concat(parts[1..])
  }

  /** `str::ends_with`. */
  predicate EndsWith(s: string, suffix: string)
  {
    |suffix| <= |s| && s[|s| - |suffix|..] == suffix
  }

  /** `str::starts_with`. */
  predicate StartsWith(s: string, prefix: string)
  {
    |prefix| <= |s| && s[..|prefix|] == prefix
  }

  /** Two strings that share a prefix and differ after it differ: the
      suffix can be read back from the end. */
  lemma SameLengthSuffixesDiffer(p: string, s1: string, s2: string)
    requires |s1| == |s2| && s1 != s2
    ensures p + s1 != p + s2
  {
    assert (p + s1)[|p|..] == s1;
    assert (p + s2)[|p|..] == s2;
  }

  /** Appending a common suffix is injective. */
  lemma AppendSuffixInjective(a: string, b: string, suffix: string)
    ensures a + suffix == b + suffix <==> a == b
  {
    if a + suffix == b + suffix {
      assert |a| == |b|;
      assert a == (a + suffix)[..|a|];
      assert b == (b + suffix)[..|b|];
    }
  }

  /** Prepending a common prefix is injective. */
  lemma PrependPrefixInjective(prefix: string, a: string, b: string)
    ensures prefix + a == prefix + b <==> a == b
  {
    if prefix + a == prefix + b {
      assert a == (prefix + a)[|prefix|..];
      assert b == (prefix + b)[|prefix|..];
    }
  }

  /** The two provenance comment lines the derived renderers (enum, btree
      and hash operator classes) open with, after a blank line:
      `-- {file}:{line}` and `-- {full_path}`. */
  function ProvenanceHeader(file: string, line: nat, fullPath: string): string
  {
    "\n" + (LocationComment(file, line) + ("-- " + fullPath)) + "\n"
  }

  /** The `-- {file}:{line}` comment line, newline included. */
  function LocationComment(file: string, line: nat): string
  {
    "-- " + file + ":" + NatToString(line) + "\n"
  }
}
