/** String operations of the JavaScript runtime that the app relies on:
    `trim`, `split` on a one-character separator, `join`, the decimal
    rendering of a non-negative integer and `padStart`. Strings are
    sequences of code points. */
module Strings {

  /** The WhiteSpace and LineTerminator code points that `String.prototype.trim` removes. */
  predicate IsJsWhitespace(c: char) {
    || c == '\t' || c == '\n' || c == '\U{000B}' || c == '\U{000C}' || c == '\r' || c == ' '
    || c == '\U{00A0}' || c == '\U{1680}' || ('\U{2000}' <= c <= '\U{200A}')
    || c == '\U{2028}' || c == '\U{2029}' || c == '\U{202F}' || c == '\U{205F}'
    || c == '\U{3000}' || c == '\U{FEFF}'
  }

  /** True when `s` holds at least one character that `trim` keeps. */
  predicate HasContent(s: string) {
    exists i | 0 <= i < |s| :: !IsJsWhitespace(s[i])
  }

  /** Drops the leading whitespace. */
  function TrimStart(s: string): (r: string)
    ensures |r| <= |s| && r == s[|s| - |r|..]
    ensures r == [] || !IsJsWhitespace(r[0])
    ensures forall i | 0 <= i < |s| - |r| :: IsJsWhitespace(s[i])
  {
    if |s| > 0 && IsJsWhitespace(s[0]) then TrimStart(s[1..]) else s
  }

  /** Drops the trailing whitespace. */
  function TrimEnd(s: string): (r: string)
    ensures |r| <= |s| && r == s[..|r|]
    ensures r == [] || !IsJsWhitespace(r[|r| - 1])
    ensures forall i | |r| <= i < |s| :: IsJsWhitespace(s[i])
  {
    if |s| > 0 && IsJsWhitespace(s[|s| - 1]) then TrimEnd(s[..|s| - 1]) else s
  }

  /** `s.trim()` */
  function Trim(s: string): string {
    TrimEnd(TrimStart(s))
  }

  /** `s.trim() !== ''` holds exactly when `s` has a character other than whitespace. */
  lemma TrimNonEmptyIff(s: string)
    ensures Trim(s) != "" <==> HasContent(s)
  {
    var t := TrimStart(s);
    var r := Trim(s);
    if r != "" {
      assert r == t[..|r|] && t == s[|s| - |t|..];
      assert s[|s| - |t|] == r[0];
    }
    if HasContent(s) {
      var i :| 0 <= i < |s| && !IsJsWhitespace(s[i]);
      assert i >= |s| - |t|;
      assert t[i - (|s| - |t|)] == s[i];
    }
  }

  /** `parts.join([sep])` */
  function Join(parts: seq<string>, sep: char): (s: string)
    decreases |parts|
  {
    if |parts| == 0 then ""
    else if |parts| == 1 then parts[0]
    else parts[0] + [sep] + Join(parts[1..], sep)
  }

  /** `s.split(sep)`: the maximal runs of `s` between occurrences of `sep`.
      At least one part, none of them containing the separator, and joining
      them back with `sep` gives `s` again. */
  function Split(s: string, sep: char): (parts: seq<string>)
    ensures |parts| >= 1
    ensures forall i | 0 <= i < |parts| :: sep !in parts[i]
    ensures Join(parts, sep) == s
  {
    if |s| == 0 then [""]
    else
      var rest := Split(s[1..], sep);
      if s[0] == sep then
        [""] + rest
      else
        assert s == [s[0]] + s[1..];
        [[s[0]] + rest[0]] + rest[1..]
  }

  /** Splitting undoes joining when no part contains the separator. */
  lemma {:induction false} SplitJoin(parts: seq<string>, sep: char)
    requires |parts| >= 1
    requires forall i | 0 <= i < |parts| :: sep !in parts[i]
    ensures Split(Join(parts, sep), sep) == parts
    decreases |parts|, |parts[0]|
  {
    var p := parts[0];
    if |p| > 0 {
      var tail := [p[1..]] + parts[1..];
      assert tail[0] == p[1..] && tail[1..] == parts[1..];
      assert forall i | 0 <= i < |tail| :: sep !in tail[i] by {
        forall i | 0 <= i < |tail| ensures sep !in tail[i] {
          if i == 0 {
            assert sep !in p;
          } else {
            assert tail[i] == parts[i];
          }
        }
      }
      SplitJoin(tail, sep);
      var s := Join(parts, sep);
      if |parts| == 1 {
        assert s == p && Join(tail, sep) == p[1..];
      } else {
        assert s == p + [sep] + Join(parts[1..], sep);
        assert Join(tail, sep) == p[1..] + [sep] + Join(parts[1..], sep);
      }
      assert s[0] == p[0] && s[1..] == Join(tail, sep);
      assert p[0] != sep by { assert p[0] in p; }
      assert [[p[0]] + p[1..]] + parts[1..] == parts by { assert [p[0]] + p[1..] == p; }
    } else if |parts| > 1 {
      SplitJoin(parts[1..], sep);
      var s := Join(parts, sep);
      assert s == [sep] + Join(parts[1..], sep);
      assert s[1..] == Join(parts[1..], sep);
      assert [""] + parts[1..] == parts;
    }
  }

  /** The first two parts, with the separator between them, open the
      joined text and are followed by its end or by another separator. */
  lemma JoinFirstTwo(parts: seq<string>, sep: char)
    requires |parts| >= 2
    ensures var head := parts[0] + [sep] + parts[1];
      var s := Join(parts, sep);
      head <= s && (|s| == |head| || s[|head|] == sep)
  {
    assert Join(parts, sep) == parts[0] + [sep] + Join(parts[1..], sep);
    if |parts| > 2 {
      assert Join(parts[1..], sep) == parts[1] + [sep] + Join(parts[2..], sep);
    }
  }

  /** Splitting `a + [sep] + b` recovers `a` and `b` when neither contains `sep`. */
  lemma SplitPair(a: string, b: string, sep: char)
    requires sep !in a && sep !in b
    ensures Split(a + [sep] + b, sep) == [a, b]
  {
    var parts := [a, b];
    assert Join(parts, sep) == a + [sep] + b by {
      assert parts[1..] == [b];
    }
    SplitJoin(parts, sep);
  }

  // ---------------------------------------------------------------------------
  // Decimal digits

  predicate IsDigit(c: char) {
    '0' <= c <= '9'
  }

  predicate IsDigits(s: string) {
    forall i | 0 <= i < |s| :: IsDigit(s[i])
  }

  function DigitChar(d: nat): (c: char)
    requires d < 10
    ensures IsDigit(c) && DigitValue(c) == d
  {
    (48 + d) as char
  }

  function DigitValue(c: char): nat
    requires IsDigit(c)
  {
    (c as int) - 48
  }

  /** The number a string of decimal digits denotes, most significant first. */
  function DecimalValue(s: string): nat
    requires IsDigits(s)
  {
    if |s| == 0 then 0 else DecimalValue(s[..|s| - 1]) * 10 + DigitValue(s[|s| - 1])
  }

  /** `n.toString()` for a non-negative integer `n`: its canonical decimal
      rendering, without leading zeros, which reads back as `n`. */
  function NatToDecimal(n: nat): (s: string)
    ensures |s| >= 1 && IsDigits(s)
    ensures DecimalValue(s) == n
    ensures |s| > 1 ==> s[0] != '0'
    ensures n < 10 <==> |s| == 1
  {
    if n < 10 then [DigitChar(n)]
    else
      var s := NatToDecimal(n / 10) + [DigitChar(n % 10)];
      assert s[..|s| - 1] == NatToDecimal(n / 10);
      s
  }

  /** `count` copies of `c`. */
  function Repeat(c: char, count: nat): (r: string)
    ensures |r| == count
    ensures forall i | 0 <= i < count :: r[i] == c
  {
    if count == 0 then "" else [c] + Repeat(c, count - 1)
  }

  /** `s.padStart(width, fill)` with a one-character fill: only ever adds
      fill characters in front, never cuts `s`. */
  function PadStart(s: string, width: nat, fill: char): (r: string)
    ensures |r| == if |s| >= width then |s| else width
    ensures r[|r| - |s|..] == s
    ensures forall i | 0 <= i < |r| - |s| :: r[i] == fill
  {
    if |s| >= width then s else Repeat(fill, width - |s|) + s
  }

  /** Leading zeros do not change the value of a digit string. */
  lemma {:induction false} LeadingZerosKeepValue(k: nat, s: string)
    requires IsDigits(s)
    ensures IsDigits(Repeat('0', k) + s)
    ensures DecimalValue(Repeat('0', k) + s) == DecimalValue(s)
    decreases |s|
  {
    var z := Repeat('0', k);
    var t := z + s;
    assert forall i | 0 <= i < |t| :: IsDigit(t[i]) by {
      forall i | 0 <= i < |t| ensures IsDigit(t[i]) {
        if i < k { assert t[i] == '0'; } else { assert t[i] == s[i - k]; }
      }
    }
    if |s| == 0 {
      ZerosHaveValueZero(k);
      assert t == z;
    } else {
      LeadingZerosKeepValue(k, s[..|s| - 1]);
      assert t[..|t| - 1] == z + s[..|s| - 1];
      assert t[|t| - 1] == s[|s| - 1];
    }
  }

  lemma {:induction false} ZerosHaveValueZero(k: nat)
    ensures IsDigits(Repeat('0', k))
    ensures DecimalValue(Repeat('0', k)) == 0
  {
    if k > 0 {
      ZerosHaveValueZero(k - 1);
      var z := Repeat('0', k);
      var w := Repeat('0', k - 1) + ['0'];
      assert z == w by {
        assert forall i | 0 <= i < k :: z[i] == '0';
        assert forall i | 0 <= i < k :: w[i] == '0';
      }
      assert z[..k - 1] == Repeat('0', k - 1);
    }
  }

  /** Zero-padding a digit string keeps it a digit string of the same value. */
  lemma PadStartDigits(s: string, width: nat)
    requires IsDigits(s)
    ensures IsDigits(PadStart(s, width, '0'))
    ensures DecimalValue(PadStart(s, width, '0')) == DecimalValue(s)
  {
    if |s| < width {
      LeadingZerosKeepValue(width - |s|, s);
    }
  }
}
