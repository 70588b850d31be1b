/**
 * String helpers that the handlers take from Rust's standard library:
 * `join`, decimal formatting of integers (`{}` / `to_string`), ASCII case
 * mapping, `starts_with` and `str::lines`.
 */
module Text {

  /** `parts.join(sep)`. */
  function Join(parts: seq<string>, sep: string): string
  {
    if parts == [] then ""
    else if |parts| == 1 then parts[0]
    else parts[0] + sep + Join(parts[1..], sep)
  }

  /** The first part always opens the joined string. */
  lemma {:induction false} JoinStartsWithHead(parts: seq<string>, sep: string)
    requires parts != []
    ensures parts[0] <= Join(parts, sep)
  {
  }

  /** Joining non-empty parts gives the empty string only for no parts at all. */
  lemma {:induction false} JoinEmptyIff(parts: seq<string>, sep: string)
    requires forall i :: 0 <= i < |parts| ==> parts[i] != ""
    ensures Join(parts, sep) == "" <==> parts == []
  {
    if parts != [] {
      JoinStartsWithHead(parts, sep);
    }
  }

  /** Concatenation regroups freely; stated once so long chains need not rediscover it. */
  lemma AppendAssociative<T>(x: seq<T>, y: seq<T>, z: seq<T>)
    ensures (x + y) + z == x + (y + z)
  {
  }

  /** A common prefix cancels. */
  lemma AppendCancelLeft<T>(p: seq<T>, u: seq<T>, v: seq<T>)
    requires p + u == p + v
    ensures u == v
  {
    assert u == (p + u)[|p|..];
    assert v == (p + v)[|p|..];
  }

  predicate StartsWith(s: string, prefix: string)
  {
    prefix <= s
  }

  // ---------------------------------------------------------------------------
  // ASCII case mapping (`to_ascii_lowercase`, `to_uppercase` on one ASCII char)

  function LowerChar(c: char): char
  {
    if 'A' <= c <= 'Z' then (c as int + 32) as char else c
  }

  function UpperChar(c: char): char
  {
    if 'a' <= c <= 'z' then (c as int - 32) as char else c
  }

  /** `to_ascii_lowercase`: only 'A'..'Z' change. */
  function LowerAscii(s: string): (r: string)
    ensures |r| == |s|
    ensures forall i :: 0 <= i < |s| ==> r[i] == LowerChar(s[i])
  {
    seq(|s|, i requires 0 <= i < |s| => LowerChar(s[i]))
  }

  lemma LowerAsciiIdempotent(s: string)
    ensures LowerAscii(LowerAscii(s)) == LowerAscii(s)
  {
  }

  // ---------------------------------------------------------------------------
  // Decimal formatting of integers

  predicate IsDigit(c: char)
  {
    '0' <= c <= '9'
  }

  function DigitChar(d: nat): (c: char)
    requires d < 10
    ensures IsDigit(c)
  {
    (('0' as int) + d) as char
  }

  /** `n.to_string()` for an unsigned integer: digits, no leading zero. */
  function NatToDecimal(n: nat): (s: string)
    ensures |s| >= 1
    ensures forall i :: 0 <= i < |s| ==> IsDigit(s[i])
    ensures |s| > 1 ==> s[0] != '0'
    decreases n
  {
    if n < 10 then [DigitChar(n)] else NatToDecimal(n / 10) + [DigitChar(n % 10)]
  }

  /** `{}` of a signed integer. */
  function IntToDecimal(i: int): string
  {
    if i < 0 then "-" + NatToDecimal(-i) else NatToDecimal(i)
  }

  /** The number a string of digits denotes; the inverse of NatToDecimal. */
  function DecimalValue(s: string): nat
    requires forall i :: 0 <= i < |s| ==> IsDigit(s[i])
  {
    if s == [] then 0
    else
      assert IsDigit(s[|s| - 1]);
      DecimalValue(s[..|s| - 1]) * 10 + (s[|s| - 1] as int - '0' as int)
  }

  lemma {:induction false} DecimalRoundTrip(n: nat)
    ensures DecimalValue(NatToDecimal(n)) == n
    decreases n
  {
    if n >= 10 {
      DecimalRoundTrip(n / 10);
      var s := NatToDecimal(n);
      assert s[..|s| - 1] == NatToDecimal(n / 10);
    }
  }

  /** Two numbers with the same decimal text are equal. */
  lemma DecimalInjective(a: nat, b: nat)
    ensures NatToDecimal(a) == NatToDecimal(b) ==> a == b
  {
    DecimalRoundTrip(a);
    DecimalRoundTrip(b);
  }

  /** Position of the first non-digit in `s`, or |s| when it is all digits. */
  function NonDigitIndex(s: string): (k: nat)
    ensures k <= |s|
  {
    if s == [] || !IsDigit(s[0]) then 0 else 1 + NonDigitIndex(s[1..])
  }

  /** Digits followed by a non-digit: the first non-digit stands right after the digits. */
  lemma {:induction false} NonDigitIndexAfterDigits(a: string, x: string)
    requires forall i :: 0 <= i < |a| ==> IsDigit(a[i])
    requires x != [] && !IsDigit(x[0])
    ensures NonDigitIndex(a + x) == |a|
  {
    if a != [] {
      assert (a + x)[0] == a[0];
      assert (a + x)[1..] == a[1..] + x;
      NonDigitIndexAfterDigits(a[1..], x);
    }
  }

  /** Digits run up to the first non-digit, so text written as digits then a non-digit splits one way only. */
  lemma DigitsThenNonDigit(a: string, x: string, b: string, y: string)
    requires forall i :: 0 <= i < |a| ==> IsDigit(a[i])
    requires forall i :: 0 <= i < |b| ==> IsDigit(b[i])
    requires x != [] && !IsDigit(x[0])
    requires y != [] && !IsDigit(y[0])
    requires a + x == b + y
    ensures a == b && x == y
  {
    NonDigitIndexAfterDigits(a, x);
    NonDigitIndexAfterDigits(b, y);
    assert a == (a + x)[..|a|];
    assert b == (b + y)[..|b|];
    assert x == (a + x)[|a|..];
    assert y == (b + y)[|b|..];
  }

  // ---------------------------------------------------------------------------
  // `str::lines`: split at "\n", drop one "\r" before each "\n", and no empty
  // last line after a final line ending.

  /** Position of the first '\n' in `s`, or |s| when there is none. */
  function NewlineIndex(s: string): (k: nat)
    ensures k <= |s|
    ensures forall i :: 0 <= i < k ==> s[i] != '\n'
    ensures k < |s| ==> s[k] == '\n'
  {
    if s == [] || s[0] == '\n' then 0 else 1 + NewlineIndex(s[1..])
  }

  function StripCarriageReturn(line: string): string
  {
    if line != [] && line[|line| - 1] == '\r' then line[..|line| - 1] else line
  }

  function Lines(s: string): (ls: seq<string>)
    ensures ls == [] <==> s == ""
    decreases |s|
  {
    if s == [] then []
    else
      var k := NewlineIndex(s);
      if k == |s| then [s]
      else [StripCarriageReturn(s[..k])] + Lines(s[k + 1..])
  }

  predicate NoNewline(line: string)
  {
    forall c :: 0 <= c < |line| ==> line[c] != '\n'
  }

  /** No line holds a line feed. */
  lemma {:induction false} LinesHaveNoNewline(s: string)
    ensures forall j :: 0 <= j < |Lines(s)| ==> NoNewline(Lines(s)[j])
    decreases |s|
  {
    if s != [] {
      var k := NewlineIndex(s);
      if k < |s| {
        LinesHaveNoNewline(s[k + 1..]);
        assert NoNewline(s[..k]);
        assert NoNewline(StripCarriageReturn(s[..k]));
        assert Lines(s) == [StripCarriageReturn(s[..k])] + Lines(s[k + 1..]);
      } else {
        assert NoNewline(s);
      }
    }
  }

  /**
   * For text with "\n" line endings and no final line ending, joining the
   * lines with "\n" gives the text back.
   */
  lemma {:induction false} LinesJoinRoundTrip(s: string)
    requires forall i :: 0 <= i < |s| ==> s[i] != '\r'
    requires s == "" || s[|s| - 1] != '\n'
    ensures Join(Lines(s), "\n") == s
    decreases |s|
  {
    if s != [] {
      var k := NewlineIndex(s);
      if k < |s| {
        var line, rest := s[..k], s[k + 1..];
        assert rest != [] && rest[|rest| - 1] == s[|s| - 1];
        LinesJoinRoundTrip(rest);
        assert StripCarriageReturn(line) == line by {
          assert line == [] || line[|line| - 1] == s[k - 1];
        }
        assert Lines(s) == [line] + Lines(rest);
        JoinCons(line, Lines(rest), "\n");
        SplitAround(s, k);
      }
    }
  }

  /** Joining a part in front of a non-empty list puts one separator between. */
  lemma JoinCons(head: string, tail: seq<string>, sep: string)
    requires tail != []
    ensures Join([head] + tail, sep) == head + sep + Join(tail, sep)
  {
    assert ([head] + tail)[1..] == tail;
  }

  /** A string is what lies before position k, the character at k, and what follows. */
  lemma SplitAround(s: string, k: nat)
    requires k < |s|
    ensures s == s[..k] + [s[k]] + s[k + 1..]
  {
  }
}
