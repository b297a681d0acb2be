/** The JavaScript string and number built-ins the core relies on,
    restated over `seq<char>`: `indexOf`, `split`, `padStart`,
    `Number.prototype.toString`, unary `+`, `toLowerCase` and
    `replace(/\n/g, ' ')`. */
module JsText {
  import opened Outcomes

  // ---------------------------------------------------------------
  // indexOf
  // ---------------------------------------------------------------

  /** `sub` occurs in `s` starting at position `i`. */
  predicate OccursAt(s: string, sub: string, i: int) {
    0 <= i && i + |sub| <= |s| && s[i..i + |sub|] == sub
  }

  predicate Contains(s: string, sub: string) {
    exists i :: 0 <= i <= |s| && OccursAt(s, sub, i)
  }

  function IndexFrom(s: string, sub: string, k: nat): (r: int)
    requires k <= |s|
    ensures r == -1 ==> forall j :: k <= j ==> !OccursAt(s, sub, j)
    ensures r != -1 ==> k <= r && OccursAt(s, sub, r)
    ensures r != -1 ==> forall j :: k <= j < r ==> !OccursAt(s, sub, j)
    decreases |s| - k
  {
    if k + |sub| > |s| then -1
    else if s[k..k + |sub|] == sub then k
    else IndexFrom(s, sub, k + 1)
  }

  /** `s.indexOf(sub)`: the first position where `sub` occurs, or -1
      when it occurs nowhere. */
  function IndexOf(s: string, sub: string): (r: int)
    ensures r == -1 <==> !Contains(s, sub)
    ensures r != -1 ==> OccursAt(s, sub, r) && forall j :: 0 <= j < r ==> !OccursAt(s, sub, j)
  {
    IndexFrom(s, sub, 0)
  }

  // ---------------------------------------------------------------
  // split / join
  // ---------------------------------------------------------------

  /** `parts.join(sep)` */
  function Join(parts: seq<string>, sep: char): string
    requires |parts| >= 1
    decreases |parts|
  {
    if |parts| == 1 then parts[0] else parts[0] + [sep] + Join(parts[1..], sep)
  }

  /** `s.split(sep)` for a one-character separator: the maximal
      separator-free pieces, which joined again give back `s`. */
  function Split(s: string, sep: char): (parts: seq<string>)
    ensures |parts| >= 1
    ensures forall i :: 0 <= i < |parts| ==> sep !in parts[i]
    ensures Join(parts, sep) == s
    decreases |s|
  {
    if s == [] then [[]]
    else
      var rest := Split(s[1..], sep);
      if s[0] == sep then
        assert [sep] + Join(rest, sep) == s;
        [[]] + rest
      else
        var parts := [[s[0]] + rest[0]] + rest[1..];
        assert parts[1..] == rest[1..];
        assert Join(parts, sep) == [s[0]] + Join(rest, sep);
        parts
  }

  /** A string without the separator splits into itself alone. */
  lemma {:induction false} SplitWithoutSeparator(s: string, sep: char)
    requires sep !in s
    ensures Split(s, sep) == [s]
    decreases |s|
  {
    if s != [] {
      assert sep !in s[1..];
      SplitWithoutSeparator(s[1..], sep);
      assert [s[0]] + s[1..] == s;
    }
  }

  /** Splitting at a separator splits both sides independently. */
  lemma {:induction false} SplitAppend(a: string, b: string, sep: char)
    ensures Split(a + [sep] + b, sep) == Split(a, sep) + Split(b, sep)
    decreases |a|
  {
    var s := a + [sep] + b;
    if a == [] {
      assert s[1..] == b;
    } else {
      assert s[0] == a[0] && s[1..] == a[1..] + [sep] + b;
      SplitAppend(a[1..], b, sep);
      var pa := Split(a[1..], sep);
      var pb := Split(b, sep);
      if a[0] == sep {
        ConsAppend([], pa, pb);
      } else {
        HeadAppend([a[0]] + pa[0], pa, pb);
      }
    }
  }

  /** Concatenation regroups around a leading element. */
  lemma ConsAppend<T>(x: T, xs: seq<T>, ys: seq<T>)
    ensures ([x] + xs) + ys == [x] + (xs + ys)
  {
  }

  /** Appending keeps the head and appends to the tail. */
  lemma HeadAppend<T>(x: T, xs: seq<T>, ys: seq<T>)
    requires |xs| >= 1
    ensures (xs + ys)[0] == xs[0]
    ensures ([x] + xs[1..]) + ys == [x] + (xs + ys)[1..]
  {
    assert (xs + ys)[1..] == xs[1..] + ys;
  }



  // ---------------------------------------------------------------
  // Decimal digits: toString, unary +, padStart
  // ---------------------------------------------------------------

  predicate IsDigit(c: char) { '0' <= c <= '9' }

  predicate AllDigits(s: string) { forall i :: 0 <= i < |s| ==> IsDigit(s[i]) }

  function DigitOf(c: char): nat
    requires IsDigit(c)
  {
    c as int - '0' as int
  }

  function DigitChar(d: nat): (c: char)
    requires d < 10
    ensures IsDigit(c) && DigitOf(c) == d
  {
    ('0' as int + d) as char
  }

  /** The number a string of decimal digits denotes (the empty string
      denotes 0, as `+''` does). */
  function DigitsValue(s: string): nat
    requires AllDigits(s)
    decreases |s|
  {
    if s == [] then 0 else DigitsValue(s[..|s| - 1]) * 10 + DigitOf(s[|s| - 1])
  }

  /** `n.toString()` for a non-negative integer: canonical decimal
      digits (no leading zero except for 0 itself) denoting `n`. */
  function Decimal(n: nat): (s: string)
    ensures |s| >= 1 && AllDigits(s)
    ensures s[0] == '0' ==> n == 0 && |s| == 1
    ensures DigitsValue(s) == n
    decreases n
  {
    if n < 10 then [DigitChar(n)]
    else
      var s := Decimal(n / 10) + [DigitChar(n % 10)];
      assert s[..|s| - 1] == Decimal(n / 10);
      s
  }

  /** Unary `+` on a string, for the strings the core meets: a run of
      decimal digits converts to its value (`+''` is 0); anything else
      is NaN, here `None`. A canonical digit string is exactly the
      `toString` of the number it converts to. */
  function NumberValue(s: string): (r: Option<nat>)
    ensures r.Some? <==> AllDigits(s)
    ensures r.Some? && |s| >= 1 && (s[0] != '0' || |s| == 1) ==> Decimal(r.value) == s
    ensures s == "" ==> r == Some(0)
    ensures forall n: nat, k :: 0 <= k <= |s| && (forall j :: 0 <= j < k ==> s[j] == '0') && s[k..] == Decimal(n)
                                ==> r == Some(n)
  {
    ZeroPaddedValue(s);
    if AllDigits(s) then
      if |s| >= 1 && (s[0] != '0' || |s| == 1) then
        DecimalOfCanonical(s);
        Some(DigitsValue(s))
      else Some(DigitsValue(s))
    else None
  }

  /** `+'07'` is 7 and `+''` is 0. */
  lemma NumberValueExamples()
    ensures NumberValue("07") == Some(7)
    ensures NumberValue("") == Some(0)
  {
    assert Decimal(7) == "7";
    assert "07"[1..] == Decimal(7);
  }

  /** Zeros in front of a number's decimal form do not change its value. */
  lemma ZeroPaddedValue(s: string)
    ensures forall n: nat, k :: 0 <= k <= |s| && (forall j :: 0 <= j < k ==> s[j] == '0') && s[k..] == Decimal(n)
                                ==> AllDigits(s) && DigitsValue(s) == n
  {
    forall n: nat, k | 0 <= k <= |s| && (forall j :: 0 <= j < k ==> s[j] == '0') && s[k..] == Decimal(n)
      ensures AllDigits(s) && DigitsValue(s) == n
    {
      assert s == s[..k] + s[k..];
      LeadingZeros(s[..k], s[k..]);
    }
  }

  /** Digits without a leading zero are the decimal form of their value. */
  lemma {:induction false} DecimalOfCanonical(s: string)
    requires AllDigits(s) && |s| >= 1 && (s[0] != '0' || |s| == 1)
    ensures Decimal(DigitsValue(s)) == s
    decreases |s|
  {
    var n := |s|;
    var p := s[..n - 1];
    var d := DigitOf(s[n - 1]);
    if n == 1 {
      assert p == [];
      assert DigitsValue(s) == d;
      assert DigitChar(d) == s[0];
      assert Decimal(d) == [s[0]];
    } else {
      assert p[0] == s[0];
      DecimalOfCanonical(p);
      var v := DigitsValue(p);
      assert Decimal(0) == ['0'];
      assert v != 0;
      assert DigitsValue(s) == v * 10 + d;
      LastDigit(v, d);
      assert Decimal(v * 10 + d) == Decimal(v) + [DigitChar(d)];
      assert DigitChar(d) == s[n - 1];
      assert s == p + [s[n - 1]];
    }
  }

  /** Appending a digit multiplies by ten: the digit is the remainder. */
  lemma LastDigit(v: nat, d: nat)
    requires d < 10
    ensures (v * 10 + d) / 10 == v && (v * 10 + d) % 10 == d
    ensures v >= 1 ==> v * 10 + d >= 10
  {
  }

  lemma NumberValueOfDecimal(n: nat)
    ensures NumberValue(Decimal(n)) == Some(n)
  {
  }

  function Repeat(c: char, n: nat): (r: string)
    ensures |r| == n && forall i :: 0 <= i < n ==> r[i] == c
  {
    seq(n, _ => c)
  }

  /** `s.padStart(target, fill)` with a one-character fill: `s` is
      kept whole and, when shorter than `target`, preceded by as many
      `fill` characters as make up the difference. */
  function PadStart(s: string, target: nat, fill: char): (r: string)
    ensures |r| == if |s| >= target then |s| else target
    ensures r[|r| - |s|..] == s
    ensures forall i :: 0 <= i < |r| - |s| ==> r[i] == fill
  {
    if |s| >= target then s else Repeat(fill, target - |s|) + s
  }

  /** Zeros in front of a digit string do not change its value. */
  lemma {:induction false} LeadingZeros(z: string, s: string)
    requires forall i :: 0 <= i < |z| ==> z[i] == '0'
    requires AllDigits(s)
    ensures AllDigits(z + s) && DigitsValue(z + s) == DigitsValue(s)
    decreases |s|
  {
    if s == [] {
      assert z + s == z;
      ZerosValue(z);
    } else {
      assert (z + s)[..|z + s| - 1] == z + s[..|s| - 1];
      LeadingZeros(z, s[..|s| - 1]);
    }
  }

  lemma {:induction false} ZerosValue(z: string)
    requires forall i :: 0 <= i < |z| ==> z[i] == '0'
    ensures AllDigits(z) && DigitsValue(z) == 0
    decreases |z|
  {
    if z != [] {
      ZerosValue(z[..|z| - 1]);
    }
  }

  // ---------------------------------------------------------------
  // toLowerCase (ASCII letters only) and replace(/\n/g, ' ')
  // ---------------------------------------------------------------

  predicate IsUpper(c: char) { 'A' <= c <= 'Z' }

  function LowerChar(c: char): char {
    if IsUpper(c) then (c as int + 32) as char else c
  }

  /** `s.toLowerCase()` on ASCII: same length, every character mapped
      through `LowerChar`, no upper-case letter left. */
  function LowerAscii(s: string): (r: string)
    ensures |r| == |s|
    ensures forall i :: 0 <= i < |s| ==> r[i] == LowerChar(s[i]) && !IsUpper(r[i])
    decreases |s|
  {
    if s == [] then [] else [LowerChar(s[0])] + LowerAscii(s[1..])
  }

  /** `s.replace(/\n/g, ' ')`: every line feed becomes a space and
      every other character stays where it was. */
  function ReplaceNewlines(s: string): (r: string)
    ensures |r| == |s|
    ensures forall i :: 0 <= i < |s| ==> r[i] == (if s[i] == '\n' then ' ' else s[i])
    ensures '\n' !in r
    decreases |s|
  {
    if s == [] then []
    else [if s[0] == '\n' then ' ' else s[0]] + ReplaceNewlines(s[1..])
  }
}
