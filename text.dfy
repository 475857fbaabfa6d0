// String helpers the program relies on: `trim`, `includes`, decimal
// rendering of numbers, the mm:ss clock and the default string order.
module Text {
  /**
   * The characters JavaScript's `String.prototype.trim` removes: white
   * space (including every space separator) and line terminators.
   */
  predicate IsSpace(c: char)
  {
    c == ' ' || c == '\t' || c == '\n' || c == '\r' || c == '\U{B}' || c == '\U{C}'
    || c == '\U{A0}' || c == '\U{1680}' || ('\U{2000}' <= c <= '\U{200A}') || c == '\U{202F}'
    || c == '\U{205F}' || c == '\U{3000}' || c == '\U{FEFF}' || c == '\U{2028}' || c == '\U{2029}'
  }

  predicate IsBlank(s: string)
  {
    forall i :: 0 <= i < |s| ==> IsSpace(s[i])
  }

  function TrimStart(s: string): (r: string)
    ensures |r| <= |s| && r == s[|s| - |r|..]
    ensures r == [] || !IsSpace(r[0])
    ensures IsBlank(s[..|s| - |r|])
  {
    if |s| > 0 && IsSpace(s[0]) then
      var r := TrimStart(s[1..]);
      assert s[1..][..|s| - 1 - |r|] == s[1..|s| - |r|];
      r
    else s
  }

  function TrimEnd(s: string): (r: string)
    ensures |r| <= |s| && r == s[..|r|]
    ensures r == [] || !IsSpace(r[|r| - 1])
    ensures IsBlank(s[|r|..])
  {
    if |s| > 0 && IsSpace(s[|s| - 1]) then
      var r := TrimEnd(s[..|s| - 1]);
      r
    else s
  }

  /** `s.trim()`: `s` without its leading and trailing white space. */
  function Trim(s: string): (r: string)
    ensures r == "" <==> IsBlank(s)
    ensures r != "" ==> !IsSpace(r[0]) && !IsSpace(r[|r| - 1])
    ensures exists i :: 0 <= i <= |s| - |r| && OccursAt(s, r, i)
  {
    var a := TrimStart(s);
    var r := TrimEnd(a);
    TrimParts(s, a, r);
    r
  }

  lemma TrimParts(s: string, a: string, r: string)
    requires |a| <= |s| && a == s[|s| - |a|..] && IsBlank(s[..|s| - |a|])
    requires a == [] || !IsSpace(a[0])
    requires |r| <= |a| && r == a[..|r|] && IsBlank(a[|r|..])
    ensures r == "" <==> IsBlank(s)
    ensures OccursAt(s, r, |s| - |a|)
  {
    var i := |s| - |a|;
    assert s[i..i + |r|] == r;
    assert s[i + |r|..] == a[|r|..];
    BlankParts(s, i, i + |r|);
  }

  lemma BlankParts(s: string, i: nat, j: nat)
    requires i <= j <= |s|
    ensures IsBlank(s) <==> IsBlank(s[..i]) && IsBlank(s[i..j]) && IsBlank(s[j..])
  {
    assert forall k :: 0 <= k < |s| ==> s[k] == if k < i then s[..i][k] else if k < j then s[i..j][k - i] else s[j..][k - j];
  }

  /** `p` occurs in `s` starting at index `i`. */
  predicate OccursAt(s: string, p: string, i: int)
  {
    0 <= i <= |s| - |p| && s[i..i + |p|] == p
  }

  /** `s.includes(p)`. */
  predicate Contains(s: string, p: string)
  {
    exists i :: 0 <= i <= |s| - |p| && OccursAt(s, p, i)
  }

  /** A string containing `p` contains its first two characters side by side. */
  lemma ContainsPairOf(s: string, p: string)
    requires |p| >= 2
    ensures Contains(s, p) ==> exists i :: 0 <= i < |s| - 1 && s[i] == p[0] && s[i + 1] == p[1]
  {
    if Contains(s, p) {
      var i :| 0 <= i <= |s| - |p| && OccursAt(s, p, i);
      assert s[i] == s[i..i + |p|][0] && s[i + 1] == s[i..i + |p|][1];
    }
  }

  /** A string containing `p` contains each of its characters. */
  lemma ContainsCharOf(s: string, p: string, k: int)
    requires 0 <= k < |p|
    ensures Contains(s, p) ==> p[k] in s
  {
    if Contains(s, p) {
      var i :| 0 <= i <= |s| - |p| && OccursAt(s, p, i);
      assert s[i + k] == s[i..i + |p|][k];
    }
  }

  // ---- decimal numbers ----

  predicate IsDigit(c: char)
  {
    '0' <= c <= '9'
  }

  function DigitChar(d: nat): (c: char)
    requires d < 10
    ensures IsDigit(c)
  {
    ('0' as int + d) as char
  }

  function DigitValue(c: char): nat
  {
    if IsDigit(c) then c as int - '0' as int else 0
  }

  /** `String(n)` for a non-negative integer: its decimal digits, no leading zero. */
  function NatToString(n: nat): (r: string)
    ensures |r| >= 1
    ensures forall i :: 0 <= i < |r| ==> IsDigit(r[i])
    ensures |r| > 1 ==> r[0] != '0'
    ensures n < 10 <==> |r| == 1
  {
    if n < 10 then [DigitChar(n)] else NatToString(n / 10) + [DigitChar(n % 10)]
  }

  /** Reads a string of decimal digits back as a number. */
  function ParseDecimal(s: string): nat
  {
    if |s| == 0 then 0 else ParseDecimal(s[..|s| - 1]) * 10 + DigitValue(s[|s| - 1])
  }

  lemma {:induction false} ParseNatToString(n: nat)
    ensures ParseDecimal(NatToString(n)) == n
  {
    var r := NatToString(n);
    if n >= 10 {
      ParseNatToString(n / 10);
      assert r[..|r| - 1] == NatToString(n / 10);
    }
  }

  /** A leading zero does not change the value read. */
  lemma {:induction false} ParseLeadingZero(s: string)
    ensures ParseDecimal("0" + s) == ParseDecimal(s)
  {
    if |s| > 0 {
      assert ("0" + s)[..|s|] == "0" + s[..|s| - 1];
      ParseLeadingZero(s[..|s| - 1]);
    }
  }

  /** `str.padStart(2, '0')`. */
  function PadStart2(s: string): (r: string)
    ensures |r| == if |s| >= 2 then |s| else 2
    ensures r[|r| - |s|..] == s
  {
    if |s| == 0 then "00" else if |s| == 1 then "0" + s else s
  }

  /**
   * `t` is a clock showing `minutes` and `secs`: at least two digits, a
   * colon and two more digits, the field before the colon reading back as
   * `minutes` and the two digits after it as `secs`.
   */
  predicate ShowsClock(t: string, minutes: nat, secs: nat)
  {
    && |t| >= 5 && t[|t| - 3] == ':' && (forall i :: 0 <= i < |t| && i != |t| - 3 ==> IsDigit(t[i]))
    && ParseDecimal(t[..|t| - 3]) == minutes && ParseDecimal(t[|t| - 2..]) == secs
  }

  /** `formatTime`: a second count shown as zero-padded minutes and seconds, `mm:ss`. */
  function FormatTime(seconds: nat): (r: string)
    ensures ShowsClock(r, seconds / 60, seconds % 60) && seconds % 60 < 60
  {
    var m, sec := PadStart2(NatToString(seconds / 60)), PadStart2(NatToString(seconds % 60));
    PaddedFields(seconds / 60, seconds % 60);
    ClockText(m, sec, seconds / 60, seconds % 60);
    m + ":" + sec
  }

  /** The padded minutes and seconds are runs of digits that read back as the numbers written. */
  lemma PaddedFields(minutes: nat, secs: nat)
    requires secs < 60
    ensures var m, sec := PadStart2(NatToString(minutes)), PadStart2(NatToString(secs));
      && |m| >= 2 && |sec| == 2 && AllDigits(m) && AllDigits(sec)
      && ParseDecimal(m) == minutes && ParseDecimal(sec) == secs
  {
    PadKeepsDigits(NatToString(minutes));
    PadKeepsDigits(NatToString(secs));
    TwoDigits(secs);
    ParsePadded(minutes);
    ParsePadded(secs);
  }

  /** A number below 100 is written with at most two digits. */
  lemma TwoDigits(n: nat)
    requires n < 100
    ensures |NatToString(n)| <= 2
  {
    if n >= 10 {
      assert n / 10 < 10;
    }
  }

  /** Two runs of digits joined by a colon read back field by field as the numbers they spell. */
  lemma ClockText(m: string, sec: string, minutes: nat, secs: nat)
    requires |m| >= 2 && |sec| == 2 && AllDigits(m) && AllDigits(sec)
    requires ParseDecimal(m) == minutes && ParseDecimal(sec) == secs
    ensures ShowsClock(m + ":" + sec, minutes, secs)
  {
    ClockShape(m, sec);
    var r := m + ":" + sec;
    assert r[..|r| - 3] == m;
    assert r[|r| - 2..] == sec;
  }

  lemma PadKeepsDigits(s: string)
    requires AllDigits(s)
    ensures AllDigits(PadStart2(s))
  {
  }

  /** Two runs of digits joined by a colon: the colon third from the end, digits elsewhere. */
  lemma ClockShape(m: string, sec: string)
    requires |m| >= 2 && |sec| == 2 && AllDigits(m) && AllDigits(sec)
    ensures var r := m + ":" + sec;
      |r| >= 5 && r[|r| - 3] == ':' && forall i :: 0 <= i < |r| && i != |r| - 3 ==> IsDigit(r[i])
  {
    var r := m + ":" + sec;
    forall i | 0 <= i < |r| && i != |r| - 3 ensures IsDigit(r[i]) {
      if i < |m| {
        assert r[i] == m[i];
      } else {
        assert r[i] == sec[i - |m| - 1];
      }
    }
  }

  /** Reads an `m...m:ss` clock back as a number of seconds. */
  function ParseClock(t: string): nat
  {
    if |t| < 3 then 0 else ParseDecimal(t[..|t| - 3]) * 60 + ParseDecimal(t[|t| - 2..])
  }

  lemma {:induction false} ParsePadded(n: nat)
    ensures ParseDecimal(PadStart2(NatToString(n))) == n
  {
    ParseNatToString(n);
    var s := NatToString(n);
    if |s| == 1 {
      ParseLeadingZero(s);
    }
  }

  /** The clock shows exactly the seconds it was given: nothing is lost by formatting. */
  lemma FormatTimeRoundTrip(seconds: nat)
    ensures ParseClock(FormatTime(seconds)) == seconds
  {
    var m := PadStart2(NatToString(seconds / 60));
    var sec := PadStart2(NatToString(seconds % 60));
    ClockParts(m, sec);
    ParsePadded(seconds / 60);
    ParsePadded(seconds % 60);
  }

  /** A clock reads back as its minutes times sixty plus its two-digit seconds. */
  lemma ClockParts(m: string, sec: string)
    requires |sec| == 2
    ensures ParseClock(m + ":" + sec) == ParseDecimal(m) * 60 + ParseDecimal(sec)
  {
    var t := m + ":" + sec;
    assert t[..|t| - 3] == m;
    assert t[|t| - 2..] == sec;
  }

  // ---- code-unit string order (`sort()` and `localeCompare` on the keys used here) ----

  predicate StrLe(a: string, b: string)
  {
    |a| == 0 || (|b| > 0 && (a[0] < b[0] || (a[0] == b[0] && StrLe(a[1..], b[1..]))))
  }

  lemma {:induction false} StrLeTotal(a: string, b: string)
    ensures StrLe(a, b) || StrLe(b, a)
  {
    if |a| > 0 && |b| > 0 && a[0] == b[0] {
      StrLeTotal(a[1..], b[1..]);
    }
  }

  lemma {:induction false} StrLeTransitive(a: string, b: string, c: string)
    requires StrLe(a, b) && StrLe(b, c)
    ensures StrLe(a, c)
  {
    if |a| > 0 && a[0] == b[0] && b[0] == c[0] {
      StrLeTransitive(a[1..], b[1..], c[1..]);
    }
  }

  lemma {:induction false} StrLeAntisymmetric(a: string, b: string)
    requires StrLe(a, b) && StrLe(b, a)
    ensures a == b
  {
    if |a| > 0 {
      StrLeAntisymmetric(a[1..], b[1..]);
      assert a == [a[0]] + a[1..] && b == [b[0]] + b[1..];
    }
  }

  /** A common prefix does not change the order. */
  lemma {:induction false} StrLeSamePrefix(p: string, a: string, b: string)
    ensures StrLe(p + a, p + b) <==> StrLe(a, b)
  {
    if |p| > 0 {
      assert (p + a)[0] == (p + b)[0] == p[0];
      assert (p + a)[1..] == p[1..] + a && (p + b)[1..] == p[1..] + b;
      StrLeSamePrefix(p[1..], a, b);
    } else {
      assert p + a == a && p + b == b;
    }
  }

  /** Two different heads of the same length decide the order, whatever follows them. */
  lemma {:induction false} StrLeHeads(a: string, b: string, c: string, d: string)
    requires |a| == |b| && a != b
    ensures StrLe(a + c, b + d) <==> StrLe(a, b)
  {
    if a[0] == b[0] {
      assert a[1..] != b[1..];
      assert (a + c)[1..] == a[1..] + c && (b + d)[1..] == b[1..] + d;
      StrLeHeads(a[1..], b[1..], c, d);
    }
  }

  predicate AllDigits(s: string)
  {
    forall i :: 0 <= i < |s| ==> IsDigit(s[i])
  }

  lemma SingleCharOrder(x: char, y: char)
    ensures StrLe([x], [y]) <==> x <= y
  {
    assert [x][1..] == [];
  }

  /** For digit strings of one length, text order is numeric order. */
  lemma {:induction false} DigitsOrder(a: string, b: string)
    requires |a| == |b| && AllDigits(a) && AllDigits(b)
    ensures StrLe(a, b) <==> ParseDecimal(a) <= ParseDecimal(b)
    decreases |a|
  {
    if |a| > 0 {
      var a', b' := a[..|a| - 1], b[..|b| - 1];
      var x, y := a[|a| - 1], b[|b| - 1];
      assert a == a' + [x] && b == b' + [y];
      DigitsOrder(a', b');
      DigitsOrder(b', a');
      if a' == b' {
        StrLeSamePrefix(a', [x], [y]);
        SingleCharOrder(x, y);
      } else {
        StrLeHeads(a', b', [x], [y]);
        if ParseDecimal(a') == ParseDecimal(b') {
          StrLeAntisymmetric(a', b');
          assert false;
        }
      }
    }
  }

  /** Padding a number to two places adds only zeros. */
  lemma PaddedDigits(n: nat)
    ensures AllDigits(PadStart2(NatToString(n)))
  {
  }

  /** The numbers from 1000 to 9999 have four digits. */
  lemma FourDigits(n: nat)
    requires 1000 <= n < 10000
    ensures |NatToString(n)| == 4
  {
    assert |NatToString(n / 1000)| == 1;
    assert NatToString(n / 100) == NatToString(n / 1000) + [DigitChar(n / 100 % 10)];
    assert NatToString(n / 10) == NatToString(n / 100) + [DigitChar(n / 10 % 10)];
  }

  /** Keys whose four-digit heads differ are ordered by those heads. */
  lemma KeyOrderByYear(y1: nat, y2: nat, rest1: string, rest2: string)
    requires 1000 <= y1 < 10000 && 1000 <= y2 < 10000 && y1 != y2
    ensures StrLe(NatToString(y1) + rest1, NatToString(y2) + rest2) <==> y1 < y2
  {
    FourDigits(y1);
    FourDigits(y2);
    ParseNatToString(y1);
    ParseNatToString(y2);
    StrLeHeads(NatToString(y1), NatToString(y2), rest1, rest2);
    DigitsOrder(NatToString(y1), NatToString(y2));
  }

  /** Numbers padded to two places sort as text in numeric order. */
  lemma PaddedOrder(i1: nat, i2: nat)
    requires i1 < 100 && i2 < 100
    ensures StrLe(PadStart2(NatToString(i1)), PadStart2(NatToString(i2))) <==> i1 <= i2
  {
    PaddedDigits(i1);
    PaddedDigits(i2);
    ParsePadded(i1);
    ParsePadded(i2);
    DigitsOrder(PadStart2(NatToString(i1)), PadStart2(NatToString(i2)));
  }

  /** A four-digit number, a separator and a number padded to two places: "2024-07". */
  function NumberedKey(y: nat, sep: string, i: nat): string
  {
    NatToString(y) + (sep + PadStart2(NatToString(i)))
  }

  /** Such keys sort as text in the order of their number pairs. */
  lemma NumberedKeyOrder(y1: nat, y2: nat, sep: string, i1: nat, i2: nat)
    requires 1000 <= y1 < 10000 && 1000 <= y2 < 10000 && i1 < 100 && i2 < 100
    ensures StrLe(NumberedKey(y1, sep, i1), NumberedKey(y2, sep, i2)) <==> y1 < y2 || (y1 == y2 && i1 <= i2)
  {
    var I1, I2 := PadStart2(NatToString(i1)), PadStart2(NatToString(i2));
    if y1 != y2 {
      KeyOrderByYear(y1, y2, sep + I1, sep + I2);
    } else {
      StrLeSamePrefix(NatToString(y1), sep + I1, sep + I2);
      StrLeSamePrefix(sep, I1, I2);
      PaddedOrder(i1, i2);
    }
  }
}
