// String helpers the planner relies on: JavaScript's string order (as code-point order),
// decimal rendering of numbers, two-digit padding and blank-text detection.

module Text {

  /**
   * JavaScript's `a < b` on strings, as lexicographic order of Unicode code
   * points. JavaScript compares UTF-16 code units; the two orders agree except
   * when a character above U+FFFF meets one in U+E000..U+FFFF, and the strings
   * the planner compares are ASCII.
   */
  predicate LexLess(a: string, b: string)
    decreases |a|
  {
    if |a| == 0 then |b| > 0
    else if |b| == 0 then false
    else if a[0] < b[0] then true
    else if a[0] == b[0] then LexLess(a[1..], b[1..])
    else false
  }

  /** JavaScript's `a <= b` on strings. */
  predicate LexLessEq(a: string, b: string)
  {
    LexLess(a, b) || a == b
  }

  lemma {:induction false} LexIrreflexive(a: string)
    ensures !LexLess(a, a)
    decreases |a|
  {
    if |a| > 0 {
      LexIrreflexive(a[1..]);
    }
  }

  lemma {:induction false} LexTransitive(a: string, b: string, c: string)
    requires LexLess(a, b) && LexLess(b, c)
    ensures LexLess(a, c)
    decreases |a|
  {
    if |a| > 0 && a[0] == b[0] && b[0] == c[0] {
      LexTransitive(a[1..], b[1..], c[1..]);
    }
  }

  lemma {:induction false} LexTotal(a: string, b: string)
    ensures LexLess(a, b) || a == b || LexLess(b, a)
    decreases |a|
  {
    if |a| > 0 && |b| > 0 && a[0] == b[0] {
      LexTotal(a[1..], b[1..]);
      if a[1..] == b[1..] {
        assert a == [a[0]] + a[1..] && b == [b[0]] + b[1..];
      }
    }
  }

  lemma LexAsymmetric(a: string, b: string)
    requires LexLess(a, b)
    ensures !LexLess(b, a)
  {
    if LexLess(b, a) {
      LexTransitive(a, b, a);
      LexIrreflexive(a);
    }
  }

  /** `<=` on strings is transitive. */
  lemma LexLessEqTransitive(a: string, b: string, c: string)
    requires LexLessEq(a, b) && LexLessEq(b, c)
    ensures LexLessEq(a, c)
  {
    if LexLess(a, b) && LexLess(b, c) {
      LexTransitive(a, b, c);
    }
  }

  /** The negation of `<` is `>=`. */
  lemma NotLessIsGreaterEq(a: string, b: string)
    ensures !LexLess(a, b) <==> LexLessEq(b, a)
  {
    LexTotal(a, b);
    if LexLess(b, a) {
      LexAsymmetric(b, a);
    }
    if a == b {
      LexIrreflexive(a);
    }
  }

  predicate IsDigit(c: char)
  {
    '0' <= c <= '9'
  }

  function DigitValue(c: char): (d: nat)
    requires IsDigit(c)
    ensures d < 10
  {
    (c as int) - ('0' as int)
  }

  function DigitChar(d: nat): (c: char)
    requires d < 10
    ensures IsDigit(c) && DigitValue(c) == d
  {
    (('0' as int) + d) as char
  }

  /** A digit's character order is its numeric order. */
  lemma DigitOrder(c: char, e: char)
    requires IsDigit(c) && IsDigit(e)
    ensures c < e <==> DigitValue(c) < DigitValue(e)
    ensures c == e <==> DigitValue(c) == DigitValue(e)
  {
  }

  /** A digit character is the character of its own value. */
  lemma DigitCharOfValue(c: char)
    requires IsDigit(c)
    ensures DigitChar(DigitValue(c)) == c
  {
    DigitOrder(c, DigitChar(DigitValue(c)));
  }

  predicate AllDigits(s: string)
  {
    forall i :: 0 <= i < |s| ==> IsDigit(s[i])
  }

  /** `n.toString()` for a non-negative integer: decimal, no leading zeros. */
  function NatToString(n: nat): (s: string)
    ensures |s| >= 1 && AllDigits(s)
    ensures n < 10 <==> |s| == 1
    decreases n
  {
    if n < 10 then [DigitChar(n)] else NatToString(n / 10) + [DigitChar(n % 10)]
  }

  /** `i.toString()` for any integer. */
  function IntToString(i: int): (s: string)
    ensures i >= 0 ==> s == NatToString(i)
    ensures i < 0 ==> s == "-" + NatToString(-i)
  {
    if i >= 0 then NatToString(i) else "-" + NatToString(-i)
  }

  /** Numbers below 100 print with at most two digits, and only they. */
  lemma NatToStringShort(n: nat)
    ensures n < 100 <==> |NatToString(n)| <= 2
  {
    if n >= 10 {
      assert NatToString(n) == NatToString(n / 10) + [DigitChar(n % 10)];
    }
  }

  /** The value of a string of decimal digits. */
  function ParseNat(s: string): nat
    requires AllDigits(s)
    decreases |s|
  {
    if s == [] then 0 else 10 * ParseNat(s[..|s| - 1]) + DigitValue(s[|s| - 1])
  }

  lemma {:induction false} ParseNatToString(n: nat)
    ensures ParseNat(NatToString(n)) == n
    decreases n
  {
    var s := NatToString(n);
    if n >= 10 {
      ParseNatToString(n / 10);
      assert s[..|s| - 1] == NatToString(n / 10);
    }
  }

  /** `s.padStart(2, '0')`. */
  function PadTwo(s: string): (r: string)
    ensures |r| == if |s| < 2 then 2 else |s|
    ensures r[|r| - |s|..] == s
    ensures forall i :: 0 <= i < |r| - |s| ==> r[i] == '0'
  {
    if |s| == 0 then "00" else if |s| == 1 then "0" + s else s
  }

  /** A number below 100, rendered by `toString().padStart(2, '0')`, is two digits. */
  lemma PadTwoDigits(n: nat)
    requires n < 100
    ensures |PadTwo(NatToString(n))| == 2 && AllDigits(PadTwo(NatToString(n)))
    ensures ParseNat(PadTwo(NatToString(n))) == n
  {
    var s := NatToString(n);
    var p := PadTwo(s);
    ParseNatToString(n);
    if n < 10 {
      assert p == ['0', DigitChar(n)];
      assert p[..1] == ['0'];
      assert ParseNat(p[..1]) == 0 by {
        assert p[..1][..0] == [];
      }
    } else {
      assert p == s;
    }
  }

  /**
   * Characters String.prototype.trim removes: the WhiteSpace and LineTerminator
   * code points of ECMAScript (section 12.2 and 12.3 of ECMA-262), that is tab,
   * vertical tab, form feed, the byte order mark, every space separator of
   * Unicode category Zs, and LF, CR, LINE SEPARATOR and PARAGRAPH SEPARATOR.
   */
  predicate IsSpace(c: char)
  {
    || c == '\t' || c == '\U{000B}' || c == '\U{000C}' || c == ' ' || c == '\U{00A0}' || c == '\U{FEFF}'
    || c == '\U{1680}' || ('\U{2000}' <= c <= '\U{200A}') || c == '\U{202F}' || c == '\U{205F}' || c == '\U{3000}'
    || c == '\n' || c == '\r' || c == '\U{2028}' || c == '\U{2029}'
  }

  /** Ideographic, zero-width no-break and line-separator text is blank; a letter is not. */
  lemma BlankExamples()
    ensures IsBlank("\U{3000}") && IsBlank("\U{FEFF}\U{2028} ") && IsBlank("")
    ensures !IsBlank(" a ") && !IsBlank("\U{200B}")
  {
    assert " a "[1] == 'a';
    assert "\U{200B}"[0] == '\U{200B}';
  }

  /** `!s.trim()`: the text is empty or white space only. */
  predicate IsBlank(s: string)
  {
    forall i :: 0 <= i < |s| ==> IsSpace(s[i])
  }
}
