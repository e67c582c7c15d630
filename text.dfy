/**
 * The few string operations of the JavaScript runtime that the core relies on:
 * `Number.prototype.toString()` on non-negative integers, `String.prototype.padStart`
 * with a one-character filler, and `String.prototype.trim`.
 */
module Text {

  predicate IsDigit(c: char) {
    '0' <= c <= '9'
  }

  function Digit(d: nat): (c: char)
    requires d < 10
    ensures IsDigit(c)
  {
    (('0' as int) + d) as char
  }

  /** `n.toString()` for a non-negative integer: its shortest decimal spelling. */
  function DecimalString(n: nat): (s: string)
    ensures 1 <= |s|
    ensures |s| == 1 <==> n < 10
    ensures forall i :: 0 <= i < |s| ==> IsDigit(s[i])
    ensures 1 <= n ==> s[0] != '0'
  {
    if n < 10 then [Digit(n)] else DecimalString(n / 10) + [Digit(n % 10)]
  }

  /** Two integers with the same decimal spelling are equal. */
  lemma {:induction false} DecimalStringInjective(m: nat, n: nat)
    requires DecimalString(m) == DecimalString(n)
    ensures m == n
  {
    if m < 10 && n < 10 {
      assert Digit(m) == DecimalString(m)[0] == DecimalString(n)[0] == Digit(n);
    } else if 10 <= m && 10 <= n {
      var sm, sn := DecimalString(m), DecimalString(n);
      var pm, pn := DecimalString(m / 10), DecimalString(n / 10);
      assert sm == pm + [Digit(m % 10)] && sn == pn + [Digit(n % 10)];
      assert Digit(m % 10) == sm[|sm| - 1] == sn[|sn| - 1] == Digit(n % 10);
      assert pm == sm[..|sm| - 1] == sn[..|sn| - 1] == pn;
      DecimalStringInjective(m / 10, n / 10);
    }
  }

  /** `s.padStart(width, fill)` with a one-character `fill`. */
  function PadStart(s: string, width: nat, fill: char): (r: string)
    ensures |r| == if |s| < width then width else |s|
    ensures r[|r| - |s|..] == s
    ensures forall i :: 0 <= i < |r| - |s| ==> r[i] == fill
  {
    if |s| < width then seq(width - |s|, _ => fill) + s else s
  }

  /** Padding a decimal spelling with zeros to width 2 keeps distinct numbers distinct. */
  lemma ZeroPaddedDecimalInjective(m: nat, n: nat)
    requires PadStart(DecimalString(m), 2, '0') == PadStart(DecimalString(n), 2, '0')
    ensures m == n
  {
    var sm, sn := DecimalString(m), DecimalString(n);
    var pm, pn := PadStart(sm, 2, '0'), PadStart(sn, 2, '0');
    if |sm| == 1 && |sn| == 1 {
      assert sm == pm[1..] == pn[1..] == sn;
    } else if |sm| == 1 {
      assert false;
    } else if |sn| == 1 {
      assert false;
    } else {
      assert sm == pm == pn == sn;
    }
    DecimalStringInjective(m, n);
  }

  /**
   * The characters `String.prototype.trim` removes: ECMAScript WhiteSpace and
   * LineTerminator code points.
   */
  predicate IsJsWhitespace(c: char) {
    || c == '\t' || c == '\n' || c == '\U{000B}' || c == '\U{000C}' || c == '\r' || c == ' '
    || c == '\U{00A0}' || c == '\U{1680}' || ('\U{2000}' <= c <= '\U{200A}')
    || c == '\U{2028}' || c == '\U{2029}' || c == '\U{202F}' || c == '\U{205F}'
    || c == '\U{3000}' || c == '\U{FEFF}'
  }

  predicate AllWhitespace(s: string) {
    forall i :: 0 <= i < |s| ==> IsJsWhitespace(s[i])
  }

  function TrimStart(s: string): (r: string)
    ensures |r| <= |s| && r == s[|s| - |r|..]
    ensures r == [] || !IsJsWhitespace(r[0])
  {
    if s != [] && IsJsWhitespace(s[0]) then TrimStart(s[1..]) else s
  }

  function TrimEnd(s: string): (r: string)
    ensures |r| <= |s| && r == s[..|r|]
    ensures r == [] || !IsJsWhitespace(r[|r| - 1])
  {
    if s != [] && IsJsWhitespace(s[|s| - 1]) then TrimEnd(s[..|s| - 1]) else s
  }

  /** `s.trim()`: leading and trailing whitespace removed. */
  function Trim(s: string): (r: string)
    ensures |r| <= |s|
  {
    TrimEnd(TrimStart(s))
  }

  lemma {:induction false} TrimStartEmptyIff(s: string)
    ensures TrimStart(s) == [] <==> AllWhitespace(s)
  {
    if s == [] {
    } else if IsJsWhitespace(s[0]) {
      var rest := s[1..];
      TrimStartEmptyIff(rest);
      assert TrimStart(s) == TrimStart(rest);
      if AllWhitespace(rest) {
        forall i | 0 <= i < |s| ensures IsJsWhitespace(s[i]) {
          if 0 < i { assert s[i] == rest[i - 1]; }
        }
      } else {
        var j :| 0 <= j < |rest| && !IsJsWhitespace(rest[j]);
        assert s[j + 1] == rest[j];
      }
    } else {
      assert TrimStart(s) == s;
    }
  }

  /** `!s.trim()` holds exactly when `s` is empty or made only of whitespace. */
  lemma TrimEmptyIff(s: string)
    ensures Trim(s) == [] <==> AllWhitespace(s)
  {
    TrimStartEmptyIff(s);
    var t := TrimStart(s);
    if t != [] {
      assert !IsJsWhitespace(t[0]);
      assert TrimEnd(t) != [] by {
        if TrimEnd(t) == [] {
          TrimEndKeepsNonWhitespaceHead(t);
        }
      }
    }
  }

  lemma {:induction false} TrimEndKeepsNonWhitespaceHead(t: string)
    requires t != [] && !IsJsWhitespace(t[0])
    ensures TrimEnd(t) != []
  {
    if IsJsWhitespace(t[|t| - 1]) {
      TrimEndKeepsNonWhitespaceHead(t[..|t| - 1]);
    }
  }
}
