/**
 * The slice of JavaScript value semantics the donation routes rely on: truthiness (`if (v)`, `v || d`),
 * strict equality against a string literal, string conversion in `+` and template literals, and the text
 * of a Number of the form n / 100.
 */
module Js {
  import opened Outcomes

  /**
   * A JSON request field. Numbers are integers and objects are not represented: the model assumes
   * clients post the printed fields (`locale`, `frequency`) as strings, as the donation form does.
   */
  datatype JsValue = Undefined | Null | Bool(b: bool) | Num(n: int) | Str(s: string)

  /** JavaScript truthiness. */
  predicate Truthy(v: JsValue)
  {
    match v
    case Undefined => false
    case Null => false
    case Bool(b) => b
    case Num(n) => n != 0
    case Str(s) => s != ""
  }

  /** The value of `a || b`. */
  function Or(a: JsValue, b: JsValue): JsValue
  {
    if Truthy(a) then a else b
  }

  /** The string `'' + v` produces. */
  function ToStr(v: JsValue): string
  {
    match v
    case Undefined => "undefined"
    case Null => "null"
    case Bool(b) => if b then "true" else "false"
    case Num(n) => IntText(n)
    case Str(s) => s
  }

  predicate IsDigit(c: char)
  {
    '0' <= c <= '9'
  }

  predicate AllDigits(s: string)
  {
    forall i :: 0 <= i < |s| ==> IsDigit(s[i])
  }

  /** A decimal numeral as JavaScript prints a non-negative integer: digits only, no leading zero. */
  predicate IsCanonical(s: string)
  {
    |s| > 0 && AllDigits(s) && (|s| > 1 ==> s[0] != '0')
  }

  function DigitValue(c: char): nat
    requires IsDigit(c)
  {
    c as int - '0' as int
  }

  function DigitChar(d: nat): (c: char)
    requires d < 10
    ensures IsDigit(c) && DigitValue(c) == d
  {
    ('0' as int + d) as char
  }

  /** The decimal text of a non-negative integer. */
  function NatText(n: nat): (s: string)
    ensures IsCanonical(s)
    ensures n < 10 <==> |s| == 1
  {
    if n < 10 then [DigitChar(n)] else NatText(n / 10) + [DigitChar(n % 10)]
  }

  /** The decimal text of an integer, with a leading '-' when it is negative. */
  function IntText(n: int): string
  {
    if n < 0 then "-" + NatText(-n) else NatText(n)
  }

  /** The value of a string of decimal digits (reference reader for NatText). */
  function ParseNat(s: string): nat
    requires AllDigits(s)
  {
    if |s| == 0 then 0 else ParseNat(s[..|s| - 1]) * 10 + DigitValue(s[|s| - 1])
  }

  /** Reading back the text of n gives n. */
  lemma {:induction false} ParseNatText(n: nat)
    ensures ParseNat(NatText(n)) == n
  {
    if n >= 10 {
      var s := NatText(n);
      assert s[..|s| - 1] == NatText(n / 10);
      ParseNatText(n / 10);
    }
  }

  lemma {:induction false} ParsePositive(s: string)
    requires |s| > 0 && AllDigits(s) && s[0] != '0'
    ensures ParseNat(s) > 0
  {
    if |s| > 1 {
      ParsePositive(s[..|s| - 1]);
    }
  }

  /** Conversely, every canonical numeral is the text of the number it denotes. */
  lemma {:induction false} NatTextOfParse(s: string)
    requires IsCanonical(s)
    ensures NatText(ParseNat(s)) == s
  {
    var last := s[|s| - 1];
    assert DigitChar(DigitValue(last)) == last;
    if |s| > 1 {
      var p := s[..|s| - 1];
      assert IsCanonical(p);
      NatTextOfParse(p);
      ParsePositive(p);
      assert ParseNat(s) / 10 == ParseNat(p);
      assert ParseNat(s) % 10 == DigitValue(last);
      assert s == p + [last];
    }
  }

  /**
   * The text of the JavaScript Number n / 100 (as in `Date.now() / 100`): the integer part, then
   * a '.' and the hundredths with trailing zeros dropped, or no fraction at all when n is a multiple of 100.
   */
  function HundredthsText(n: nat): (s: string)
    ensures |s| > 0 && IsDigit(s[0])
    ensures forall i :: 0 <= i < |s| ==> IsDigit(s[i]) || s[i] == '.'
  {
    var whole := NatText(n / 100);
    var cents := n % 100;
    if cents == 0 then whole
    else if cents % 10 == 0 then whole + "." + [DigitChar(cents / 10)]
    else whole + "." + [DigitChar(cents / 10), DigitChar(cents % 10)]
  }

  /** Reference reader: the number of hundredths a numeral with at most two decimals denotes. */
  function HundredthsOf(s: string): Option<nat>
  {
    if |s| >= 3 && s[|s| - 3] == '.' && AllDigits(s[..|s| - 3]) && AllDigits(s[|s| - 2..]) then
      Some(ParseNat(s[..|s| - 3]) * 100 + ParseNat(s[|s| - 2..]))
    else if |s| >= 2 && s[|s| - 2] == '.' && AllDigits(s[..|s| - 2]) && IsDigit(s[|s| - 1]) then
      Some(ParseNat(s[..|s| - 2]) * 100 + DigitValue(s[|s| - 1]) * 10)
    else if AllDigits(s) then
      Some(ParseNat(s) * 100)
    else
      None
  }

  /** The printed quotient loses nothing: reading it back gives the timestamp. */
  lemma HundredthsRoundTrip(n: nat)
    ensures HundredthsOf(HundredthsText(n)) == Some(n)
  {
    var whole := NatText(n / 100);
    var cents := n % 100;
    ParseNatText(n / 100);
    var s := HundredthsText(n);
    if cents == 0 {
      assert s == whole;
      if |s| >= 3 {
        assert IsDigit(s[|s| - 3]);
      }
      if |s| >= 2 {
        assert IsDigit(s[|s| - 2]);
      }
    } else if cents % 10 == 0 {
      assert s[..|s| - 2] == whole;
      if |s| >= 3 {
        assert s[|s| - 3] != '.' by {
          assert s[|s| - 3] == whole[|whole| - 1];
        }
      }
    } else {
      assert s[..|s| - 3] == whole;
      var frac := s[|s| - 2..];
      assert frac == [DigitChar(cents / 10), DigitChar(cents % 10)];
      assert frac[..1] == [DigitChar(cents / 10)];
      assert frac[..1][..0] == [];
      assert ParseNat(frac[..1]) == cents / 10;
      assert ParseNat(frac) == (cents / 10) * 10 + cents % 10;
    }
  }

  /** Two timestamps print the same only when they are equal. */
  lemma HundredthsTextInjective(a: nat, b: nat)
    ensures HundredthsText(a) == HundredthsText(b) ==> a == b
  {
    HundredthsRoundTrip(a);
    HundredthsRoundTrip(b);
  }

  /** Only the string "monthly" itself converts to "monthly". */
  lemma ToStrMonthly(v: JsValue)
    ensures ToStr(v) == "monthly" <==> v == Str("monthly")
  {
  }
}
