/** The cart drawer's quantity guard (frontend/src/features/customer/components/Cart/Cart.js):
    the typed or stepped quantity goes through `parseInt`, and an update is requested
    only for a positive result. */
module CartView {
  import opened Common

  /** The value of a digit character in bases up to 36; 36 for a character that is no digit. */
  function DigitValue(c: char): (v: nat)
    ensures v <= 36
  {
    if '0' <= c <= '9' then c as int - '0' as int
    else if 'a' <= c <= 'z' then c as int - 'a' as int + 10
    else if 'A' <= c <= 'Z' then c as int - 'A' as int + 10
    else 36
  }

  predicate IsDigit(c: char, base: nat) {
    DigitValue(c) < base
  }

  /** The longest prefix of digits in the base. */
  function DigitPrefix(s: string, base: nat): (r: string)
    ensures |r| <= |s| && r == s[..|r|]
    ensures forall k :: 0 <= k < |r| ==> IsDigit(r[k], base)
    ensures |r| == |s| || !IsDigit(s[|r|], base)
  {
    if s != [] && IsDigit(s[0], base) then [s[0]] + DigitPrefix(s[1..], base) else []
  }

  /** The number a digit string denotes, most significant digit first: zeros alone denote 0,
      and a string led by a non-zero digit denotes a positive number. */
  function DigitsValue(ds: string, base: nat): (r: nat)
    ensures (forall k :: 0 <= k < |ds| ==> ds[k] == '0') ==> r == 0
    ensures ds != [] && 1 <= DigitValue(ds[0]) < base ==> r >= 1
    decreases |ds|
  {
    if ds == [] then 0
    else
      assert |ds| > 1 ==> ds[..|ds| - 1][0] == ds[0];
      DigitsValue(ds[..|ds| - 1], base) * base + (if DigitValue(ds[|ds| - 1]) < base then DigitValue(ds[|ds| - 1]) else 0)
  }

  /** The unsigned part of `parseInt`: a '0x' or '0X' prefix selects base 16, then the longest
      run of digits is read; no digit is NaN (None). The empty string is NaN, and a string led
      by a non-zero decimal digit is a positive number. */
  function ParseUnsigned(u: string): (r: Option<nat>)
    ensures u == [] ==> r.None?
    ensures u != [] && '1' <= u[0] <= '9' ==> r.Some? && r.value >= 1
  {
    var hex := |u| >= 2 && u[0] == '0' && (u[1] == 'x' || u[1] == 'X');
    var base := if hex then 16 else 10;
    var ds := DigitPrefix(if hex then u[2..] else u, base);
    if ds == [] then None else Some(DigitsValue(ds, base))
  }

  /** `parseInt(s)` with no radix: leading white space skipped, an optional sign, then the
      unsigned part. Whatever follows the digits ('2.5', '3abc') is ignored. A blank string
      is NaN, only a leading '-' gives a negative number, and a text led by a non-zero digit
      gives a positive one. */
  function ParseInt(s: string): (r: Option<int>)
    ensures TrimStart(s) == [] ==> r.None?
    ensures r.Some? && r.value < 0 ==> TrimStart(s) != [] && TrimStart(s)[0] == '-'
    ensures TrimStart(s) != [] && '1' <= TrimStart(s)[0] <= '9' ==> r.Some? && r.value >= 1
  {
    var t := TrimStart(s);
    if t != [] && t[0] == '-' then
      match ParseUnsigned(t[1..])
      case None => None
      case Some(v) => var w: int := v; Some(-w)
    else
      var u := if t != [] && t[0] == '+' then t[1..] else t;
      match ParseUnsigned(u)
      case None => None
      case Some(v) => Some(v)
  }

  /** The decimal digits of a natural number, no leading zero. */
  function Digits(n: nat): (r: string)
    ensures |r| >= 1
    ensures forall k :: 0 <= k < |r| ==> '0' <= r[k] <= '9'
  {
    if n < 10 then [('0' as int + n) as char] else Digits(n / 10) + [('0' as int + n % 10) as char]
  }

  /** `String(n)` for an integer: a minus sign exactly for a negative number, then digits. */
  function DecimalString(n: int): (r: string)
    ensures r != []
    ensures n < 0 <==> r[0] == '-'
    ensures forall k :: 1 <= k < |r| ==> '0' <= r[k] <= '9'
  {
    if n < 0 then "-" + Digits(-n) else Digits(n)
  }

  /** The digits of a number read back as that number. */
  lemma {:induction false} DigitsValueOfDigits(n: nat)
    ensures DigitsValue(Digits(n), 10) == n
  {
    var ds := Digits(n);
    if n >= 10 {
      DigitsValueOfDigits(n / 10);
      assert ds[..|ds| - 1] == Digits(n / 10);
    }
  }

  /** A string of decimal digits is its own longest digit prefix. */
  lemma {:induction false} AllDigitsPrefix(ds: string)
    requires forall k :: 0 <= k < |ds| ==> '0' <= ds[k] <= '9'
    ensures DigitPrefix(ds, 10) == ds
  {
    if ds != [] {
      AllDigitsPrefix(ds[1..]);
    }
  }

  /** The digits of a number read back as that number. */
  lemma ParseDigits(m: nat)
    ensures ParseUnsigned(Digits(m)) == Some(m)
  {
    var ds := Digits(m);
    AllDigitsPrefix(ds);
    DigitsValueOfDigits(m);
    assert !(|ds| >= 2 && ds[0] == '0' && (ds[1] == 'x' || ds[1] == 'X'));
  }

  /** A string that starts with no white space is its own TrimStart. */
  lemma NoLeadingSpace(s: string)
    requires s != [] && !IsSpace(s[0])
    ensures TrimStart(s) == s
  {
  }

  /** `parseInt(String(n)) === n` for every integer n: the +/- buttons' numbers come through
      the guard unchanged. */
  lemma ParseDecimalString(n: int)
    ensures ParseInt(DecimalString(n)) == Some(n)
  {
    var s := DecimalString(n);
    var m: nat := if n < 0 then -n else n;
    ParseDigits(m);
    var ds := Digits(m);
    assert '0' <= ds[0] <= '9';
    if n < 0 {
      assert s == "-" + ds;
      assert s[1..] == ds;
    } else {
      assert s == ds;
    }
    NoLeadingSpace(s);
  }

  /** What reaches handleQuantityChange: the text of the quantity field, or the number a
      +/- button computes from the current quantity. */
  datatype QuantityInput = Typed(text: string) | Stepped(n: int)

  /** `parseInt(newQuantity)`: a number is first turned into its decimal string, so a
      stepped number comes through unchanged; a cleared field is NaN. */
  function ParsedQuantity(input: QuantityInput): (r: Option<int>)
    ensures input.Stepped? ==> r == Some(input.n)
    ensures input.Typed? && TrimStart(input.text) == [] ==> r.None?
  {
    match input
    case Typed(text) => ParseInt(text)
    case Stepped(n) => ParseDecimalString(n); ParseInt(DecimalString(n))
  }

  /** The update the guard dispatches: the dish and the parsed quantity. */
  datatype QuantityUpdate = QuantityUpdate(dishId: string, quantity: int)

  /** handleQuantityChange: one update with the dish and the parsed quantity when it is a
      number above 0; nothing for NaN or a quantity of 0 or less. */
  function HandleQuantityChange(dishId: string, input: QuantityInput): (r: Option<QuantityUpdate>)
    ensures r.Some? <==> ParsedQuantity(input).Some? && ParsedQuantity(input).value > 0
    ensures r.Some? ==> r.value == QuantityUpdate(dishId, ParsedQuantity(input).value)
  {
    var q := ParsedQuantity(input);
    if q.Some? && q.value > 0 then Some(QuantityUpdate(dishId, q.value)) else None
  }

  /** Every update the guard lets through asks for at least 1. */
  lemma GuardedQuantityPositive(dishId: string, input: QuantityInput)
    ensures HandleQuantityChange(dishId, input).Some? ==> HandleQuantityChange(dishId, input).value.quantity >= 1
  {
  }

  /** The minus button (quantity - 1) requests exactly quantity - 1 when that is at least 1
      and nothing otherwise, so on a line of 1 it does nothing and never drives a quantity
      below 1; the plus button (quantity + 1) requests quantity + 1 for any quantity of 0 or
      more. */
  lemma StepButtons(dishId: string, quantity: int)
    ensures HandleQuantityChange(dishId, Stepped(quantity - 1))
            == (if quantity >= 2 then Some(QuantityUpdate(dishId, quantity - 1)) else None)
    ensures quantity >= 0 ==> HandleQuantityChange(dishId, Stepped(quantity + 1)) == Some(QuantityUpdate(dishId, quantity + 1))
  {
    ParseDecimalString(quantity - 1);
    ParseDecimalString(quantity + 1);
  }

  /** Typed text that starts with no digit (after white space and a sign) dispatches nothing. */
  lemma NonNumericTextIgnored(dishId: string, text: string)
    requires ParseInt(text).None?
    ensures HandleQuantityChange(dishId, Typed(text)).None?
  {
  }
}
