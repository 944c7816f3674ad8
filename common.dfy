/** Values shared by the feed listener, the notification builder and the commands. */
module Common {

  datatype Option<T> = None | Some(value: T) {
    function GetOr(default: T): T {
      match this
      case Some(v) => v
      case None => default
    }
  }

  /** A stock value as it arrives: a JSON number in a shop snapshot, the empty string for a weather item. */
  datatype Stock = Count(n: int) | Text(s: string)

  /** One announced entry `{name, stock}`. */
  datatype Item = Item(name: string, stock: Stock)

  predicate IsDigit(c: char) { '0' <= c <= '9' }

  function DigitChar(d: nat): (c: char)
    requires d < 10
    ensures IsDigit(c) && (c as int) - ('0' as int) == d
  {
    (('0' as int) + d) as char
  }

  /** Decimal rendering of a natural number, as a template literal prints it. */
  function NatToString(n: nat): string
    decreases n
  {
    if n < 10 then [DigitChar(n)] else NatToString(n / 10) + [DigitChar(n % 10)]
  }

  /** The rendering is a non-empty string of digits with no leading zero. */
  lemma {:induction false} NatToStringDigits(n: nat)
    ensures |NatToString(n)| >= 1
    ensures forall i :: 0 <= i < |NatToString(n)| ==> IsDigit(NatToString(n)[i])
    ensures n >= 10 ==> NatToString(n)[0] != '0'
    decreases n
  {
    if n >= 10 {
      NatToStringDigits(n / 10);
    }
  }

  /** Reads back a string of decimal digits. */
  function ParseNat(s: string): nat
    requires forall i :: 0 <= i < |s| ==> IsDigit(s[i])
  {
    if s == [] then 0
    else
      var last := s[|s| - 1];
      assert IsDigit(last);
      10 * ParseNat(s[..|s| - 1]) + ((last as int) - ('0' as int))
  }

  /** The rendering loses nothing: reading the digits back gives the number. */
  lemma {:induction false} ParseNatToString(n: nat)
    ensures var r := NatToString(n); (forall i :: 0 <= i < |r| ==> IsDigit(r[i])) && ParseNat(r) == n
    decreases n
  {
    var r := NatToString(n);
    NatToStringDigits(n);
    if n >= 10 {
      ParseNatToString(n / 10);
      assert r[..|r| - 1] == NatToString(n / 10);
    }
  }

  /** Decimal rendering of an integer, with a leading minus sign for negative numbers. */
  function IntToString(i: int): string {
    if i < 0 then "-" + NatToString(-i) else NatToString(i)
  }

  /** `${item.stock}`: how a stock value is interpolated into a message. */
  function StockText(s: Stock): string {
    match s
    case Count(n) => IntToString(n)
    case Text(t) => t
  }
}
