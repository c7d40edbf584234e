/** Shared vocabulary of the inventory: product records as the catalogue file holds
    them, Python's list indexing, and the decimal conversions (int(), float(), str())
    the invoice generators apply to the quantity and cost fields. */
module Records {

  datatype Option<T> = None | Some(value: T)

  /** A product record: its text fields in file order
      name, brand, quantity on hand, cost price, origin. */
  type Record = seq<string>

  /** One slot of the in-memory catalogue. The reader puts None in slot 0 so that
      a product id is the position of its record. */
  type Slot = Option<Record>

  const NameField := 0
  const BrandField := 1
  const QuantityField := 2
  const CostField := 3
  const OriginField := 4

  /** The slot that Python's `lst[pid]` reaches in a list of length n:
      non-negative ids count from the front, negative ids from the back,
      anything else raises IndexError (None here). */
  function ResolveIndex(n: nat, pid: int): (k: Option<nat>)
    ensures k.Some? <==> -(n as int) <= pid < n
    ensures k.Some? ==> k.value < n
    ensures k.Some? && 0 <= pid ==> k.value == pid
    ensures k.Some? && pid < 0 ==> k.value == pid + n
  {
    if 0 <= pid < n then Some(pid)
    else if -(n as int) <= pid < 0 then Some(pid + n)
    else None
  }

  predicate IsDigit(c: char) {
    '0' <= c <= '9'
  }

  predicate AllDigits(s: string) {
    forall i :: 0 <= i < |s| ==> IsDigit(s[i])
  }

  function DigitChar(d: nat): (c: char)
    requires d < 10
    ensures IsDigit(c) && c as int - '0' as int == d
  {
    ('0' as int + d) as char
  }

  /** The value of a string of decimal digits, most significant digit first. */
  function DigitsValue(s: string): nat
    requires AllDigits(s)
    decreases |s|
  {
    if s == [] then 0
    else DigitsValue(s[..|s| - 1]) * 10 + (s[|s| - 1] as int - '0' as int)
  }

  /** Decimal rendering of a natural number, as Python's str() gives it. */
  function NatToString(n: nat): (s: string)
    ensures |s| > 0 && AllDigits(s)
    decreases n
  {
    if n < 10 then [DigitChar(n)]
    else NatToString(n / 10) + [DigitChar(n % 10)]
  }

  /** str(n) for an integer: a minus sign before the digits of a negative number. */
  function IntToString(n: int): (s: string)
    ensures |s| > 0
    ensures n < 0 <==> s[0] == '-'
  {
    if n < 0 then "-" + NatToString(-n) else NatToString(n)
  }

  /** int(s): an optional sign followed by at least one decimal digit;
      every other string raises ValueError (None here). */
  function ParseInt(s: string): (r: Option<int>)
    ensures r.Some? ==> |s| > 0
    ensures AllDigits(s) && |s| > 0 ==> r == Some(DigitsValue(s))
  {
    if |s| > 0 && (s[0] == '-' || s[0] == '+') then
      var digits := s[1..];
      if |digits| > 0 && AllDigits(digits) then
        Some(if s[0] == '-' then 0 - DigitsValue(digits) else DigitsValue(digits))
      else None
    else if |s| > 0 && AllDigits(s) then Some(DigitsValue(s))
    else None
  }

  /** The strings int() accepts: digits, or a sign followed by digits; a
      leading '-' negates the value and a leading '+' is ignored. */
  lemma {:induction false} ParseIntAccepts(s: string)
    ensures ParseInt(s).Some? <==> (|s| > 0 && AllDigits(s)) || (|s| > 1 && (s[0] == '-' || s[0] == '+') && AllDigits(s[1..]))
    ensures |s| > 1 && s[0] == '-' && AllDigits(s[1..]) ==> ParseInt(s) == Some(0 - DigitsValue(s[1..]))
    ensures |s| > 1 && s[0] == '+' && AllDigits(s[1..]) ==> ParseInt(s) == Some(DigitsValue(s[1..]))
  {
  }

  /** str(n) is the decimal digits of n, after a '-' when n is negative. */
  lemma {:induction false} IntToStringForm(n: int)
    ensures 0 <= n ==> AllDigits(IntToString(n)) && DigitsValue(IntToString(n)) == n
    ensures n < 0 ==> |IntToString(n)| >= 2 && AllDigits(IntToString(n)[1..]) && DigitsValue(IntToString(n)[1..]) == -n
  {
    if n < 0 {
      assert IntToString(n)[1..] == NatToString(-n);
      DigitsValueOfNatToString(-n);
    } else {
      DigitsValueOfNatToString(n);
    }
  }

  lemma {:induction false} DigitsValueOfNatToString(n: nat)
    ensures DigitsValue(NatToString(n)) == n
    decreases n
  {
    if n >= 10 {
      var s := NatToString(n);
      var prefix := NatToString(n / 10);
      assert s == prefix + [DigitChar(n % 10)];
      assert s[..|s| - 1] == prefix;
      DigitsValueOfNatToString(n / 10);
    }
  }

  /** Reading back a number that str() wrote gives the number: the stock and cost
      fields the invoice generators rewrite parse to the values they stored. */
  lemma {:induction false} ParseIntOfIntToString(n: int)
    ensures ParseInt(IntToString(n)) == Some(n)
  {
    if n < 0 {
      var s := IntToString(n);
      assert s[1..] == NatToString(-n);
      DigitsValueOfNatToString(-n);
    } else {
      DigitsValueOfNatToString(n);
    }
  }
}
