/** The pricing rules the sale invoice and the inventory display share: a fixed
    markup over cost, the "buy 3 get 1 free" promotion, and the optional shipping
    surcharge chosen by the customer's answer. */
module Pricing {

  /** Selling price is three times cost (a 200% markup). */
  const Markup := 3

  const ShippingSurcharge := 500

  /** The profit over cost is twice the cost, and the cost is recovered from
      the price by dividing by the markup. */
  function SellingPrice(cost: int): (price: int)
    ensures price - cost == 2 * cost
    ensures price % Markup == 0 && price / Markup == cost
  {
    cost * Markup
  }

  /** One free unit per three purchased: `qty // 3`. Dafny's `/` by a positive
      divisor floors like Python's `//`, also for negative quantities. */
  function FreeItems(qty: int): (free: int)
    ensures 3 * free <= qty < 3 * free + 3
    ensures 0 <= qty ==> 0 <= free <= qty
  {
    qty / 3
  }

  /** Units a sale line takes from stock: the paid ones and the free ones. */
  function UnitsTaken(qty: int): int {
    qty + FreeItems(qty)
  }

  lemma {:induction false} FreeItemsExamples()
    ensures FreeItems(0) == 0 && FreeItems(2) == 0 && FreeItems(3) == 1 && FreeItems(8) == 2 && FreeItems(9) == 3
  {
  }

  /** Upper-casing of one character; only ASCII letters are mapped. */
  function UpperChar(c: char): char {
    if 'a' <= c <= 'z' then (c as int - 32) as char else c
  }

  /** str.upper(), character by character. */
  function Upper(s: string): (u: string)
    ensures |u| == |s|
    ensures forall i :: 0 <= i < |s| ==> u[i] == UpperChar(s[i])
    decreases |s|
  {
    if s == [] then [] else [UpperChar(s[0])] + Upper(s[1..])
  }

  /** Shipping is charged when the answer upper-cases to "Y": exactly the answers
      "Y" and "y", so "yes" or " y" add nothing. */
  function ShippingCost(answer: string): (cost: int)
    ensures cost == if answer == "Y" || answer == "y" then ShippingSurcharge else 0
  {
    var upper := Upper(answer);
    if upper == "Y" then ShippingSurcharge else 0
  }
}
