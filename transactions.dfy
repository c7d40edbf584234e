/** What the line-item loops of generate_sale_invoice and generate_restock_invoice
    (write.py) do to the catalogue, stated as functions on values: one step per
    line item, applied in input order, stopping at the first line that raises.
    A stopped run keeps every change the earlier lines made: there is no rollback. */
module Transactions {
  import opened Records
  import opened Pricing

  /** A sale line item: {"id": id, "quantity": quantity}. */
  datatype SaleItem = SaleItem(id: int, quantity: int)

  /** A restock line item: {"id": id, "quantity": quantity} with an optional "new_cost". */
  datatype RestockItem = RestockItem(id: int, quantity: int, newCost: Option<int>)

  /** One row of a sale invoice: product, brand, quantity, free units, unit price, amount. */
  datatype SaleLine = SaleLine(name: string, brand: string, quantity: int, free: int, price: int, amount: int)

  /** One row of a restock invoice: product, brand, quantity, cost price, amount. */
  datatype RestockLine = RestockLine(name: string, brand: string, quantity: int, cost: int, amount: int)

  /** The catalogue after one line item, and the invoice row it produced. */
  datatype Step<L> = Step(slots: seq<Slot>, line: L)

  /** The catalogue after a run of line items, the rows produced before the run
      ended, their running total, and whether every line succeeded. */
  datatype Run<L> = Run(slots: seq<Slot>, lines: seq<L>, total: int, ok: bool)

  /** Python's `if new_cost:` — absent and 0 are false. */
  function Truthy(newCost: Option<int>): (t: bool)
    ensures t <==> newCost !in {None, Some(0)}
  {
    newCost.Some? && newCost.value != 0
  }

  /** Rows and total already accumulated, followed by a run of the remaining items. */
  function Extend<L>(lines: seq<L>, total: int, run: Run<L>): Run<L> {
    Run(run.slots, lines + run.lines, total + run.total, run.ok)
  }

  lemma {:induction false} ExtendTwice<L>(l1: seq<L>, t1: int, l2: seq<L>, t2: int, run: Run<L>)
    ensures Extend(l1, t1, Extend(l2, t2, run)) == Extend(l1 + l2, t1 + t2, run)
  {
    assert l1 + (l2 + run.lines) == (l1 + l2) + run.lines;
  }

  /** The sale loop body for one item, or None where Python raises: an id outside
      the list, a None slot, a record without a cost field, or a quantity or cost
      that int()/float() rejects. */
  function SaleStep(catalogue: seq<Slot>, item: SaleItem): (r: Option<Step<SaleLine>>)
    ensures r.Some? ==> |r.value.slots| == |catalogue|
    ensures ResolveIndex(|catalogue|, item.id).None? ==> r.None?
  {
    var k := ResolveIndex(|catalogue|, item.id);
    if k.None? || catalogue[k.value].None? then None
    else
      var product := catalogue[k.value].value;
      if |product| < 4 then None
      else
        var stock := ParseInt(product[QuantityField]);
        var cost := ParseInt(product[CostField]);
        if stock.None? || cost.None? then None
        else
          var free := FreeItems(item.quantity);
          var price := SellingPrice(cost.value);
          var line := SaleLine(product[NameField], product[BrandField], item.quantity, free, price, price * item.quantity);
          var updated := product[QuantityField := IntToString(stock.value - (item.quantity + free))];
          Some(Step(catalogue[k.value := Some(updated)], line))
  }

  /** The sale loop over all items, from the first. */
  function SaleRun(catalogue: seq<Slot>, items: seq<SaleItem>): (r: Run<SaleLine>)
    ensures |r.slots| == |catalogue|
    ensures |r.lines| <= |items|
    ensures r.ok ==> |r.lines| == |items|
    decreases |items|
  {
    if items == [] then Run(catalogue, [], 0, true)
    else match SaleStep(catalogue, items[0])
      case None => Run(catalogue, [], 0, false)
      case Some(st) =>
        var rest := SaleRun(st.slots, items[1..]);
        Extend([st.line], st.line.amount, rest)
  }

  /** The restock loop body for one item, or None where Python raises. A truthy
      new cost overwrites the cost field before the amount is computed. */
  function RestockStep(catalogue: seq<Slot>, item: RestockItem): (r: Option<Step<RestockLine>>)
    ensures r.Some? ==> |r.value.slots| == |catalogue|
    ensures ResolveIndex(|catalogue|, item.id).None? ==> r.None?
  {
    var k := ResolveIndex(|catalogue|, item.id);
    if k.None? || catalogue[k.value].None? then None
    else
      var product := catalogue[k.value].value;
      if |product| < 4 then None
      else
        var stock := ParseInt(product[QuantityField]);
        if stock.None? then None
        else
          var revised := if Truthy(item.newCost) then product[CostField := IntToString(item.newCost.value)] else product;
          var cost := ParseInt(revised[CostField]);
          if cost.None? then None
          else
            var line := RestockLine(product[NameField], product[BrandField], item.quantity, cost.value, cost.value * item.quantity);
            var updated := revised[QuantityField := IntToString(stock.value + item.quantity)];
            Some(Step(catalogue[k.value := Some(updated)], line))
  }

  /** The restock loop over all items, from the first. */
  function RestockRun(catalogue: seq<Slot>, items: seq<RestockItem>): (r: Run<RestockLine>)
    ensures |r.slots| == |catalogue|
    ensures |r.lines| <= |items|
    ensures r.ok ==> |r.lines| == |items|
    decreases |items|
  {
    if items == [] then Run(catalogue, [], 0, true)
    else match RestockStep(catalogue, items[0])
      case None => Run(catalogue, [], 0, false)
      case Some(st) =>
        var rest := RestockRun(st.slots, items[1..]);
        Extend([st.line], st.line.amount, rest)
  }

  // ---------------------------------------------------------------------------
  // One sale line

  /** A sale line charges three times cost for every purchased unit (the free
      units are not charged), gives qty // 3 free units, and lowers the stock of
      the product it names by the paid plus the free units, with no check that
      the stock stays non-negative. No other slot and no other field changes. */
  lemma {:induction false} SaleStepEffect(catalogue: seq<Slot>, item: SaleItem)
    requires SaleStep(catalogue, item).Some?
    ensures var k := ResolveIndex(|catalogue|, item.id);
            var st := SaleStep(catalogue, item).value;
            k.Some? && catalogue[k.value].Some? && st.slots[k.value].Some? &&
            var before := catalogue[k.value].value;
            var after := st.slots[k.value].value;
            |before| >= 4 && |after| == |before| &&
            ParseInt(before[QuantityField]).Some? && ParseInt(before[CostField]).Some? &&
            var cost := ParseInt(before[CostField]).value;
            ParseInt(after[QuantityField]) == Some(ParseInt(before[QuantityField]).value - (item.quantity + item.quantity / 3)) &&
            (forall f :: 0 <= f < |before| && f != QuantityField ==> after[f] == before[f]) &&
            (forall j :: 0 <= j < |catalogue| && j != k.value ==> st.slots[j] == catalogue[j]) &&
            st.line.name == before[NameField] && st.line.brand == before[BrandField] &&
            st.line.quantity == item.quantity && st.line.free == item.quantity / 3 &&
            st.line.price == 3 * cost && st.line.amount == 3 * cost * item.quantity
  {
    var k := ResolveIndex(|catalogue|, item.id).value;
    var before := catalogue[k].value;
    var stock := ParseInt(before[QuantityField]).value;
    ParseIntOfIntToString(stock - (item.quantity + FreeItems(item.quantity)));
  }

  /** Stock can go negative: selling three units of a product with none in stock
      succeeds and leaves -4 (three sold, one free). */
  lemma {:induction false} SaleAllowsNegativeStock()
    ensures var catalogue := [None, Some(["Serum", "Garnier", "0", "10", "France"])];
            var st := SaleStep(catalogue, SaleItem(1, 3));
            st.Some? && ParseInt(st.value.slots[1].value[QuantityField]) == Some(-4) && st.value.line.amount == 90
  {
    var catalogue := [None, Some(["Serum", "Garnier", "0", "10", "France"])];
    SaleStepEffect(catalogue, SaleItem(1, 3));
  }

  // ---------------------------------------------------------------------------
  // One restock line

  /** A restock line with a truthy new cost writes that cost into the record
      before computing the amount; otherwise the cost field is kept. The amount
      is the resulting cost times the quantity, the stock rises by the quantity,
      and no other slot and no other field changes. */
  lemma {:induction false} RestockStepEffect(catalogue: seq<Slot>, item: RestockItem)
    requires RestockStep(catalogue, item).Some?
    ensures var k := ResolveIndex(|catalogue|, item.id);
            var st := RestockStep(catalogue, item).value;
            k.Some? && catalogue[k.value].Some? && st.slots[k.value].Some? &&
            var before := catalogue[k.value].value;
            var after := st.slots[k.value].value;
            |before| >= 4 && |after| == |before| &&
            ParseInt(before[QuantityField]).Some? &&
            ParseInt(after[QuantityField]) == Some(ParseInt(before[QuantityField]).value + item.quantity) &&
            (Truthy(item.newCost) ==> after[CostField] == IntToString(item.newCost.value) && st.line.cost == item.newCost.value) &&
            (!Truthy(item.newCost) ==> after[CostField] == before[CostField] && ParseInt(before[CostField]) == Some(st.line.cost)) &&
            (forall f :: 0 <= f < |before| && f != QuantityField && f != CostField ==> after[f] == before[f]) &&
            (forall j :: 0 <= j < |catalogue| && j != k.value ==> st.slots[j] == catalogue[j]) &&
            st.line.name == before[NameField] && st.line.brand == before[BrandField] &&
            st.line.quantity == item.quantity && st.line.amount == st.line.cost * item.quantity
  {
    var k := ResolveIndex(|catalogue|, item.id).value;
    var before := catalogue[k].value;
    var stock := ParseInt(before[QuantityField]).value;
    ParseIntOfIntToString(stock + item.quantity);
    if Truthy(item.newCost) {
      ParseIntOfIntToString(item.newCost.value);
    }
  }

  /** A restock line can only fail on the record it names, never after a
      truthy new cost has been written: with a truthy new cost, a record with a
      numeric quantity field and a cost field is always restocked. */
  lemma {:induction false} RestockWithNewCostSucceeds(catalogue: seq<Slot>, item: RestockItem)
    requires Truthy(item.newCost)
    requires ResolveIndex(|catalogue|, item.id).Some?
    requires var k := ResolveIndex(|catalogue|, item.id).value;
             catalogue[k].Some? && |catalogue[k].value| >= 4 && ParseInt(catalogue[k].value[QuantityField]).Some?
    ensures RestockStep(catalogue, item).Some?
  {
    ParseIntOfIntToString(item.newCost.value);
  }

  // ---------------------------------------------------------------------------
  // Runs: order, accumulation, no rollback

  /** The sum of the amounts of some invoice rows. */
  function SumAmounts<L>(lines: seq<L>, amount: L -> int): int
    decreases |lines|
  {
    if lines == [] then 0 else amount(lines[0]) + SumAmounts(lines[1..], amount)
  }

  function SaleAmount(line: SaleLine): int { line.amount }

  function RestockAmount(line: RestockLine): int { line.amount }

  /** The rows of a sale run follow the items in order, one per item that was
      processed, with qty // 3 free units and amount = unit price * quantity;
      the total is the sum of their amounts. */
  lemma {:induction false} SaleRunLines(catalogue: seq<Slot>, items: seq<SaleItem>)
    ensures var run := SaleRun(catalogue, items);
            run.total == SumAmounts(run.lines, SaleAmount) &&
            forall j :: 0 <= j < |run.lines| ==>
              run.lines[j].quantity == items[j].quantity &&
              run.lines[j].free == FreeItems(items[j].quantity) &&
              run.lines[j].amount == run.lines[j].price * items[j].quantity
    decreases |items|
  {
    if items != [] {
      match SaleStep(catalogue, items[0])
      case None =>
      case Some(st) =>
        SaleRunLines(st.slots, items[1..]);
        var rest := SaleRun(st.slots, items[1..]);
        assert SaleRun(catalogue, items).lines == [st.line] + rest.lines;
        assert ([st.line] + rest.lines)[1..] == rest.lines;
    }
  }

  /** The rows of a restock run follow the items in order, each with
      amount = cost * quantity; the total is the sum of their amounts. */
  lemma {:induction false} RestockRunLines(catalogue: seq<Slot>, items: seq<RestockItem>)
    ensures var run := RestockRun(catalogue, items);
            run.total == SumAmounts(run.lines, RestockAmount) &&
            forall j :: 0 <= j < |run.lines| ==>
              run.lines[j].quantity == items[j].quantity &&
              run.lines[j].amount == run.lines[j].cost * items[j].quantity
    decreases |items|
  {
    if items != [] {
      match RestockStep(catalogue, items[0])
      case None =>
      case Some(st) =>
        RestockRunLines(st.slots, items[1..]);
        var rest := RestockRun(st.slots, items[1..]);
        assert RestockRun(catalogue, items).lines == [st.line] + rest.lines;
        assert ([st.line] + rest.lines)[1..] == rest.lines;
    }
  }

  /** Running items `a` and then items `b` is running `a + b`; if `a` already
      failed, `b` is never looked at. */
  lemma {:induction false} SaleRunAppend(catalogue: seq<Slot>, a: seq<SaleItem>, b: seq<SaleItem>)
    ensures var ra := SaleRun(catalogue, a);
            SaleRun(catalogue, a + b) == if ra.ok then Extend(ra.lines, ra.total, SaleRun(ra.slots, b)) else ra
    decreases |a|
  {
    if a == [] {
      assert a + b == b;
    } else {
      assert (a + b)[0] == a[0];
      assert (a + b)[1..] == a[1..] + b;
      var step := SaleStep(catalogue, a[0]);
      if step.Some? {
        var st := step.value;
        SaleRunAppend(st.slots, a[1..], b);
        var rest := SaleRun(st.slots, a[1..]);
        assert SaleRun(catalogue, a) == Extend([st.line], st.line.amount, rest);
        assert SaleRun(catalogue, a + b) == Extend([st.line], st.line.amount, SaleRun(st.slots, a[1..] + b));
        ExtendTwice([st.line], st.line.amount, rest.lines, rest.total, SaleRun(rest.slots, b));
      }
    }
  }

  lemma {:induction false} RestockRunAppend(catalogue: seq<Slot>, a: seq<RestockItem>, b: seq<RestockItem>)
    ensures var ra := RestockRun(catalogue, a);
            RestockRun(catalogue, a + b) == if ra.ok then Extend(ra.lines, ra.total, RestockRun(ra.slots, b)) else ra
    decreases |a|
  {
    if a == [] {
      assert a + b == b;
    } else {
      assert (a + b)[0] == a[0];
      assert (a + b)[1..] == a[1..] + b;
      var step := RestockStep(catalogue, a[0]);
      if step.Some? {
        var st := step.value;
        RestockRunAppend(st.slots, a[1..], b);
        var rest := RestockRun(st.slots, a[1..]);
        assert RestockRun(catalogue, a) == Extend([st.line], st.line.amount, rest);
        assert RestockRun(catalogue, a + b) == Extend([st.line], st.line.amount, RestockRun(st.slots, a[1..] + b));
        ExtendTwice([st.line], st.line.amount, rest.lines, rest.total, RestockRun(rest.slots, b));
      }
    }
  }

  /** No rollback: when the lines `before` succeed and the next line names an
      id outside the catalogue, the sale fails, the catalogue keeps exactly the
      changes of `before`, and no later line is applied. */
  lemma {:induction false} SaleUnresolvedIdKeepsEarlierChanges(catalogue: seq<Slot>, before: seq<SaleItem>, bad: SaleItem, after: seq<SaleItem>)
    requires SaleRun(catalogue, before).ok
    requires ResolveIndex(|catalogue|, bad.id).None?
    ensures var run := SaleRun(catalogue, before + [bad] + after);
            !run.ok && run.slots == SaleRun(catalogue, before).slots
  {
    var rb := SaleRun(catalogue, before);
    var tail := [bad] + after;
    assert before + [bad] + after == before + tail;
    SaleRunAppend(catalogue, before, tail);
    assert tail[0] == bad;
    assert SaleStep(rb.slots, bad).None?;
    assert SaleRun(rb.slots, tail) == Run(rb.slots, [], 0, false);
  }

  lemma {:induction false} RestockUnresolvedIdKeepsEarlierChanges(catalogue: seq<Slot>, before: seq<RestockItem>, bad: RestockItem, after: seq<RestockItem>)
    requires RestockRun(catalogue, before).ok
    requires ResolveIndex(|catalogue|, bad.id).None?
    ensures var run := RestockRun(catalogue, before + [bad] + after);
            !run.ok && run.slots == RestockRun(catalogue, before).slots
  {
    var rb := RestockRun(catalogue, before);
    var tail := [bad] + after;
    assert before + [bad] + after == before + tail;
    RestockRunAppend(catalogue, before, tail);
    assert tail[0] == bad;
    assert RestockStep(rb.slots, bad).None?;
    assert RestockRun(rb.slots, tail) == Run(rb.slots, [], 0, false);
  }

  /** A failed run ends at a line that raised, and the catalogue it leaves is
      the one the lines before that line produced. */
  lemma {:induction false} SaleFailureKeepsPrefix(catalogue: seq<Slot>, items: seq<SaleItem>)
    requires !SaleRun(catalogue, items).ok
    ensures exists j :: 0 <= j < |items| && SaleRun(catalogue, items[..j]).ok &&
                        SaleStep(SaleRun(catalogue, items[..j]).slots, items[j]).None? &&
                        SaleRun(catalogue, items).slots == SaleRun(catalogue, items[..j]).slots
    decreases |items|
  {
    assert items != [];
    match SaleStep(catalogue, items[0])
    case None =>
      assert items[..0] == [];
    case Some(st) =>
      SaleFailureKeepsPrefix(st.slots, items[1..]);
      var j :| 0 <= j < |items[1..]| && SaleRun(st.slots, items[1..][..j]).ok &&
               SaleStep(SaleRun(st.slots, items[1..][..j]).slots, items[1..][j]).None? &&
               SaleRun(st.slots, items[1..]).slots == SaleRun(st.slots, items[1..][..j]).slots;
      var p := items[..j + 1];
      assert p[0] == items[0] && p[1..] == items[1..][..j];
      assert SaleRun(catalogue, p) == Extend([st.line], st.line.amount, SaleRun(st.slots, items[1..][..j]));
  }

  /** A failed restock ends at a line that raised (an unresolved id, a None or
      short record, a stock or cost field that does not parse), and the
      catalogue it leaves is the one the lines before that line produced. */
  lemma {:induction false} RestockFailureKeepsPrefix(catalogue: seq<Slot>, items: seq<RestockItem>)
    requires !RestockRun(catalogue, items).ok
    ensures exists j :: 0 <= j < |items| && RestockRun(catalogue, items[..j]).ok &&
                        RestockStep(RestockRun(catalogue, items[..j]).slots, items[j]).None? &&
                        RestockRun(catalogue, items).slots == RestockRun(catalogue, items[..j]).slots
    decreases |items|
  {
    assert items != [];
    match RestockStep(catalogue, items[0])
    case None =>
      assert items[..0] == [];
    case Some(st) =>
      RestockFailureKeepsPrefix(st.slots, items[1..]);
      var j :| 0 <= j < |items[1..]| && RestockRun(st.slots, items[1..][..j]).ok &&
               RestockStep(RestockRun(st.slots, items[1..][..j]).slots, items[1..][j]).None? &&
               RestockRun(st.slots, items[1..]).slots == RestockRun(st.slots, items[1..][..j]).slots;
      var p := items[..j + 1];
      assert p[0] == items[0] && p[1..] == items[1..][..j];
      assert RestockRun(catalogue, p) == Extend([st.line], st.line.amount, RestockRun(st.slots, items[1..][..j]));
  }

  // ---------------------------------------------------------------------------
  // Cumulative effect on one slot

  /** Whether some item names slot k of a catalogue of n slots. */
  predicate Touches(n: nat, ids: seq<int>, k: nat)
    decreases |ids|
  {
    ids != [] && (ResolveIndex(n, ids[0]) == Some(k) || Touches(n, ids[1..], k))
  }

  /** The ids of some line items, in order. */
  function Ids<T>(items: seq<T>, id: T -> int): (ids: seq<int>)
    ensures |ids| == |items| && forall j :: 0 <= j < |items| ==> ids[j] == id(items[j])
    decreases |items|
  {
    if items == [] then [] else [id(items[0])] + Ids(items[1..], id)
  }

  function SaleId(item: SaleItem): int { item.id }

  function RestockId(item: RestockItem): int { item.id }

  /** Units a sale takes from slot k: paid plus free units of every item naming it. */
  function SaleDemand(n: nat, items: seq<SaleItem>, k: nat): int
    decreases |items|
  {
    if items == [] then 0
    else (if ResolveIndex(n, items[0].id) == Some(k) then UnitsTaken(items[0].quantity) else 0)
         + SaleDemand(n, items[1..], k)
  }

  /** Units a restock adds to slot k. */
  function RestockSupply(n: nat, items: seq<RestockItem>, k: nat): int
    decreases |items|
  {
    if items == [] then 0
    else (if ResolveIndex(n, items[0].id) == Some(k) then items[0].quantity else 0)
         + RestockSupply(n, items[1..], k)
  }

  /** The cost field of slot k after the restock items, starting from `current`:
      the last truthy new cost among the items naming k, else `current`. */
  function LastCost(n: nat, items: seq<RestockItem>, k: nat, current: string): string
    decreases |items|
  {
    if items == [] then current
    else
      var next := if ResolveIndex(n, items[0].id) == Some(k) && Truthy(items[0].newCost)
                  then IntToString(items[0].newCost.value) else current;
      LastCost(n, items[1..], k, next)
  }

  /** A slot whose stock field a sale or a restock can move: it holds a record
      with a stock field that parses as an integer. */
  predicate Movable(s: Slot) {
    s.Some? && |s.value| >= 4 && ParseInt(s.value[QuantityField]).Some?
  }

  /** Slot s with its stock field moved by delta (a sale moves it down, a
      restock up) and every other field as it was. */
  function MoveStock(s: Slot, delta: int): (r: Slot)
    requires Movable(s)
    ensures r.Some? && |r.value| == |s.value|
    ensures forall j :: 0 <= j < |s.value| && j != QuantityField ==> r.value[j] == s.value[j]
    ensures ParseInt(r.value[QuantityField]) == Some(ParseInt(s.value[QuantityField]).value + delta)
  {
    var v := ParseInt(s.value[QuantityField]).value;
    ParseIntOfIntToString(v + delta);
    Some(s.value[QuantityField := IntToString(v + delta)])
  }

  /** Slot s1 is slot s0 with its stock field moved by delta. */
  predicate StockMoved(s0: Slot, s1: Slot, delta: int) {
    Movable(s0) && s1 == MoveStock(s0, delta)
  }

  /** Slot s1 is slot s0 with its stock field raised by delta and its cost field
      set to cost; every other field is as it was. */
  predicate Restocked(s0: Slot, s1: Slot, delta: int, cost: string) {
    Movable(s0) && s1 == Some(MoveStock(s0, delta).value[CostField := cost])
  }

  /** One sale step seen from slot k: the slot it names loses the paid and free
      units, every other slot is left as it was. */
  lemma {:induction false} SaleStepAt(catalogue: seq<Slot>, item: SaleItem, k: nat, st: Step<SaleLine>)
    requires SaleStep(catalogue, item) == Some(st)
    requires k < |catalogue|
    ensures if ResolveIndex(|catalogue|, item.id) == Some(k)
            then StockMoved(catalogue[k], st.slots[k], -UnitsTaken(item.quantity))
            else st.slots[k] == catalogue[k]
  {
  }

  lemma {:induction false} TouchesSaleCons(n: nat, items: seq<SaleItem>, k: nat)
    requires items != []
    ensures Touches(n, Ids(items, SaleId), k) <==> ResolveIndex(n, items[0].id) == Some(k) || Touches(n, Ids(items[1..], SaleId), k)
  {
    assert Ids(items, SaleId)[1..] == Ids(items[1..], SaleId);
  }

  /** The first step of a sale run that succeeded, and the run it leaves. */
  lemma {:induction false} SaleRunHead(catalogue: seq<Slot>, items: seq<SaleItem>) returns (st: Step<SaleLine>)
    requires items != [] && SaleRun(catalogue, items).ok
    ensures SaleStep(catalogue, items[0]) == Some(st)
    ensures |st.slots| == |catalogue|
    ensures SaleRun(catalogue, items).slots == SaleRun(st.slots, items[1..]).slots
    ensures SaleRun(st.slots, items[1..]).ok
  {
    st := SaleStep(catalogue, items[0]).value;
  }

  /** Two successive moves of one slot's stock compose into one move by their sum. */
  lemma {:induction false} StockChain(s0: Slot, s1: Slot, s2: Slot, d: int, e: int, total: int)
    requires StockMoved(s0, s1, d) && StockMoved(s1, s2, e)
    requires total == d + e
    ensures StockMoved(s0, s2, total)
  {
    var r := s0.value;
    var v := ParseInt(r[QuantityField]).value;
    ParseIntOfIntToString(v + d);
    var x := IntToString(v + total);
    assert s1.value[QuantityField := x] == r[QuantityField := x];
  }

  lemma {:induction false} SaleDemandZero(n: nat, items: seq<SaleItem>, k: nat)
    ensures !Touches(n, Ids(items, SaleId), k) ==> SaleDemand(n, items, k) == 0
    decreases |items|
  {
    if items != [] {
      assert Ids(items, SaleId)[1..] == Ids(items[1..], SaleId);
      SaleDemandZero(n, items[1..], k);
    }
  }

  lemma {:induction false} SaleDemandCons(n: nat, items: seq<SaleItem>, k: nat)
    requires items != []
    ensures SaleDemand(n, items, k) ==
            (if ResolveIndex(n, items[0].id) == Some(k) then UnitsTaken(items[0].quantity) else 0) + SaleDemand(n, items[1..], k)
  {
  }

  /** Slot-level step of a chain: s0 to s1 by the first item (which names the
      slot when hit, taking d), s1 to s2 by the rest (which name it when
      later, taking e). */
  lemma {:induction false} StockCons(s0: Slot, s1: Slot, s2: Slot, hit: bool, d: int, later: bool, e: int, total: int)
    requires if hit then StockMoved(s0, s1, -d) else s1 == s0
    requires if later then StockMoved(s1, s2, -e) else s2 == s1
    requires !later ==> e == 0
    requires total == (if hit then d else 0) + e
    ensures if hit || later then StockMoved(s0, s2, -total) else s2 == s0
  {
    if hit && later {
      StockChain(s0, s1, s2, -d, -e, -total);
    }
  }

  /** What one sale item does to slot k (of a catalogue of n slots): s1 is s0
      less the item's paid and free units when the item names slot k, and s0
      itself otherwise. */
  predicate SaleMovesSlot(n: nat, item: SaleItem, k: nat, s0: Slot, s1: Slot) {
    if ResolveIndex(n, item.id) == Some(k) then StockMoved(s0, s1, -UnitsTaken(item.quantity)) else s1 == s0
  }

  /** The catalogues a sale passes through: before each item, then after the
      last one that succeeds. */
  function SaleStates(catalogue: seq<Slot>, items: seq<SaleItem>): (states: seq<seq<Slot>>)
    ensures 1 <= |states| <= |items| + 1 && states[0] == catalogue
    ensures forall i :: 0 <= i < |states| ==> |states[i]| == |catalogue|
    decreases |items|
  {
    if items == [] then [catalogue]
    else match SaleStep(catalogue, items[0])
      case None => [catalogue]
      case Some(st) => [catalogue] + SaleStates(st.slots, items[1..])
  }

  /** In a successful sale, SaleStates holds a catalogue for every item and
      one more, and the last one is the sale's result. */
  lemma {:induction false} SaleStatesLast(catalogue: seq<Slot>, items: seq<SaleItem>)
    requires SaleRun(catalogue, items).ok
    ensures var states := SaleStates(catalogue, items);
            |states| == |items| + 1 && states[|items|] == SaleRun(catalogue, items).slots
    decreases |items|
  {
    if items != [] {
      var st := SaleRunHead(catalogue, items);
      SaleStatesLast(st.slots, items[1..]);
    }
  }

  /** In a successful sale, item i takes catalogue i of SaleStates to catalogue i + 1. */
  lemma {:induction false} SaleStatesStep(catalogue: seq<Slot>, items: seq<SaleItem>, i: nat)
    requires SaleRun(catalogue, items).ok
    requires i < |items|
    ensures var states := SaleStates(catalogue, items);
            i + 1 < |states| && SaleStep(states[i], items[i]).Some? && SaleStep(states[i], items[i]).value.slots == states[i + 1]
    decreases i
  {
    var st := SaleRunHead(catalogue, items);
    var states := SaleStates(catalogue, items);
    var later := SaleStates(st.slots, items[1..]);
    assert states == [catalogue] + later;
    if i == 0 {
      SaleStatesLast(st.slots, items[1..]);
    } else {
      SaleStatesStep(st.slots, items[1..], i - 1);
      assert items[i] == items[1..][i - 1];
    }
  }

  /** The cumulative effect on slot k of items applied one after another to
      the catalogues in states, each taking one catalogue to the next. */
  lemma {:induction false} SaleChain(n: nat, items: seq<SaleItem>, k: nat, states: seq<seq<Slot>>)
    requires |states| == |items| + 1
    requires forall i :: 0 <= i < |states| ==> k < |states[i]|
    requires forall i :: 0 <= i < |items| ==> SaleMovesSlot(n, items[i], k, states[i][k], states[i + 1][k])
    ensures if Touches(n, Ids(items, SaleId), k)
            then StockMoved(states[0][k], states[|items|][k], -SaleDemand(n, items, k))
            else states[|items|][k] == states[0][k]
    decreases |items|
  {
    if items != [] {
      var later := states[1..];
      forall i | 0 <= i < |items| - 1
        ensures SaleMovesSlot(n, items[1..][i], k, later[i][k], later[i + 1][k])
      {
        assert SaleMovesSlot(n, items[i + 1], k, states[i + 1][k], states[i + 2][k]);
      }
      SaleChain(n, items[1..], k, later);
      assert SaleMovesSlot(n, items[0], k, states[0][k], states[1][k]);
      SaleStockCons(n, items, k, states[0][k], states[1][k], later[|items| - 1][k]);
    }
  }

  /** One step of SaleChain: s0, s1 and s2 are slot k before the items, after
      the first one and after all of them. */
  lemma {:induction false} SaleStockCons(n: nat, items: seq<SaleItem>, k: nat, s0: Slot, s1: Slot, s2: Slot)
    requires items != []
    requires SaleMovesSlot(n, items[0], k, s0, s1)
    requires if Touches(n, Ids(items[1..], SaleId), k)
             then StockMoved(s1, s2, -SaleDemand(n, items[1..], k))
             else s2 == s1
    ensures if Touches(n, Ids(items, SaleId), k)
            then StockMoved(s0, s2, -SaleDemand(n, items, k))
            else s2 == s0
  {
    TouchesSaleCons(n, items, k);
    SaleDemandCons(n, items, k);
    SaleDemandZero(n, items[1..], k);
    StockCons(s0, s1, s2, ResolveIndex(n, items[0].id) == Some(k), UnitsTaken(items[0].quantity),
              Touches(n, Ids(items[1..], SaleId), k), SaleDemand(n, items[1..], k), SaleDemand(n, items, k));
  }

  /** In a successful sale, each item does to slot k what SaleMovesSlot says. */
  lemma {:induction false} SaleStatesMove(catalogue: seq<Slot>, items: seq<SaleItem>, k: nat)
    requires SaleRun(catalogue, items).ok
    requires k < |catalogue|
    ensures var states := SaleStates(catalogue, items);
            |states| == |items| + 1 &&
            forall i :: 0 <= i < |items| ==> SaleMovesSlot(|catalogue|, items[i], k, states[i][k], states[i + 1][k])
  {
    var states := SaleStates(catalogue, items);
    SaleStatesLast(catalogue, items);
    forall i | 0 <= i < |items|
      ensures SaleMovesSlot(|catalogue|, items[i], k, states[i][k], states[i + 1][k])
    {
      SaleStatesStep(catalogue, items, i);
      SaleStepAt(states[i], items[i], k, SaleStep(states[i], items[i]).value);
    }
  }

  /** In a successful sale, slot k of the last catalogue SaleStates passes
      through is slot k of the first moved by what the items name it for. */
  lemma {:induction false} SaleStatesChain(catalogue: seq<Slot>, items: seq<SaleItem>, k: nat)
    requires SaleRun(catalogue, items).ok
    requires k < |catalogue|
    ensures var states := SaleStates(catalogue, items);
            |states| == |items| + 1 &&
            if Touches(|catalogue|, Ids(items, SaleId), k)
            then StockMoved(states[0][k], states[|items|][k], -SaleDemand(|catalogue|, items, k))
            else states[|items|][k] == states[0][k]
  {
    SaleStatesMove(catalogue, items, k);
    SaleChain(|catalogue|, items, k, SaleStates(catalogue, items));
  }

  /** Line items are not merged: after a successful sale, every slot that no
      item names is unchanged, and a slot that items name has lost the paid and
      free units of all of them, cumulatively, with its other fields intact. */
  lemma {:induction false} SaleRunStock(catalogue: seq<Slot>, items: seq<SaleItem>, k: nat)
    requires SaleRun(catalogue, items).ok
    requires k < |catalogue|
    ensures var after := SaleRun(catalogue, items).slots;
            if Touches(|catalogue|, Ids(items, SaleId), k)
            then StockMoved(catalogue[k], after[k], -SaleDemand(|catalogue|, items, k))
            else after[k] == catalogue[k]
  {
    SaleStatesLast(catalogue, items);
    SaleStatesChain(catalogue, items, k);
  }

  lemma {:induction false} RestockSupplyUntouched(n: nat, items: seq<RestockItem>, k: nat, current: string)
    requires !Touches(n, Ids(items, RestockId), k)
    ensures RestockSupply(n, items, k) == 0
    ensures LastCost(n, items, k, current) == current
    decreases |items|
  {
    if items != [] {
      assert Ids(items, RestockId)[1..] == Ids(items[1..], RestockId);
      RestockSupplyUntouched(n, items[1..], k, current);
    }
  }

  /** One restock step seen from slot k: the slot it names gains the quantity
      and takes the new cost when that is truthy; every other slot is left as it was. */
  lemma {:induction false} RestockStepAt(catalogue: seq<Slot>, item: RestockItem, k: nat)
    requires RestockStep(catalogue, item).Some?
    requires k < |catalogue|
    ensures var after := RestockStep(catalogue, item).value.slots;
            if ResolveIndex(|catalogue|, item.id) == Some(k) then
              Restocked(catalogue[k], after[k], item.quantity,
                        if Truthy(item.newCost) then IntToString(item.newCost.value) else catalogue[k].value[CostField])
            else after[k] == catalogue[k]
  {
    if ResolveIndex(|catalogue|, item.id) == Some(k) {
      var r := catalogue[k].value;
      var x := IntToString(ParseInt(r[QuantityField]).value + item.quantity);
      var b: Record := r[QuantityField := x];
      if Truthy(item.newCost) {
        var c := IntToString(item.newCost.value);
        var a: Record := r[CostField := c];
        assert a[QuantityField := x] == b[CostField := c];
      } else {
        assert b[CostField := r[CostField]] == b;
      }
    }
  }

  lemma {:induction false} TouchesRestockCons(n: nat, items: seq<RestockItem>, k: nat)
    requires items != []
    ensures Touches(n, Ids(items, RestockId), k) <==> ResolveIndex(n, items[0].id) == Some(k) || Touches(n, Ids(items[1..], RestockId), k)
  {
    assert Ids(items, RestockId)[1..] == Ids(items[1..], RestockId);
  }

  /** The first step of a restock run that succeeded, and the run it leaves. */
  lemma {:induction false} RestockRunHead(catalogue: seq<Slot>, items: seq<RestockItem>) returns (st: Step<RestockLine>)
    requires items != [] && RestockRun(catalogue, items).ok
    ensures RestockStep(catalogue, items[0]) == Some(st)
    ensures |st.slots| == |catalogue|
    ensures RestockRun(catalogue, items).slots == RestockRun(st.slots, items[1..]).slots
    ensures RestockRun(st.slots, items[1..]).ok
  {
    st := RestockStep(catalogue, items[0]).value;
  }

  /** Two successive restocks of one slot compose: the quantities add up and
      the cost field ends as the later one sets it. */
  lemma {:induction false} CostChain(s0: Slot, s1: Slot, s2: Slot, d: int, e: int, c1: string, c2: string)
    requires Restocked(s0, s1, d, c1) && Restocked(s1, s2, e, c2)
    ensures Restocked(s0, s2, d + e, c2)
  {
    var r := s0.value;
    var v := ParseInt(r[QuantityField]).value;
    var x := IntToString(v + d);
    assert s1.value[QuantityField] == x;
    ParseIntOfIntToString(v + d);
    var y := IntToString(v + d + e);
    assert s1.value[QuantityField := y][CostField := c2] == r[QuantityField := y][CostField := c2];
  }

  /** A restocked slot carries the cost it was given. */
  lemma {:induction false} RestockedCost(s0: Slot, s1: Slot, d: int, c: string)
    requires Restocked(s0, s1, d, c)
    ensures s1.Some? && |s1.value| >= 4 && s1.value[CostField] == c
  {
  }

  /** After a successful restock, every slot that no item names is unchanged;
      a slot that items name has gained all their quantities and carries the
      last truthy new cost given for it, with its other fields intact. */
  lemma {:induction false} RestockRunStock(catalogue: seq<Slot>, items: seq<RestockItem>, k: nat)
    requires RestockRun(catalogue, items).ok
    requires k < |catalogue|
    ensures var after := RestockRun(catalogue, items).slots;
            if Touches(|catalogue|, Ids(items, RestockId), k)
            then catalogue[k].Some? && |catalogue[k].value| >= 4 &&
                 Restocked(catalogue[k], after[k], RestockSupply(|catalogue|, items, k),
                           LastCost(|catalogue|, items, k, catalogue[k].value[CostField]))
            else after[k] == catalogue[k]
    decreases |items|
  {
    if items != [] {
      var n := |catalogue|;
      var st := RestockRunHead(catalogue, items);
      var after := RestockRun(catalogue, items).slots;
      RestockStepAt(catalogue, items[0], k);
      RestockRunStock(st.slots, items[1..], k);
      TouchesRestockCons(n, items, k);
      var hit := ResolveIndex(n, items[0].id) == Some(k);
      var later := Touches(n, Ids(items[1..], RestockId), k);
      var d := items[0].quantity;
      var e := RestockSupply(n, items[1..], k);
      assert RestockSupply(n, items, k) == (if hit then d else 0) + e;
      if hit {
        var current := catalogue[k].value[CostField];
        var next := if Truthy(items[0].newCost) then IntToString(items[0].newCost.value) else current;
        var last := LastCost(n, items[1..], k, next);
        assert LastCost(n, items, k, current) == last;
        RestockedCost(catalogue[k], st.slots[k], d, next);
        if later {
          CostChain(catalogue[k], st.slots[k], after[k], d, e, next, last);
        } else {
          RestockSupplyUntouched(n, items[1..], k, next);
          assert after[k] == st.slots[k] && last == next && e == 0;
        }
        assert Restocked(catalogue[k], after[k], RestockSupply(n, items, k), LastCost(n, items, k, current));
      } else if later {
        var current := catalogue[k].value[CostField];
        assert st.slots[k] == catalogue[k];
        assert LastCost(n, items, k, current) == LastCost(n, items[1..], k, current);
        assert Restocked(catalogue[k], after[k], RestockSupply(n, items, k), LastCost(n, items, k, current));
      } else {
        assert after[k] == catalogue[k];
      }
    }
  }

  // ---------------------------------------------------------------------------
  // Unfolding one step, for the imperative loops that implement these runs

  /** A loop that has accumulated `rows` and `total` before item n, and whose
      item n succeeds, has accumulated one row more before item n + 1. */
  lemma {:induction false} SaleRunAdvance(catalogue: seq<Slot>, items: seq<SaleItem>, n: nat, rows: seq<SaleLine>, total: int,
                       next: seq<Slot>, line: SaleLine)
    requires n < |items|
    requires SaleStep(catalogue, items[n]) == Some(Step(next, line))
    ensures Extend(rows, total, SaleRun(catalogue, items[n..])) ==
            Extend(rows + [line], total + line.amount, SaleRun(next, items[n + 1..]))
  {
    assert items[n..][0] == items[n];
    assert items[n..][1..] == items[n + 1..];
    ExtendTwice(rows, total, [line], line.amount, SaleRun(next, items[n + 1..]));
  }

  /** A loop whose item n fails ends there, with the catalogue as it is. */
  lemma {:induction false} SaleRunStops(catalogue: seq<Slot>, items: seq<SaleItem>, n: nat, rows: seq<SaleLine>, total: int)
    requires n < |items|
    requires SaleStep(catalogue, items[n]).None?
    ensures Extend(rows, total, SaleRun(catalogue, items[n..])) == Run(catalogue, rows, total, false)
  {
    assert items[n..][0] == items[n];
    assert rows + [] == rows;
  }

  lemma {:induction false} RestockRunAdvance(catalogue: seq<Slot>, items: seq<RestockItem>, n: nat, rows: seq<RestockLine>, total: int,
                          next: seq<Slot>, line: RestockLine)
    requires n < |items|
    requires RestockStep(catalogue, items[n]) == Some(Step(next, line))
    ensures Extend(rows, total, RestockRun(catalogue, items[n..])) ==
            Extend(rows + [line], total + line.amount, RestockRun(next, items[n + 1..]))
  {
    assert items[n..][0] == items[n];
    assert items[n..][1..] == items[n + 1..];
    ExtendTwice(rows, total, [line], line.amount, RestockRun(next, items[n + 1..]));
  }

  lemma {:induction false} RestockRunStops(catalogue: seq<Slot>, items: seq<RestockItem>, n: nat, rows: seq<RestockLine>, total: int)
    requires n < |items|
    requires RestockStep(catalogue, items[n]).None?
    ensures Extend(rows, total, RestockRun(catalogue, items[n..])) == Run(catalogue, rows, total, false)
  {
    assert items[n..][0] == items[n];
    assert rows + [] == rows;
  }

  /** The sale step on a record whose quantity and cost fields parse. */
  lemma {:induction false} SaleStepOn(catalogue: seq<Slot>, item: SaleItem, k: nat, product: Record, stock: int, cost: int)
    requires ResolveIndex(|catalogue|, item.id) == Some(k)
    requires catalogue[k] == Some(product) && |product| >= 4
    requires ParseInt(product[QuantityField]) == Some(stock) && ParseInt(product[CostField]) == Some(cost)
    ensures SaleStep(catalogue, item) ==
              Some(Step(catalogue[k := Some(product[QuantityField := IntToString(stock - (item.quantity + item.quantity / 3))])],
                        SaleLine(product[NameField], product[BrandField], item.quantity, item.quantity / 3,
                                 cost * 3, cost * 3 * item.quantity)))
  {
  }

  /** The restock step on a record whose quantity field parses and whose cost
      field, after a truthy new cost is written, parses. */
  lemma {:induction false} RestockStepOn(catalogue: seq<Slot>, item: RestockItem, k: nat, product: Record, stock: int, revised: Record, cost: int)
    requires ResolveIndex(|catalogue|, item.id) == Some(k)
    requires catalogue[k] == Some(product) && |product| >= 4
    requires ParseInt(product[QuantityField]) == Some(stock)
    requires revised == if Truthy(item.newCost) then product[CostField := IntToString(item.newCost.value)] else product
    requires ParseInt(revised[CostField]) == Some(cost)
    ensures RestockStep(catalogue, item) ==
              Some(Step(catalogue[k := Some(revised[QuantityField := IntToString(stock + item.quantity)])],
                        RestockLine(product[NameField], product[BrandField], item.quantity, cost, cost * item.quantity)))
  {
  }
}
