/** Invoice generation and saving (write.py): the sale and restock generators walk
    their line items in order, price each one, change the catalogue in place and
    accumulate a total; on success they save the catalogue, one line per record
    with the fields joined by ", ". Any line that raises ends the generator with
    no invoice and no save, and the changes of the earlier lines stay. */
module Write {
  import opened Records
  import opened Pricing
  import opened Transactions

  /** The total length of some fields. */
  function FieldsLength(fields: seq<string>): nat
    decreases |fields|
  {
    if fields == [] then 0 else |fields[0]| + FieldsLength(fields[1..])
  }

  /** The fields of a record joined by ", ", with no separator after the last. */
  function Join(fields: seq<string>): string
    decreases |fields|
  {
    if |fields| == 0 then ""
    else if |fields| == 1 then fields[0]
    else fields[0] + ", " + Join(fields[1..])
  }

  /** A joined line holds the fields' characters and two more per separator:
      one ", " between each pair of fields, none at either end. */
  lemma {:induction false} JoinLength(fields: seq<string>)
    ensures |Join(fields)| == if |fields| == 0 then 0 else FieldsLength(fields) + 2 * (|fields| - 1)
    decreases |fields|
  {
    if |fields| > 1 {
      JoinLength(fields[1..]);
    }
  }

  lemma {:induction false} JoinSnoc(fields: seq<string>, x: string)
    requires |fields| >= 1
    ensures Join(fields + [x]) == Join(fields) + ", " + x
    decreases |fields|
  {
    if |fields| == 1 {
      assert (fields + [x])[1..] == [x];
    } else {
      assert (fields + [x])[1..] == fields[1..] + [x];
      JoinSnoc(fields[1..], x);
    }
  }

  /** What update_inventory leaves in the file: one line per slot from slot 1 on,
      each the record's fields joined by ", " and a newline, in slot order; the
      writing either covers every slot or stops at a slot that holds None. */
  ghost predicate WrittenBy(inventory: seq<Slot>, lines: seq<string>) {
    (forall i :: 0 <= i < |lines| ==>
       i + 1 < |inventory| && inventory[i + 1].Some? && lines[i] == Join(inventory[i + 1].value) + "\n")
    && (|lines| + 1 >= |inventory| || inventory[|lines| + 1].None?)
  }

  /** update_inventory: slot 0 is skipped; a slot holding None makes enumerate()
      raise, which is caught and reported as False after the earlier lines were
      written. The file's lines are returned in place of writing them. */
  method UpdateInventory(inventory: seq<Slot>) returns (ok: bool, lines: seq<string>)
    ensures WrittenBy(inventory, lines)
    ensures ok <==> forall i :: 1 <= i < |inventory| ==> inventory[i].Some?
    ensures ok ==> |lines| == if |inventory| == 0 then 0 else |inventory| - 1
  {
    lines := [];
    var pid := 1;
    while pid < |inventory|
      invariant 1 <= pid <= if |inventory| == 0 then 1 else |inventory|
      invariant |lines| == pid - 1
      invariant forall i :: 0 <= i < |lines| ==> inventory[i + 1].Some? && lines[i] == Join(inventory[i + 1].value) + "\n"
      invariant forall i :: 1 <= i < pid ==> inventory[i].Some?
    {
      if inventory[pid].None? {
        return false, lines;
      }
      var product := inventory[pid].value;
      var line := "";
      for i := 0 to |product|
        invariant line == if i == 0 then "" else Join(product[..i]) + (if i < |product| then ", " else "")
      {
        if i > 0 {
          JoinSnoc(product[..i], product[i]);
        }
        assert product[..i + 1] == product[..i] + [product[i]];
        line := line + product[i];
        if i < |product| - 1 {
          line := line + ", ";
        }
      }
      assert product[..|product|] == product;
      assert line == Join(product);
      lines := lines + [line + "\n"];
      pid := pid + 1;
    }
    ok := true;
  }

  /** The customer or supplier name with every space replaced by an underscore. */
  function Underscored(name: string): string {
    seq(|name|, i requires 0 <= i < |name| => if name[i] == ' ' then '_' else name[i])
  }

  /** The clean_name loop of both generators. */
  method CleanName(name: string) returns (cleanName: string)
    ensures cleanName == Underscored(name)
    ensures |cleanName| == |name|
    ensures forall i :: 0 <= i < |name| ==> cleanName[i] == (if name[i] == ' ' then '_' else name[i])
    ensures ' ' !in cleanName
  {
    cleanName := "";
    for n := 0 to |name|
      invariant |cleanName| == n
      invariant forall i :: 0 <= i < n ==> cleanName[i] == (if name[i] == ' ' then '_' else name[i])
    {
      if name[n] == ' ' {
        cleanName := cleanName + "_";
      } else {
        cleanName := cleanName + [name[n]];
      }
    }
  }

  /** `{invoice number}_{name with underscores}_{date}_{time}.txt`. */
  function InvoiceFileName(invoiceNumber: string, name: string, today: string, timeStamp: string): (fileName: string)
    ensures var n := |invoiceNumber| + 1;
            |fileName| == n + |name| + |today| + |timeStamp| + 6 &&
            fileName[..n] == invoiceNumber + "_" &&
            fileName[n..n + |name|] == Underscored(name) && ' ' !in fileName[n..n + |name|] &&
            fileName[|fileName| - 4..] == ".txt"
  {
    invoiceNumber + "_" + Underscored(name) + "_" + today + "_" + timeStamp + ".txt"
  }

  /** What a sale invoice records: its file name, header, rows, shipping and total. */
  datatype SaleInvoice = SaleInvoice(fileName: string, invoiceNumber: string, date: string,
                                     customerName: string, phoneNumber: string,
                                     rows: seq<SaleLine>, shipping: int, grandTotal: int)

  /** What a restock invoice records. */
  datatype RestockInvoice = RestockInvoice(fileName: string, invoiceNumber: string, date: string,
                                           supplierName: string, rows: seq<RestockLine>, total: int)

  /** The in-memory catalogue list that the generators receive and change in place. */
  class InventoryList {
    var slots: seq<Slot>

    constructor (initial: seq<Slot>)
      ensures slots == initial
    {
      slots := initial;
    }
  }

  /** The body of the sale loop for one item: the row it prints and the stock
      it writes back into the product's record, or None where Python raises
      (the catalogue is then as it was, since the write-back comes last). */
  method ApplySaleItem(inventory: InventoryList, item: SaleItem) returns (line: Option<SaleLine>)
    modifies inventory
    ensures var st := SaleStep(old(inventory.slots), item);
            (line.Some? <==> st.Some?) &&
            (st.Some? ==> inventory.slots == st.value.slots && line.value == st.value.line) &&
            (st.None? ==> inventory.slots == old(inventory.slots))
  {
    var pid := item.id;
    var qtyPurchased := item.quantity;
    var k := ResolveIndex(|inventory.slots|, pid);
    if k.None? || inventory.slots[k.value].None? {
      return None;
    }
    var product := inventory.slots[k.value].value;
    if |product| < 4 {
      return None;
    }
    var productName := product[NameField];
    var brand := product[BrandField];
    var currentQty := ParseInt(product[QuantityField]);
    var costPrice := ParseInt(product[CostField]);
    if currentQty.None? || costPrice.None? {
      return None;
    }
    var freeItems := qtyPurchased / 3;
    var sellingPrice := costPrice.value * 3;
    var amount := sellingPrice * qtyPurchased;
    SaleStepOn(inventory.slots, item, k.value, product, currentQty.value, costPrice.value);
    line := Some(SaleLine(productName, brand, qtyPurchased, freeItems, sellingPrice, amount));
    inventory.slots := inventory.slots[k.value := Some(product[QuantityField := IntToString(currentQty.value - (qtyPurchased + freeItems))])];
  }

  /** The body of the restock loop for one item. A truthy new cost is written
      into the record in place before the cost is read back; since the written
      text always parses, a failing item leaves the catalogue as it was. */
  method ApplyRestockItem(inventory: InventoryList, item: RestockItem) returns (line: Option<RestockLine>)
    modifies inventory
    ensures var st := RestockStep(old(inventory.slots), item);
            (line.Some? <==> st.Some?) &&
            (st.Some? ==> inventory.slots == st.value.slots && line.value == st.value.line) &&
            (st.None? ==> inventory.slots == old(inventory.slots))
  {
    var pid := item.id;
    var qtyRestocked := item.quantity;
    var newCost := item.newCost;
    var k := ResolveIndex(|inventory.slots|, pid);
    if k.None? || inventory.slots[k.value].None? {
      return None;
    }
    var product := inventory.slots[k.value].value;
    if |product| < 4 {
      return None;
    }
    var productName := product[NameField];
    var brand := product[BrandField];
    var currentQty := ParseInt(product[QuantityField]);
    if currentQty.None? {
      return None;
    }
    ghost var before := inventory.slots;
    ghost var original := product;
    if Truthy(newCost) {
      product := product[CostField := IntToString(newCost.value)];
      inventory.slots := inventory.slots[k.value := Some(product)];
      ParseIntOfIntToString(newCost.value);
    }
    var costPrice := ParseInt(product[CostField]);
    if costPrice.None? {
      return None;
    }
    var amount := costPrice.value * qtyRestocked;
    var updated := product[QuantityField := IntToString(currentQty.value + qtyRestocked)];
    RestockStepOn(before, item, k.value, original, currentQty.value, product, costPrice.value);
    line := Some(RestockLine(productName, brand, qtyRestocked, costPrice.value, amount));
    inventory.slots := inventory.slots[k.value := Some(updated)];
    assert inventory.slots == before[k.value := Some(updated)];
  }

  /** The sale loop: the items in order, each changing the catalogue in place;
      the first item that raises ends the loop with ok false, and the earlier
      items' changes stay. */
  method ApplySaleItems(inventory: InventoryList, items: seq<SaleItem>)
    returns (rows: seq<SaleLine>, totalAmount: int, ok: bool)
    modifies inventory
    ensures var run := SaleRun(old(inventory.slots), items);
            inventory.slots == run.slots && ok == run.ok &&
            (ok ==> rows == run.lines && totalAmount == run.total)
  {
    ghost var run := SaleRun(inventory.slots, items);
    rows := [];
    totalAmount := 0;
    for n := 0 to |items|
      invariant run == Extend(rows, totalAmount, SaleRun(inventory.slots, items[n..]))
    {
      ghost var before := inventory.slots;
      var line := ApplySaleItem(inventory, items[n]);
      if line.None? {
        SaleRunStops(before, items, n, rows, totalAmount);
        return rows, totalAmount, false;
      }
      SaleRunAdvance(before, items, n, rows, totalAmount, inventory.slots, line.value);
      totalAmount := totalAmount + line.value.amount;
      rows := rows + [line.value];
    }
    assert items[|items|..] == [];
    assert rows + [] == rows;
    ok := true;
  }

  /** The restock loop, in the same way. */
  method ApplyRestockItems(inventory: InventoryList, items: seq<RestockItem>)
    returns (rows: seq<RestockLine>, totalAmount: int, ok: bool)
    modifies inventory
    ensures var run := RestockRun(old(inventory.slots), items);
            inventory.slots == run.slots && ok == run.ok &&
            (ok ==> rows == run.lines && totalAmount == run.total)
  {
    ghost var run := RestockRun(inventory.slots, items);
    rows := [];
    totalAmount := 0;
    for n := 0 to |items|
      invariant run == Extend(rows, totalAmount, RestockRun(inventory.slots, items[n..]))
    {
      ghost var before := inventory.slots;
      var line := ApplyRestockItem(inventory, items[n]);
      if line.None? {
        RestockRunStops(before, items, n, rows, totalAmount);
        return rows, totalAmount, false;
      }
      RestockRunAdvance(before, items, n, rows, totalAmount, inventory.slots, line.value);
      totalAmount := totalAmount + line.value.amount;
      rows := rows + [line.value];
    }
    assert items[|items|..] == [];
    assert rows + [] == rows;
    ok := true;
  }

  /** generate_sale_invoice. The shipping answer, the random invoice serial and
      the date and time are parameters. On success the invoice and the saved
      file are returned; when a line raises, both are None and the catalogue
      keeps the changes of the lines before it. */
  method GenerateSaleInvoice(customerName: string, phoneNumber: string, itemsPurchased: seq<SaleItem>,
                             inventory: InventoryList, shippingAnswer: string,
                             serial: int, today: string, timeStamp: string)
    returns (invoice: Option<SaleInvoice>, saved: Option<seq<string>>)
    modifies inventory
    ensures var run := SaleRun(old(inventory.slots), itemsPurchased);
            inventory.slots == run.slots &&
            (invoice.Some? <==> run.ok) && (saved.Some? <==> run.ok) &&
            (run.ok ==>
               var number := "SALE-" + IntToString(serial);
               invoice.value == SaleInvoice(InvoiceFileName(number, customerName, today, timeStamp), number, today,
                                            customerName, phoneNumber, run.lines,
                                            ShippingCost(shippingAnswer), run.total + ShippingCost(shippingAnswer)) &&
               WrittenBy(run.slots, saved.value))
  {
    var invoiceNumber := "SALE-" + IntToString(serial);
    var cleanName := CleanName(customerName);
    var fileName := invoiceNumber + "_" + cleanName + "_" + today + "_" + timeStamp + ".txt";

    var rows, totalAmount, ok := ApplySaleItems(inventory, itemsPurchased);
    if !ok {
      return None, None;
    }

    var shippingCost := 0;
    if Upper(shippingAnswer) == "Y" {
      shippingCost := 500;
    }
    var grandTotal := totalAmount + shippingCost;
    var written, lines := UpdateInventory(inventory.slots);
    invoice := Some(SaleInvoice(fileName, invoiceNumber, today, customerName, phoneNumber, rows, shippingCost, grandTotal));
    saved := Some(lines);
  }

  /** generate_restock_invoice. A truthy new cost is written into the record
      before the amount is computed; the rest is as for a sale, without shipping. */
  method GenerateRestockInvoice(supplierName: string, itemsRestocked: seq<RestockItem>, inventory: InventoryList,
                                serial: int, today: string, timeStamp: string)
    returns (invoice: Option<RestockInvoice>, saved: Option<seq<string>>)
    modifies inventory
    ensures var run := RestockRun(old(inventory.slots), itemsRestocked);
            inventory.slots == run.slots &&
            (invoice.Some? <==> run.ok) && (saved.Some? <==> run.ok) &&
            (run.ok ==>
               var number := "RESTOCK-" + IntToString(serial);
               invoice.value == RestockInvoice(InvoiceFileName(number, supplierName, today, timeStamp), number, today,
                                               supplierName, run.lines, run.total) &&
               WrittenBy(run.slots, saved.value))
  {
    var invoiceNumber := "RESTOCK-" + IntToString(serial);
    var cleanName := CleanName(supplierName);
    var fileName := invoiceNumber + "_" + cleanName + "_" + today + "_" + timeStamp + ".txt";

    var rows, totalAmount, ok := ApplyRestockItems(inventory, itemsRestocked);
    if !ok {
      return None, None;
    }

    var written, lines := UpdateInventory(inventory.slots);
    invoice := Some(RestockInvoice(fileName, invoiceNumber, today, supplierName, rows, totalAmount));
    saved := Some(lines);
  }
}
