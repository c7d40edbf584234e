# WeCare Beauty Products: inventory and invoices, modelled in Dafny

The system keeps a skin-care shop's product catalogue in a flat text file. There is one product per line: name, brand, quantity on hand, cost price and origin, separated by `", "`. It sells and restocks those products by generating invoices.

This project models the core of two modules:

- **write.py**:
  - the line-item loops of `generate_sale_invoice` and `generate_restock_invoice`, which price each line, change the in-memory catalogue in place and accumulate a total;
  - their failure path: any raised exception gives `None`, with no save and no rollback;
  - the shipping surcharge;
  - the `clean_name` loop that builds the invoice file name;
  - the serialiser `update_inventory`.
- **read.py**:
  - the loader `read_inventory`: remove newlines, split on `,`, trim one space at each end of every field, and put `None` in slot 0;
  - the seed rows;
  - the selling price that `display_inventory` shows.

Modules:

- `Records` (records.dfy):
  - product records as lists of text fields, and a catalogue slot as `Option<Record>`;
  - Python list indexing, including negative ids;
  - `int()`/`str()` on decimal strings.
- `Pricing` (pricing.dfy): the ×3 markup, `qty // 3` free units, and the shipping rule through `str.upper()`.
- `Read` (read.dfy): the loader as imperative loops, each proved against a specification function, and the display price.
- `Transactions` (transactions.dfy):
  - one sale or restock line as a function on catalogues, and a run of lines as a function;
  - the properties of both: per-line pricing and stock change, order, no deduplication, cumulative stock, and no rollback.
- `Write` (write.dfy):
  - the in-memory catalogue as a class `InventoryList` whose `slots` field is changed in place;
  - the loops of the generators and of `update_inventory` as methods whose postconditions tie the new catalogue to the `Transactions` functions (`SaleRun`, `RestockRun`), and the saved lines to `Join` through `WrittenBy`.
- `RoundTrip` (round_trip.dfy):
  - saving and loading put back every record that has at least one field and whose fields hold no comma, '\n' or '\r' and do not start or end with a space (a record with no fields reloads as one empty field);
  - worked examples on the seed catalogue;
  - the display price equals the sale price.

Three behaviours one might expect of such a system are not what the code does, and the model follows the code:

- **Negative stock.** Nothing rejects a sale that would drive stock below zero, and there is no option to turn such a check on. A sale of more units than are in stock succeeds and leaves a negative stock (`Transactions.SaleAllowsNegativeStock`).
- **Seed cost.** The first seed row (read.py:65) gives "Vitamin C Serum" a cost of 1000. A worked sale of it therefore charges 3000 a unit (`RoundTrip.SeedSale`).
- **Load retry.** When the file cannot be read, `read_inventory` creates it and calls itself again (read.py:45-48), with no bound on the number of attempts. This retry is not modelled (see below).

## Model

| member | source | states |
|---|---|---|
| Records.ResolveIndex | write.py:103 | `inventory_list[pid]` reaches a slot exactly when -len <= pid < len. Non-negative ids index from the front and negative ids from the back (pid + len); any other id raises. |
| Records.ParseInt | write.py:106-107 | `int()` (and `float()` on a whole-number cost, as at write.py:228 and read.py:100) succeeds only on a non-empty string, and on a string of decimal digits gives their value. |
| Records.ParseIntAccepts | write.py:106 | The modelled `int()`, restricted to an ASCII sign and ASCII digits, accepts exactly the strings of digits and the strings of a sign followed by digits. A leading '-' negates the value and a leading '+' is ignored, and every other string fails (Python's wider syntax is listed under Left out). |
| Records.IntToString | write.py:128 | `str(n)` is never empty and starts with '-' exactly when n is negative. |
| Records.IntToStringForm | write.py:241 | `str(n)` is the decimal digits of n, denoting n, with a '-' in front when n is negative (as also at write.py:226). |
| Records.ParseIntOfIntToString | write.py:128 | `int(str(n)) == n` for every integer, so a stock value written back into a record parses to the value written. |
| Pricing.SellingPrice | write.py:113 | The selling price (also read.py:100) is a 200% markup: the profit over cost is twice the cost, and the cost is the price divided by 3 with no remainder. |
| Pricing.FreeItems | write.py:110 | The free units are the floor of qty / 3 (3·free <= qty < 3·free + 3), and lie between 0 and qty for a non-negative qty. |
| Pricing.Upper | write.py:132 | `str.upper()` keeps the length and maps each character on its own. |
| Pricing.ShippingCost | write.py:131-133 | The surcharge is 500 exactly when the answer is "Y" or "y", and 0 for every other answer. |
| Read.Split | read.py:32 | `split(",")` gives one piece more than there are commas, and no piece contains a comma. |
| Read.RemoveNewlines | read.py:32 | `replace("\n", "")` leaves no newline, never lengthens the line, and leaves a line without newlines as it was. |
| Read.CleanField | read.py:36-39 | A field loses at most one leading and at most one trailing space. A field with a space at its front or at its end gets shorter, and a field of two or more characters with a space at both ends loses both. An empty field stays empty, and a field with no space at either end is unchanged. |
| Read.ParseLine | read.py:32-40 | A record has one field more than the newline-stripped line has commas, and each field is the corresponding comma-separated piece trimmed at most once at each end. |
| Read.ParsedFile | read.py:27-41 | A loaded catalogue has one slot more than the file has lines; slot 0 is None and every other slot holds a record. |
| Read.CleanFields | read.py:34-40 | The inner loop cleans every field of a split line, keeping their number and order. |
| Read.ReadInventory | read.py:27-43 | The loader's result is ParsedFile of the lines: slot 0 None, and record i parsed from line i−1, in order. |
| Read.DisplayedSellingPrice | read.py:98-104 | A row shows a price exactly when its slot holds a record with at least five fields whose cost parses, and the price is 3 × cost. Every other row raises and shows an error instead. |
| Read.DisplayInventory | read.py:97-104 | The table has one entry per slot 1 .. len−1, each that slot's displayed price; a failing row does not stop the rows after it. |
| Transactions.SaleStep | write.py:99-128 | One sale line fails when its id does not resolve; a successful line keeps the catalogue's length. |
| Transactions.SaleRun | write.py:99-128 | A sale run keeps the catalogue's length; it produces at most one row per item, and exactly one per item when every line succeeds. |
| Transactions.RestockStep | write.py:214-241 | One restock line fails when its id does not resolve; a successful line keeps the catalogue's length. |
| Transactions.RestockRun | write.py:214-241 | A restock run keeps the catalogue's length; it produces at most one row per item, and exactly one per item when every line succeeds. |
| Transactions.SaleStepEffect | write.py:103-128 | After one successful sale line: free = qty // 3, price = 3 × cost, amount = 3 × cost × qty, and the stock of the named product becomes old − (qty + qty // 3). No other field and no other slot changes. |
| Transactions.SaleAllowsNegativeStock | write.py:128 | Selling 3 units of a product with stock 0 succeeds and leaves stock −4: nothing stops stock going negative. |
| Transactions.RestockStepEffect | write.py:217-241 | After one successful restock line, a truthy new cost replaces the cost field and is the line's cost. Otherwise the cost field is kept and parses to the line's cost. The amount is cost × qty, and stock rises by qty. No other field and no other slot changes. |
| Transactions.RestockWithNewCostSucceeds | write.py:225-228 | With a truthy new cost, a record whose stock field parses is always restocked, because the cost written back always parses. |
| Transactions.SaleRunLines | write.py:99-117 | The rows of a sale follow the items in order with qty // 3 free units and amount = unit price × qty, and the running total is the sum of the row amounts. |
| Transactions.RestockRunLines | write.py:214-230 | The rows of a restock follow the items in order with amount = cost × qty, and the running total is the sum of the row amounts. |
| Transactions.SaleRunAppend | write.py:99 | Selling items a then b equals selling a + b; when a fails, b is never looked at. |
| Transactions.RestockRunAppend | write.py:214 | Restocking items a then b equals restocking a + b; when a fails, b is never looked at. |
| Transactions.SaleUnresolvedIdKeepsEarlierChanges | write.py:103 | When a sale line's id does not resolve, the sale fails, and the catalogue keeps exactly the changes of the lines before it: there is no rollback. |
| Transactions.RestockUnresolvedIdKeepsEarlierChanges | write.py:219 | When a restock line's id does not resolve, the restock fails, and the catalogue keeps exactly the changes of the lines before it. |
| Transactions.SaleFailureKeepsPrefix | write.py:157-159 | Every failed sale stops at a line that raised, with the catalogue the lines before it produced. |
| Transactions.RestockFailureKeepsPrefix | write.py:258-260 | Every failed restock, whatever the line raised on (an unresolved id, a missing or short record, a stock or cost field that does not parse), stops at that line with the catalogue the lines before it produced. |
| Transactions.Truthy | write.py:225 | `if new_cost:` takes the new cost exactly when it is present and not 0, since None and 0 are Python's falsy values here. |
| Transactions.MoveStock | write.py:128 | Writing `str(old + delta)` into the stock field keeps every other field, and the field parses to old + delta. |
| Transactions.SaleStepAt | write.py:128 | One sale line moves the stock of the slot it names down by qty + qty // 3 and leaves every other slot as it was. |
| Transactions.StockChain | write.py:128 | Two stock moves of one slot compose into one move by their sum. |
| Transactions.SaleChain | write.py:99-128 | Applying items through a series of catalogues moves slot k by the summed paid and free units of every item naming it, and leaves slot k unchanged when no item names it. |
| Transactions.SaleRunStock | write.py:99-128 | Lines are not merged or deduplicated. After a successful sale, slot k has lost the paid and free units of every line naming it, cumulatively, with its other fields intact; a slot no line names is unchanged. |
| Transactions.RestockStepAt | write.py:225-241 | One restock line raises the stock of the slot it names by qty and sets its cost field to a truthy new cost. Every other slot is left as it was. |
| Transactions.CostChain | write.py:226 | Two restocks of one slot compose: the quantities add up and the later cost wins. |
| Transactions.RestockRunStock | write.py:214-241 | After a successful restock, slot k has gained the quantities of every line naming it, and carries the last truthy new cost given for it, with its other fields intact. A slot no line names is unchanged. |
| Write.JoinLength | write.py:29-33 | A joined line has the fields' characters plus two per separator: one ", " between each pair of fields and none at either end, with an empty record giving an empty line. |
| Write.JoinSnoc | write.py:30-33 | Adding a field to the joined line adds ", " and the field: there is a separator between fields and none after the last. |
| Write.UpdateInventory | write.py:27-40 | For every slot 1 .. len−1, in order, the serialiser emits that record's fields joined by ", " plus a newline, and never emits slot 0. It reports success exactly when no slot after 0 is None; otherwise it stops at the first None slot, keeping the lines before it. |
| Write.CleanName | write.py:63-68 | The name keeps its length, every space becomes '_' and every other character is kept, so no space remains. |
| Write.InvoiceFileName | write.py:69 | The file name (the same at write.py:187) starts with the invoice number and '_', then holds the name with its spaces made '_', and ends in ".txt". Its length is the parts' lengths plus the three '_' and the ".txt". |
| Write.ApplySaleItem | write.py:100-128 | One pass of the sale loop changes the catalogue in place exactly as SaleStep does and prints SaleStep's row. When the line raises, the catalogue is as it was. |
| Write.ApplyRestockItem | write.py:215-241 | One pass of the restock loop, which writes the new cost into the record in place, changes the catalogue exactly as RestockStep does. When the line raises, the catalogue is as it was. |
| Write.ApplySaleItems | write.py:99-128 | The sale loop leaves the catalogue as SaleRun says: every line in order, stopping at the first that raises, with its earlier changes kept. On success its rows and total are SaleRun's. |
| Write.ApplyRestockItems | write.py:214-241 | The restock loop leaves the catalogue as RestockRun says, in the same way. |
| Write.GenerateSaleInvoice | write.py:43-159 | When every line succeeds, the sale invoice holds the file name `SALE-<serial>_<name with underscores>_<date>_<time>.txt`, the rows, the shipping and grand total = sum of amounts + shipping. The serialiser is then run on the changed catalogue, and the saved lines are what it writes: they cover every slot, or stop at a slot after 0 that holds None, where `update_inventory` catches its own error and returns False (write.py:38-40). The generator ignores that result and still returns the invoice (write.py:154-155). When a line raises, there is no invoice and no save, and the catalogue keeps the earlier lines' changes. |
| Write.GenerateRestockInvoice | write.py:162-260 | The restock invoice holds the file name, the rows and total = sum of amounts. The serialiser is then run on the changed catalogue, and the saved lines are what it writes, possibly stopping at a None slot. Its False result is ignored and the invoice is still returned (write.py:255-256). When a line raises, there is no invoice and no save, and the catalogue keeps the earlier lines' changes. |
| RoundTrip.SplitJoin | write.py:30-33 | Splitting a joined line on ',' gives back the fields, each after the first with the separator's space in front of it. |
| RoundTrip.RemoveTrailingNewline | write.py:34 | Removing newlines from a saved line drops exactly the newline the serialiser appended. |
| RoundTrip.LineRoundTrip | read.py:31-41 | Serialising a record and parsing the line back gives the same fields. This holds when the record has at least one field, no field contains ',', '\n' or '\r', and no field starts or ends with a space. |
| RoundTrip.SaveLoadRoundTrip | read.py:27-43 | When every record in the catalogue has at least one field, and no field contains ',', '\n' or '\r' or starts or ends with a space, every line the serialiser wrote parses back to its slot's record. When in addition every slot after 0 holds a record, loading the saved file gives back the catalogue with None in slot 0. |
| RoundTrip.SeedFileParses | read.py:64-68 | The three seed rows load as products 1 to 3 with their five fields. |
| RoundTrip.SeedSale | write.py:103-128 | Selling 9 units of seed product 1 (cost 1000, stock 200) gives 3 free units, price 3000, amount 27000, and leaves stock 188. |
| RoundTrip.SeedRestock | write.py:219-241 | Restocking 50 units of seed product 1 at new cost 150 sets cost 150 and stock 250, and charges 7500. |
| RoundTrip.DisplayMatchesSale | read.py:100 | The selling price the inventory table shows is the unit price a sale of that product charges. |

## Left out

- File I/O: opening, writing and closing files, `readlines`, and all printing and table formatting.
  - File contents are a sequence of line strings: `ReadInventory` takes them and `UpdateInventory` returns them.
  - An invoice is a value holding what the file records.
  - The partial invoice file left behind when a line raises is not modelled. Only the returned None and the catalogue are.
- The `input()` shipping prompt. Its answer is a parameter of `GenerateSaleInvoice`.
- `datetime.now()` and `random.randint(1000, 9999)`. The date, the time stamp and the serial are parameters, and the serial's range is not enforced.
- Floating point. Costs and amounts are integers, and `round(…, 2)` at print time is not modelled.
  - `float()` on a cost field is modelled as the integer parse, so a cost such as "12.5" makes a line fail in the model, where Python accepts it.
- `int()` is modelled on an optional ASCII sign followed by ASCII decimal digits. Python also accepts surrounding whitespace (such as the " 200" left by two spaces after a comma), digit-group underscores and non-ASCII decimal digits, which the model treats as failures.
- The dictionary access of a line item. An item always has `id` and `quantity` (and an optional new cost), so the KeyError and TypeError paths of missing keys or non-integer ids do not arise.
- `create_inventory_file` and the retry in `read_inventory` (read.py:45-48). The retry depends on file-system failure and can recurse without bound. The seed rows are a constant.
- Value semantics. A record is a value, so two slots sharing one Python list object (aliasing) cannot be expressed. The only in-place write through an alias in the source, `product[3] = str(new_cost)`, is modelled as a write into the slot.
- Pricing.Upper: only ASCII letters are upper-cased. Python's full Unicode case mapping is not modelled, so `ShippingCost` treats only "Y" and "y" as yes.
- Line-ending translation. The file is read in text mode (read.py:22), so `readlines()` turns "\r\n" and a lone '\r' into '\n' before `read_inventory` sees the lines. The model takes the lines as `readlines()` returns them. A field holding '\r' would come back split across two lines, so the round trip excludes '\r' from fields, as it excludes '\n'.
