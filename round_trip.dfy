/** How the writer and the reader fit together: a record saved by update_inventory
    and read back by read_inventory keeps its fields when no field holds a comma
    or a newline and none starts or ends with a space; and the price the
    inventory table shows is the one a sale charges. */
module RoundTrip {
  import opened Records
  import opened Pricing
  import opened Read
  import opened Write
  import opened Transactions

  /** A field that survives saving and loading unchanged. */
  predicate CleanText(f: string) {
    ',' !in f && '\n' !in f && '\r' !in f && (|f| > 0 ==> f[0] != ' ' && f[|f| - 1] != ' ')
  }

  /** A record that survives saving and loading unchanged. */
  predicate CleanRecord(r: Record) {
    |r| >= 1 && forall i :: 0 <= i < |r| ==> CleanText(r[i])
  }

  lemma {:induction false} SplitWithoutSeparator(s: string, sep: char)
    requires sep !in s
    ensures Split(s, sep) == [s]
    decreases |s|
  {
    if s != [] {
      SplitWithoutSeparator(s[1..], sep);
      assert [s[0]] + s[1..] == s;
    }
  }

  /** Splitting at the first separator: the piece before it, then the pieces of the rest. */
  lemma {:induction false} SplitAtSeparator(a: string, sep: char, b: string)
    requires sep !in a
    ensures Split(a + [sep] + b, sep) == [a] + Split(b, sep)
    decreases |a|
  {
    var s := a + [sep] + b;
    if a == [] {
      assert s[1..] == b;
    } else {
      assert s[0] == a[0];
      assert s[1..] == a[1..] + [sep] + b;
      SplitAtSeparator(a[1..], sep, b);
      assert [a[0]] + a[1..] == a;
    }
  }

  /** Splitting a joined line on ',' gives back the fields, each after the first
      carrying the space of the ", " separator in front of it. */
  lemma {:induction false} SplitJoin(fields: seq<string>)
    requires |fields| >= 1
    requires forall i :: 0 <= i < |fields| ==> ',' !in fields[i]
    ensures var parts := Split(Join(fields), ',');
            |parts| == |fields| && parts[0] == fields[0] &&
            forall i :: 1 <= i < |fields| ==> parts[i] == " " + fields[i]
    decreases |fields|
  {
    if |fields| == 1 {
      SplitWithoutSeparator(fields[0], ',');
    } else {
      var rest := fields[1..];
      var tail := Join(rest);
      SplitJoin(rest);
      assert Join(fields) == fields[0] + [','] + ([' '] + tail);
      SplitAtSeparator(fields[0], ',', [' '] + tail);
      var pieces := Split(tail, ',');
      assert ([' '] + tail)[0] == ' ' && ([' '] + tail)[1..] == tail;
      assert Split([' '] + tail, ',') == [" " + pieces[0]] + pieces[1..];
    }
  }

  lemma {:induction false} JoinWithoutNewline(fields: seq<string>)
    requires forall i :: 0 <= i < |fields| ==> '\n' !in fields[i]
    ensures '\n' !in Join(fields)
    decreases |fields|
  {
    if |fields| > 1 {
      JoinWithoutNewline(fields[1..]);
    }
  }

  /** The newline update_inventory appends is the only one the reader drops. */
  lemma {:induction false} RemoveTrailingNewline(line: string)
    requires '\n' !in line
    ensures RemoveNewlines(line + "\n") == line
    decreases |line|
  {
    if line == [] {
      assert RemoveNewlines("\n") == [] + RemoveNewlines([]);
    } else {
      var s := line + "\n";
      assert s[0] == line[0] && s[1..] == line[1..] + "\n";
      RemoveTrailingNewline(line[1..]);
      assert RemoveNewlines(s) == [line[0]] + line[1..];
    }
  }

  /** One record: the line update_inventory writes for it parses back to it. */
  lemma {:induction false} LineRoundTrip(fields: Record)
    requires CleanRecord(fields)
    ensures ParseLine(Join(fields) + "\n") == fields
  {
    var line := Join(fields);
    JoinWithoutNewline(fields);
    RemoveTrailingNewline(line);
    SplitJoin(fields);
    var parts := Split(line, ',');
    forall i | 0 <= i < |fields|
      ensures CleanField(parts[i]) == fields[i]
    {
      if i > 0 {
        assert (" " + fields[i])[1..] == fields[i];
      }
    }
  }

  /** Save, then load: every line update_inventory wrote parses back to the
      record of its slot, and when the save covered the whole catalogue the
      loaded catalogue is the saved one with None in slot 0. */
  lemma {:induction false} SaveLoadRoundTrip(inventory: seq<Slot>, lines: seq<string>)
    requires WrittenBy(inventory, lines)
    requires forall i :: 1 <= i < |inventory| && inventory[i].Some? ==> CleanRecord(inventory[i].value)
    ensures forall i :: 0 <= i < |lines| ==> Some(ParseLine(lines[i])) == inventory[i + 1]
    ensures |inventory| >= 1 && (forall i :: 1 <= i < |inventory| ==> inventory[i].Some?) ==>
              ParsedFile(lines) == [None] + inventory[1..]
  {
    forall i | 0 <= i < |lines|
      ensures Some(ParseLine(lines[i])) == inventory[i + 1]
    {
      var line := lines[i];
      LineRoundTrip(inventory[i + 1].value);
    }
    if |inventory| >= 1 && (forall i :: 1 <= i < |inventory| ==> inventory[i].Some?) {
      assert |lines| == |inventory| - 1 by {
        if |lines| > 0 {
          var last := lines[|lines| - 1];
          assert |lines| < |inventory|;
        }
      }
      var loaded := ParsedFile(lines);
      forall i | 1 <= i < |inventory|
        ensures loaded[i] == ([None] + inventory[1..])[i]
      {
        assert loaded[i] == Some(ParseLine(lines[i - 1]));
      }
      assert loaded == [None] + inventory[1..];
    }
  }

  /** The rows the inventory file is seeded with. */
  const SeedRecords: seq<Record> := [
    ["Vitamin C Serum", "Garnier", "200", "1000", "France"],
    ["Skin Cleanser", "Cetaphil", "100", "280", "Switzerland"],
    ["Sunscreen", "Aqualogica", "200", "700", "India"]
  ]

  /** No seed field holds a comma or a newline or starts or ends with a space. */
  lemma {:induction false} SeedRecord1Clean()
    ensures CleanRecord(SeedRecords[0])
  {
    assert SeedRecords[0] == ["Vitamin C Serum", "Garnier", "200", "1000", "France"];
    assert CleanText("Vitamin C Serum") && CleanText("Garnier") && CleanText("200") && CleanText("1000") && CleanText("France");
  }

  lemma {:induction false} SeedRecord2Clean()
    ensures CleanRecord(SeedRecords[1])
  {
    assert SeedRecords[1] == ["Skin Cleanser", "Cetaphil", "100", "280", "Switzerland"];
    assert CleanText("Skin Cleanser") && CleanText("Cetaphil") && CleanText("100") && CleanText("280") && CleanText("Switzerland");
  }

  lemma {:induction false} SeedRecord3Clean()
    ensures CleanRecord(SeedRecords[2])
  {
    assert SeedRecords[2] == ["Sunscreen", "Aqualogica", "200", "700", "India"];
    assert CleanText("Sunscreen") && CleanText("Aqualogica") && CleanText("200") && CleanText("700") && CleanText("India");
  }

  /** The seed rows are the lines update_inventory would write for the seed records. */
  lemma {:induction false} SeedLine1Joined()
    ensures SeedLines[0] == Join(SeedRecords[0]) + "\n"
  {
    assert Join(["Vitamin C Serum", "Garnier", "200", "1000", "France"]) == "Vitamin C Serum, Garnier, 200, 1000, France";
  }

  lemma {:induction false} SeedLine2Joined()
    ensures SeedLines[1] == Join(SeedRecords[1]) + "\n"
  {
    assert Join(["Skin Cleanser", "Cetaphil", "100", "280", "Switzerland"]) == "Skin Cleanser, Cetaphil, 100, 280, Switzerland";
  }

  lemma {:induction false} SeedLine3Joined()
    ensures SeedLines[2] == Join(SeedRecords[2]) + "\n"
  {
    assert Join(["Sunscreen", "Aqualogica", "200", "700", "India"]) == "Sunscreen, Aqualogica, 200, 700, India";
  }

  /** The catalogue the seed file loads as. */
  const SeedCatalogue: seq<Slot> := [None] + seq(3, i requires 0 <= i < 3 => Some(SeedRecords[i]))

  /** Loading the seed file gives the three seed products as ids 1 to 3. */
  lemma {:induction false} SeedFileParses()
    ensures ParsedFile(SeedLines) == SeedCatalogue
  {
    forall i | 0 <= i < 3
      ensures ParseLine(SeedLines[i]) == SeedRecords[i]
    {
      if i == 0 {
        SeedRecord1Clean();
        SeedLine1Joined();
      } else if i == 1 {
        SeedRecord2Clean();
        SeedLine2Joined();
      } else {
        SeedRecord3Clean();
        SeedLine3Joined();
      }
      LineRoundTrip(SeedRecords[i]);
    }
  }

  lemma {:induction false} SeedNumbers()
    ensures IntToString(200) == "200" && IntToString(1000) == "1000"
    ensures IntToString(188) == "188" && IntToString(150) == "150" && IntToString(250) == "250"
  {
    assert NatToString(2) == "2" && NatToString(1) == "1";
    assert NatToString(20) == "20" && NatToString(18) == "18" && NatToString(15) == "15" && NatToString(25) == "25";
    assert NatToString(10) == "10" && NatToString(100) == "100";
  }

  /** Selling 9 units of product 1 of the seed catalogue (cost 1000, stock 200):
      3 free units, unit price 3000, amount 27000, and 200 - 12 = 188 left. */
  lemma {:induction false} SeedSale()
    ensures var c := SeedCatalogue;
            SaleStep(c, SaleItem(1, 9)) ==
              Some(Step(c[1 := Some(["Vitamin C Serum", "Garnier", "188", "1000", "France"])],
                        SaleLine("Vitamin C Serum", "Garnier", 9, 3, 3000, 27000)))
  {
    var c := SeedCatalogue;
    assert c[1] == Some(SeedRecords[0]);
    SeedNumbers();
    ParseIntOfIntToString(200);
    ParseIntOfIntToString(1000);
    SaleStepOn(c, SaleItem(1, 9), 1, SeedRecords[0], 200, 1000);
    assert SeedRecords[0][QuantityField := "188"] == ["Vitamin C Serum", "Garnier", "188", "1000", "France"];
  }

  /** Restocking 50 units of product 1 at a new cost of 150: the cost field
      becomes "150", the stock 250, and the row is charged 50 * 150 = 7500. */
  lemma {:induction false} SeedRestock()
    ensures var c := SeedCatalogue;
            RestockStep(c, RestockItem(1, 50, Some(150))) ==
              Some(Step(c[1 := Some(["Vitamin C Serum", "Garnier", "250", "150", "France"])],
                        RestockLine("Vitamin C Serum", "Garnier", 50, 150, 7500)))
  {
    var c := SeedCatalogue;
    assert c[1] == Some(SeedRecords[0]);
    SeedNumbers();
    ParseIntOfIntToString(200);
    ParseIntOfIntToString(150);
    var revised := SeedRecords[0][CostField := "150"];
    RestockStepOn(c, RestockItem(1, 50, Some(150)), 1, SeedRecords[0], 200, revised, 150);
    assert revised[QuantityField := "250"] == ["Vitamin C Serum", "Garnier", "250", "150", "France"];
  }

  /** The price display_inventory shows for a product with all five fields is
      the unit price a sale of it charges: both apply the same markup to cost. */
  lemma {:induction false} DisplayMatchesSale(catalogue: seq<Slot>, item: SaleItem)
    requires SaleStep(catalogue, item).Some?
    requires |catalogue[ResolveIndex(|catalogue|, item.id).value].value| >= 5
    ensures DisplayedSellingPrice(catalogue[ResolveIndex(|catalogue|, item.id).value]) == Some(SaleStep(catalogue, item).value.line.price)
  {
    SaleStepEffect(catalogue, item);
  }
}
