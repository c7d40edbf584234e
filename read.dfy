/** Loading the catalogue (read.py): each line of the inventory file becomes a
    record by removing newlines, splitting on commas and trimming one space from
    each end of every field; slot 0 of the result is None. Also the seed rows
    written when the file is missing, and the selling price the inventory
    table shows. */
module Read {
  import opened Records
  import opened Pricing

  /** How many times c occurs in s. */
  function CountChar(s: string, c: char): nat
    decreases |s|
  {
    if s == [] then 0 else (if s[0] == c then 1 else 0) + CountChar(s[1..], c)
  }

  /** str.split(sep) for a one-character separator: the pieces between
      occurrences of sep, so there is always one piece more than separators. */
  function Split(s: string, sep: char): (parts: seq<string>)
    ensures |parts| == CountChar(s, sep) + 1
    ensures forall i :: 0 <= i < |parts| ==> sep !in parts[i]
    decreases |s|
  {
    if s == [] then [""]
    else
      var rest := Split(s[1..], sep);
      if s[0] == sep then [""] + rest
      else [[s[0]] + rest[0]] + rest[1..]
  }

  /** str.replace("\n", ""): every newline character dropped, the rest kept in order. */
  function RemoveNewlines(s: string): (r: string)
    ensures '\n' !in r
    ensures |r| <= |s|
    ensures '\n' !in s ==> r == s
    decreases |s|
  {
    if s == [] then []
    else (if s[0] == '\n' then [] else [s[0]]) + RemoveNewlines(s[1..])
  }

  /** The field loses at most one space at its front and at most one at its end. */
  ghost predicate TrimmedOnce(item: string, r: string) {
    r == item
    || (|item| >= 1 && item[0] == ' ' && r == item[1..])
    || (|item| >= 1 && item[|item| - 1] == ' ' && r == item[..|item| - 1])
    || (|item| >= 2 && item[0] == ' ' && item[|item| - 1] == ' ' && r == item[1..|item| - 1])
  }

  /** The cleaning read_inventory applies to one field. */
  function CleanField(item: string): (r: string)
    ensures TrimmedOnce(item, r)
    ensures item == "" ==> r == ""
    ensures |item| > 0 && item[0] == ' ' ==> |r| < |item|
    ensures |item| > 0 && item[|item| - 1] == ' ' ==> |r| < |item|
    ensures |item| >= 2 && item[0] == ' ' && item[|item| - 1] == ' ' ==> r == item[1..|item| - 1]
    ensures |item| > 0 && item[0] != ' ' && item[|item| - 1] != ' ' ==> r == item
  {
    var front := if |item| > 0 && item[0] == ' ' then item[1..] else item;
    if |front| > 0 && front[|front| - 1] == ' ' then front[..|front| - 1] else front
  }

  /** The record read_inventory makes of one line of the file. */
  function ParseLine(line: string): (fields: Record)
    ensures |fields| == CountChar(RemoveNewlines(line), ',') + 1
    ensures forall j :: 0 <= j < |fields| ==> TrimmedOnce(Split(RemoveNewlines(line), ',')[j], fields[j])
  {
    var parts := Split(RemoveNewlines(line), ',');
    seq(|parts|, j requires 0 <= j < |parts| => CleanField(parts[j]))
  }

  /** The catalogue a file with these lines loads as: None, then one record per line. */
  function ParsedFile(data: seq<string>): (inventory: seq<Slot>)
    ensures |inventory| == |data| + 1 && inventory[0] == None
    ensures forall i :: 1 <= i < |inventory| ==> inventory[i].Some?
  {
    [None] + seq(|data|, i requires 0 <= i < |data| => Some(ParseLine(data[i])))
  }

  /** The inner loop of read_inventory: every field of one split line cleaned. */
  method CleanFields(line: seq<string>) returns (cleanedLine: Record)
    ensures |cleanedLine| == |line|
    ensures forall m :: 0 <= m < |line| ==> cleanedLine[m] == CleanField(line[m])
  {
    cleanedLine := [];
    for j := 0 to |line|
      invariant |cleanedLine| == j
      invariant forall m :: 0 <= m < j ==> cleanedLine[m] == CleanField(line[m])
    {
      var item := line[j];
      if |item| > 0 && item[0] == ' ' {
        item := item[1..];
      }
      if |item| > 0 && item[|item| - 1] == ' ' {
        item := item[..|item| - 1];
      }
      cleanedLine := cleanedLine + [item];
    }
  }

  /** read_inventory on the lines `data` that readlines() returned. */
  method ReadInventory(data: seq<string>) returns (inventory: seq<Slot>)
    ensures inventory == ParsedFile(data)
    ensures forall i :: 1 <= i < |inventory| ==> inventory[i] == Some(ParseLine(data[i - 1]))
  {
    inventory := [None];
    for n := 0 to |data|
      invariant |inventory| == n + 1
      invariant inventory[0] == None
      invariant forall i :: 1 <= i <= n ==> inventory[i] == Some(ParseLine(data[i - 1]))
    {
      var line := Split(RemoveNewlines(data[n]), ',');
      var cleanedLine := CleanFields(line);
      assert cleanedLine == ParseLine(data[n]);
      inventory := inventory + [Some(cleanedLine)];
    }
    assert inventory == ParsedFile(data);
  }

  /** The rows create_inventory_file writes when the inventory file is missing. */
  const SeedLines: seq<string> := [
    "Vitamin C Serum, Garnier, 200, 1000, France\n",
    "Skin Cleanser, Cetaphil, 100, 280, Switzerland\n",
    "Sunscreen, Aqualogica, 200, 700, India\n"
  ]

  /** The selling price display_inventory shows for one slot, or None when the
      row raises and "Error displaying product" is printed instead. The row
      uses fields 0 to 4, so a record with fewer than five fields fails. */
  function DisplayedSellingPrice(slot: Slot): (price: Option<int>)
    ensures price.Some? ==> slot.Some? && |slot.value| >= 5
    ensures price.Some? ==> exists cost :: ParseInt(slot.value[CostField]) == Some(cost) && price.value == Markup * cost
    ensures slot.Some? && |slot.value| >= 5 && ParseInt(slot.value[CostField]).Some? ==> price.Some?
  {
    if slot.None? || |slot.value| < 5 then None
    else match ParseInt(slot.value[CostField])
      case None => None
      case Some(cost) => Some(SellingPrice(cost))
  }

  /** display_inventory's price column: one entry per slot 1 .. len-1; a row
      that fails does not stop the rows after it. */
  method DisplayInventory(inventory: seq<Slot>) returns (prices: seq<Option<int>>)
    ensures |prices| == if |inventory| == 0 then 0 else |inventory| - 1
    ensures forall i :: 1 <= i < |inventory| ==> prices[i - 1] == DisplayedSellingPrice(inventory[i])
  {
    prices := [];
    var i := 1;
    while i < |inventory|
      invariant 1 <= i <= if |inventory| == 0 then 1 else |inventory|
      invariant |prices| == i - 1
      invariant forall j :: 1 <= j < i ==> prices[j - 1] == DisplayedSellingPrice(inventory[j])
    {
      prices := prices + [DisplayedSellingPrice(inventory[i])];
      i := i + 1;
    }
  }
}
