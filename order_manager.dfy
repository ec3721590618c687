/**
 * order_manager.py: the order aggregator. It keeps the assembled records in
 * submission order with an incrementally maintained total, renders one
 * record as text, and renders the invoice text for all of them.
 *
 * Python's str() of a cost (an int or a float, depending on how the cost
 * was computed) is passed in as `show`.
 */
module OrderManagement {
  import opened Wrappers
  import opened OrderRecord
  import opened Text

  /** Python's sum of the records' TotalCost values, a left fold from 0. */
  function SumTotals(orders: seq<Order>): real
    decreases |orders|
  {
    if orders == [] then 0.0 else SumTotals(orders[..|orders| - 1]) + orders[|orders| - 1].totalCost
  }

  /** The total over two runs of orders is the sum of their totals. */
  lemma {:induction false} SumTotalsAppend(a: seq<Order>, b: seq<Order>)
    ensures SumTotals(a + b) == SumTotals(a) + SumTotals(b)
    decreases |b|
  {
    if b == [] {
      assert a + b == a;
    } else {
      var n := |b| - 1;
      assert (a + b)[..|a + b| - 1] == a + b[..n];
      SumTotalsAppend(a, b[..n]);
    }
  }

  /** The total does not depend on the order in which the records were added. */
  lemma {:induction false} SumTotalsPermutation(a: seq<Order>, b: seq<Order>)
    requires multiset(a) == multiset(b)
    ensures SumTotals(a) == SumTotals(b)
    decreases |a|
  {
    if a != [] {
      var n := |a| - 1;
      var last := a[n];
      assert a == a[..n] + [last];
      assert last in multiset(b);
      var j :| 0 <= j < |b| && b[j] == last;
      var rest := b[..j] + b[j + 1..];
      assert b == b[..j] + [b[j]] + b[j + 1..];
      assert multiset(a) == multiset(a[..n]) + multiset{last};
      assert multiset(b) == multiset(b[..j]) + multiset{b[j]} + multiset(b[j + 1..]);
      assert multiset(rest) == multiset(b[..j]) + multiset(b[j + 1..]);
      assert multiset(b) == multiset(rest) + multiset{last};
      MultisetCancel(multiset(a[..n]), multiset(rest), last);
      SumTotalsPermutation(a[..n], rest);
      SumTotalsAppend(b[..j] + [b[j]], b[j + 1..]);
      SumTotalsAppend(b[..j], [b[j]]);
      SumTotalsAppend(b[..j], b[j + 1..]);
      assert [b[j]][..0] == [];
    }
  }

  lemma MultisetCancel<T>(x: multiset<T>, y: multiset<T>, e: T)
    requires x + multiset{e} == y + multiset{e}
    ensures x == y
  {
    forall z
      ensures x[z] == y[z]
    {
      assert (x + multiset{e})[z] == (y + multiset{e})[z];
    }
  }

  // The literal text pieces of format_order and generate_invoice.

  /** What the line continuation inside the indexed header leaves before its newline. */
  const HeaderPadding: string := Repeat(' ', 21)
  const PartsTableHeading: string := "    Parts    |    Price "
  const NoPartsText: string := "    No parts details available."
  const InvoiceTitle: string := Repeat(' ', 11) + "INVOICE"
  const InvoiceRule: string := Repeat('=', 32)

  /** The header of a record: numbered and upper-cased in an invoice, the bare name otherwise. */
  function Header(order: Order, index: Option<int>): string {
    if index.Some? then
      "\n" + IndexedTitle(order, index.value) + "\n" + PartsTableHeading + "\n"
    else
      order.name + ":\n"
  }

  /** The numbered title line of a record in an invoice, with the name upper-cased. */
  function IndexedTitle(order: Order, index: int): string {
    IntToString(index) + ". Vehicle Type: " + Upper(order.name) + HeaderPadding
  }

  function PartLine(part: Part, show: real -> string): string {
    "    " + part.0 + ": " + show(part.1) + " SEK\n"
  }

  function PartLines(parts: seq<Part>, show: real -> string): (r: seq<string>) {
    seq(|parts|, k requires 0 <= k < |parts| => PartLine(parts[k], show))
  }

  function TotalLine(order: Order, show: real -> string): string {
    "    Total: " + show(order.totalCost) + " SEK\n"
  }

  /** Parts count as present when the record has a non-empty "Parts" entry. */
  predicate HasParts(order: Order) {
    order.parts.Some? && order.parts.value != []
  }

  /** format_order's list of pieces before they are joined. */
  function OrderPieces(order: Order, index: Option<int>, show: real -> string): seq<string> {
    [Header(order, index)]
    + (if HasParts(order) then PartLines(order.parts.value, show) else [NoPartsText + "\n"])
    + [TotalLine(order, show)]
  }

  /** The text format_order returns. */
  function RenderOrder(order: Order, index: Option<int>, show: real -> string): string {
    Concat(OrderPieces(order, index, show))
  }

  /** The header lines of a rendered record. */
  function HeaderLines(order: Order, index: Option<int>): seq<string> {
    if index.Some? then
      ["", IndexedTitle(order, index.value), PartsTableHeading]
    else
      [order.name + ":"]
  }

  /** The lines between header and total: one per part, or the note that there are none. */
  function BodyLines(order: Order, show: real -> string): seq<string> {
    if HasParts(order) then
      var parts := order.parts.value;
      seq(|parts|, k requires 0 <= k < |parts| => "    " + parts[k].0 + ": " + show(parts[k].1) + " SEK")
    else
      [NoPartsText]
  }

  /** All lines of a rendered record: header, body, and the Total line. */
  function OrderLines(order: Order, index: Option<int>, show: real -> string): seq<string> {
    HeaderLines(order, index) + BodyLines(order, show) + ["    Total: " + show(order.totalCost) + " SEK"]
  }

  /** No text that goes into the rendering of this record holds a newline. */
  predicate SingleLineFields(order: Order, show: real -> string) {
    && '\n' !in order.name
    && '\n' !in show(order.totalCost)
    && (order.parts.Some? ==>
          forall k :: 0 <= k < |order.parts.value| ==>
            '\n' !in order.parts.value[k].0 && '\n' !in show(order.parts.value[k].1))
  }

  /**
   * The lines of a rendered record: the header, then one line per part in
   * the record's order (or the single "No parts details available." line
   * when Parts is missing or empty), and always the Total line last.
   */
  lemma RenderedLines(order: Order, index: Option<int>, show: real -> string)
    requires SingleLineFields(order, show)
    ensures Lines(RenderOrder(order, index, show))
         == HeaderLines(order, index) + BodyLines(order, show)
            + ["    Total: " + show(order.totalCost) + " SEK"]
    ensures Terminated(RenderOrder(order, index, show))
  {
    var pieces := OrderPieces(order, index, show);
    var body := BodyLines(order, show);
    var last := "    Total: " + show(order.totalCost) + " SEK";
    var bodyGroups := seq(|body|, k requires 0 <= k < |body| => [body[k]]);
    var groups := [HeaderLines(order, index)] + bodyGroups + [[last]];
    PiecesAsLines(order, index, show);
    ConcatOfUnlines(pieces, groups);
    FlattenSingletons(HeaderLines(order, index), bodyGroups, body, last);
    RenderedLinesAreSingle(order, index, show);
    LinesOfUnlines(HeaderLines(order, index) + body + [last]);
    UnlinesTerminated(HeaderLines(order, index) + body + [last]);
  }

  /** Each piece format_order joins is a block of whole lines. */
  lemma PiecesAsLines(order: Order, index: Option<int>, show: real -> string)
    ensures var pieces := OrderPieces(order, index, show);
      var body := BodyLines(order, show);
      var groups := [HeaderLines(order, index)] + seq(|body|, k requires 0 <= k < |body| => [body[k]])
                    + [["    Total: " + show(order.totalCost) + " SEK"]];
      |pieces| == |groups| && forall k :: 0 <= k < |pieces| ==> pieces[k] == Unlines(groups[k])
  {
    var pieces := OrderPieces(order, index, show);
    var body := BodyLines(order, show);
    var groups := [HeaderLines(order, index)] + seq(|body|, k requires 0 <= k < |body| => [body[k]])
                  + [["    Total: " + show(order.totalCost) + " SEK"]];
    forall k | 0 <= k < |pieces|
      ensures pieces[k] == Unlines(groups[k])
    {
      if k == 0 {
        HeaderAsLines(order, index);
      } else {
        OneLine(groups[k][0]);
      }
    }
  }

  /** The header is its header lines, each ended by a newline. */
  lemma HeaderAsLines(order: Order, index: Option<int>)
    ensures Header(order, index) == Unlines(HeaderLines(order, index))
  {
    if index.Some? {
      BlankThenTwoLines(IndexedTitle(order, index.value), PartsTableHeading);
    } else {
      OneLine(order.name + ":");
    }
  }

  lemma BlankThenTwoLines(b: string, c: string)
    ensures Unlines(["", b, c]) == "\n" + b + "\n" + c + "\n"
  {
    var ls := ["", b, c];
    assert ls[..2] == ["", b];
    assert ["", b][..1] == [""];
    assert [""][..0] == [];
    assert Unlines([""]) == "\n";
    assert Unlines(["", b]) == "\n" + b + "\n";
    assert Unlines(ls) == Unlines(["", b]) + c + "\n";
  }

  lemma OneLine(t: string)
    ensures Unlines([t]) == t + "\n"
  {
    assert [t][..0] == [];
  }

  /** None of the lines of a rendered record holds a newline. */
  lemma RenderedLinesAreSingle(order: Order, index: Option<int>, show: real -> string)
    requires SingleLineFields(order, show)
    ensures var lines := HeaderLines(order, index) + BodyLines(order, show)
                         + ["    Total: " + show(order.totalCost) + " SEK"];
      forall k :: 0 <= k < |lines| ==> '\n' !in lines[k]
  {
    var head, body := HeaderLines(order, index), BodyLines(order, show);
    var last := "    Total: " + show(order.totalCost) + " SEK";
    HeaderLinesAreSingle(order, index);
    BodyLinesAreSingle(order, show);
    assert '\n' !in last;
    var lines := head + body + [last];
    forall k | 0 <= k < |lines|
      ensures '\n' !in lines[k]
    {
      if k < |head| {
        assert lines[k] == head[k];
      } else if k < |head| + |body| {
        assert lines[k] == body[k - |head|];
      }
    }
  }

  lemma HeaderLinesAreSingle(order: Order, index: Option<int>)
    requires '\n' !in order.name
    ensures forall k :: 0 <= k < |HeaderLines(order, index)| ==> '\n' !in HeaderLines(order, index)[k]
  {
    if index.Some? {
      TitleIsSingle(order, index.value);
      HeadingIsSingle();
    }
  }

  lemma TitleIsSingle(order: Order, index: int)
    requires '\n' !in order.name
    ensures '\n' !in IndexedTitle(order, index)
  {
    var digits, upper := IntToString(index), Upper(order.name);
    assert '\n' !in ". Vehicle Type: ";
    assert '\n' !in HeaderPadding;
    assert IndexedTitle(order, index) == digits + ". Vehicle Type: " + upper + HeaderPadding;
  }

  lemma HeadingIsSingle()
    ensures '\n' !in PartsTableHeading
  {
  }

  lemma BodyLinesAreSingle(order: Order, show: real -> string)
    requires SingleLineFields(order, show)
    ensures forall k :: 0 <= k < |BodyLines(order, show)| ==> '\n' !in BodyLines(order, show)[k]
  {
    if HasParts(order) {
      var parts := order.parts.value;
      forall k | 0 <= k < |parts|
        ensures '\n' !in BodyLines(order, show)[k]
      {
        assert BodyLines(order, show)[k] == "    " + parts[k].0 + ": " + show(parts[k].1) + " SEK";
      }
    }
  }

  /** Flattening a header group, one group per body line and a final group. */
  lemma FlattenSingletons(head: seq<string>, bodyGroups: seq<seq<string>>, body: seq<string>, last: string)
    requires |bodyGroups| == |body|
    requires forall k :: 0 <= k < |body| ==> bodyGroups[k] == [body[k]]
    ensures Flatten([head] + bodyGroups + [[last]]) == head + body + [last]
    decreases |body|
  {
    var all := [head] + bodyGroups + [[last]];
    assert all[..|all| - 1] == [head] + bodyGroups;
    FlattenBody(head, bodyGroups, body);
  }

  lemma {:induction false} FlattenBody(head: seq<string>, bodyGroups: seq<seq<string>>, body: seq<string>)
    requires |bodyGroups| == |body|
    requires forall k :: 0 <= k < |body| ==> bodyGroups[k] == [body[k]]
    ensures Flatten([head] + bodyGroups) == head + body
    decreases |body|
  {
    var all := [head] + bodyGroups;
    if body == [] {
      assert all == [head];
      assert all[..0] == [];
    } else {
      var n := |body| - 1;
      assert all[..|all| - 1] == [head] + bodyGroups[..n];
      FlattenBody(head, bodyGroups[..n], body[..n]);
      assert body[..n] + [body[n]] == body;
    }
  }

  /** The invoice's orders, each rendered with its 1-based position. */
  function InvoiceBody(orders: seq<Order>, show: real -> string): string
    decreases |orders|
  {
    if orders == [] then ""
    else InvoiceBody(orders[..|orders| - 1], show) + RenderOrder(orders[|orders| - 1], Some(|orders|), show)
  }

  /** The title and rule lines of the invoice. */
  function InvoiceHead(): string {
    InvoiceTitle + "\n" + InvoiceRule + "\n"
  }

  /** The grand total line of the invoice. */
  function TotalCostLine(total: real, show: real -> string): string {
    "Total Cost: " + show(total) + " SEK" + "\n"
  }

  /** The text generate_invoice writes for these orders and this grand total. */
  function Invoice(orders: seq<Order>, total: real, show: real -> string): string {
    InvoiceHead() + InvoiceBody(orders, show) + "\n" + TotalCostLine(total, show)
  }

  /** Rendering one more order adds its text, numbered by its position, at the end. */
  lemma InvoiceBodyStep(orders: seq<Order>, i: nat, show: real -> string)
    requires i < |orders|
    ensures InvoiceBody(orders[..i + 1], show) == InvoiceBody(orders[..i], show) + RenderOrder(orders[i], Some(i + 1), show)
  {
    assert orders[..i + 1][..i] == orders[..i];
  }

  /** Each order rendered with its 1-based position in the list. */
  function NumberedRenderings(orders: seq<Order>, show: real -> string): (r: seq<string>)
    ensures |r| == |orders|
    ensures forall k :: 0 <= k < |orders| ==> r[k] == RenderOrder(orders[k], Some(k + 1), show)
  {
    seq(|orders|, k requires 0 <= k < |orders| => RenderOrder(orders[k], Some(k + 1), show))
  }

  /** The invoice body joins the orders rendered in insertion order and numbered 1 to n. */
  lemma {:induction false} InvoiceBodyNumbered(orders: seq<Order>, show: real -> string)
    ensures InvoiceBody(orders, show) == Concat(NumberedRenderings(orders, show))
    decreases |orders|
  {
    if orders != [] {
      var n := |orders| - 1;
      var pieces := NumberedRenderings(orders, show);
      InvoiceBodyNumbered(orders[..n], show);
      assert pieces[..n] == NumberedRenderings(orders[..n], show);
      assert Concat(pieces) == Concat(pieces[..n]) + pieces[n];
    }
  }

  /** The lines of each order of the invoice, numbered 1 to n, one after another. */
  function InvoiceOrderLines(orders: seq<Order>, show: real -> string): seq<string>
    decreases |orders|
  {
    if orders == [] then []
    else InvoiceOrderLines(orders[..|orders| - 1], show) + OrderLines(orders[|orders| - 1], Some(|orders|), show)
  }

  /** The lines of the invoice body are the lines of each numbered order in turn. */
  lemma {:induction false} InvoiceBodyLines(orders: seq<Order>, show: real -> string)
    requires forall k :: 0 <= k < |orders| ==> SingleLineFields(orders[k], show)
    ensures Terminated(InvoiceBody(orders, show))
    ensures Lines(InvoiceBody(orders, show)) == InvoiceOrderLines(orders, show)
    decreases |orders|
  {
    if orders != [] {
      var n := |orders| - 1;
      var init, rendered := InvoiceBody(orders[..n], show), RenderOrder(orders[n], Some(n + 1), show);
      InvoiceBodyLines(orders[..n], show);
      RenderedLines(orders[n], Some(n + 1), show);
      LinesAppend(init, rendered);
      TerminatedAppend(init, rendered);
    }
  }

  /**
   * The layout of the invoice: the title and rule lines, then the lines of
   * each order numbered 1 to n in insertion order, then a blank line and the
   * grand total line.
   */
  lemma InvoiceLines(orders: seq<Order>, total: real, show: real -> string)
    requires forall k :: 0 <= k < |orders| ==> SingleLineFields(orders[k], show)
    requires '\n' !in show(total)
    ensures Lines(Invoice(orders, total, show))
         == [InvoiceTitle, InvoiceRule] + InvoiceOrderLines(orders, show)
            + ["", "Total Cost: " + show(total) + " SEK"]
  {
    var last := "Total Cost: " + show(total) + " SEK";
    GrandTotalIsSingle(total, show);
    var head, body := InvoiceHead(), InvoiceBody(orders, show);
    assert Invoice(orders, total, show) == head + body + "\n" + (last + "\n");
    InvoiceHeadLines();
    InvoiceBodyLines(orders, show);
    LinesOfLayout(head, body, last, [InvoiceTitle, InvoiceRule], InvoiceOrderLines(orders, show));
  }

  lemma GrandTotalIsSingle(total: real, show: real -> string)
    requires '\n' !in show(total)
    ensures '\n' !in "Total Cost: " + show(total) + " SEK"
  {
  }

  lemma InvoiceHeadLines()
    ensures Terminated(InvoiceHead())
    ensures Lines(InvoiceHead()) == [InvoiceTitle, InvoiceRule]
  {
    assert '\n' !in InvoiceTitle;
    assert '\n' !in InvoiceRule;
    TwoLines(InvoiceTitle, InvoiceRule);
    LinesOfUnlines([InvoiceTitle, InvoiceRule]);
  }

  /** Adding orders leaves the text already rendered for the earlier ones unchanged. */
  lemma {:induction false} InvoiceBodyExtends(orders: seq<Order>, more: seq<Order>, show: real -> string)
    ensures var before := InvoiceBody(orders, show);
      before <= InvoiceBody(orders + more, show)
    decreases |more|
  {
    if more == [] {
      assert orders + more == orders;
    } else {
      var n := |more| - 1;
      assert (orders + more)[..|orders + more| - 1] == orders + more[..n];
      InvoiceBodyExtends(orders, more[..n], show);
    }
  }

  /** The aggregator: the records in submission order and their running total. */
  class OrderManager {
    var orders: seq<Order>
    var totalCost: real

    /** The running total is the sum of the records' totals. */
    ghost predicate Valid()
      reads this
    {
      totalCost == SumTotals(orders)
    }

    /** A new manager: no orders, total 0. */
    constructor ()
      ensures Valid() && orders == [] && totalCost == 0.0
    {
      orders := [];
      totalCost := 0.0;
    }

    /**
     * add_order: appends the record at the end and adds its total; nothing
     * is deduplicated, so an identical record counts again.
     */
    method AddOrder(order: Order)
      requires Valid()
      modifies this
      ensures Valid()
      ensures orders == old(orders) + [order]
      ensures totalCost == old(totalCost) + order.totalCost
    {
      orders := orders + [order];
      totalCost := totalCost + order.totalCost;
      assert orders[..|orders| - 1] == old(orders);
    }

    /** get_total_cost: the sum of the totals of every record added so far. */
    function GetTotalCost(): (r: real)
      requires Valid()
      reads this
      ensures r == SumTotals(orders)
    {
      totalCost
    }

    /** get_total_orders: how many records were added. */
    function GetTotalOrders(): (r: nat)
      reads this
      ensures r == |orders|
    {
      |orders|
    }

    /** format_order: the header, one line per part, then the Total line, joined. */
    method FormatOrder(order: Order, index: Option<int>, show: real -> string) returns (s: string)
      ensures s == RenderOrder(order, index, show)
    {
      var pieces: seq<string> := [Header(order, index)];
      if HasParts(order) {
        var parts := order.parts.value;
        for i := 0 to |parts|
          invariant pieces == [Header(order, index)] + PartLines(parts[..i], show)
        {
          assert PartLines(parts[..i + 1], show) == PartLines(parts[..i], show) + [PartLine(parts[i], show)];
          pieces := pieces + [PartLine(parts[i], show)];
        }
        assert parts[..|parts|] == parts;
      } else {
        pieces := pieces + [NoPartsText + "\n"];
      }
      pieces := pieces + [TotalLine(order, show)];
      s := Concat(pieces);
    }

    /**
     * The text generate_invoice writes: title and rule, every record rendered
     * with its 1-based position, a blank line, then the grand total. It reads
     * the state and changes nothing, so regenerating it gives the same text.
     */
    method GenerateInvoice(show: real -> string) returns (text: string)
      ensures text == Invoice(orders, totalCost, show)
    {
      text := InvoiceTitle + "\n";
      text := text + InvoiceRule + "\n";
      for i := 0 to |orders|
        invariant text == InvoiceHead() + InvoiceBody(orders[..i], show)
      {
        var s := FormatOrder(orders[i], Some(i + 1), show);
        InvoiceBodyStep(orders, i, show);
        AppendAssoc(InvoiceHead(), InvoiceBody(orders[..i], show), s);
        text := text + s;
      }
      assert orders[..|orders|] == orders;
      text := text + "\n";
      text := text + TotalCostLine(totalCost, show);
    }
  }

  /** Adding the same record twice counts it twice: nothing is deduplicated. */
  method AddTwice(m: OrderManager, order: Order)
    requires m.Valid()
    modifies m
    ensures m.Valid()
    ensures m.orders == old(m.orders) + [order, order]
    ensures m.totalCost == old(m.totalCost) + 2.0 * order.totalCost
  {
    m.AddOrder(order);
    m.AddOrder(order);
  }

  /** Regenerating the invoice with no new orders gives the same text. */
  method InvoiceIsRepeatable(m: OrderManager, show: real -> string) returns (first: string, second: string)
    ensures first == second
    ensures first == Invoice(m.orders, m.totalCost, show)
  {
    first := m.GenerateInvoice(show);
    second := m.GenerateInvoice(show);
  }

  /** A manager's invoice ends with the sum of all record totals. */
  lemma InvoiceGrandTotal(orders: seq<Order>, total: real, show: real -> string)
    requires total == SumTotals(orders)
    ensures var text := Invoice(orders, total, show);
      var tail := TotalCostLine(SumTotals(orders), show);
      |tail| <= |text| && text[|text| - |tail|..] == tail
  {
  }
}
