/**
 * The order record an assembly returns: a name, the parts with their
 * costs in insertion order, and a total.
 */
module OrderRecord {
  import opened Wrappers

  /** A part label and its cost. */
  type Part = (string, real)

  /**
   * parts is None when the record carries no "Parts" entry at all; records
   * built by assembly always carry one.
   */
  datatype Order = Order(name: string, parts: Option<seq<Part>>, totalCost: real)

  /** Python's sum over the part costs: a left fold starting at 0. */
  function SumCosts(parts: seq<Part>): real
    decreases |parts|
  {
    if parts == [] then 0.0 else SumCosts(parts[..|parts| - 1]) + parts[|parts| - 1].1
  }

  /** The labels of the parts, in order. */
  function Labels(parts: seq<Part>): (r: seq<string>)
    ensures |r| == |parts|
    ensures forall i :: 0 <= i < |parts| ==> r[i] == parts[i].0
  {
    seq(|parts|, i requires 0 <= i < |parts| => parts[i].0)
  }

  /** A record whose total is the sum of its parts. */
  function MakeOrder(name: string, parts: seq<Part>): Order {
    Order(name, Some(parts), SumCosts(parts))
  }

  /** The total of a record is the sum of its parts' costs. */
  ghost predicate Consistent(o: Order) {
    o.parts.Some? && o.totalCost == SumCosts(o.parts.value)
  }
}
