/** The cart schema (src/models/cart.js): one cart per user, an ordered list of lines. */
module CartModel {
  import opened Ids

  /**
   * One line: its own subdocument id, the menu item and a quantity with no lower bound
   * in the schema.
   */
  datatype CartLine = CartLine(lineId: Id, menuItemId: Id, quantity: int)

  datatype Cart = Cart(userId: Id, items: seq<CartLine>)

  /** No two lines share a subdocument id. */
  predicate DistinctLineIds(lines: seq<CartLine>) {
    forall i, j :: 0 <= i < j < |lines| ==> lines[i].lineId != lines[j].lineId
  }

  /** Every line id was handed out before `bound`. */
  predicate LineIdsBelow(lines: seq<CartLine>, bound: nat) {
    forall i :: 0 <= i < |lines| ==> lines[i].lineId < bound
  }

  predicate WellFormedLines(lines: seq<CartLine>, bound: nat) {
    DistinctLineIds(lines) && LineIdsBelow(lines, bound)
  }
}
