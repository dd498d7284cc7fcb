/**
 * The database behind the controllers: one collection per model, each a map from
 * document id to document, and the ObjectId generator.
 */
module Store {
  import opened Ids
  import opened CartModel
  import opened OrderModel
  import opened MenuModel
  import opened UserModel

  /** An order as every handler leaves it: its total matches its lines and it never failed. */
  predicate LedgerEntry(o: Order) {
    o.totalPrice == LinesTotal(o.items) && o.paymentStatus != Failed
  }

  /** Once an order is paid it stays in the collection and stays paid. */
  predicate PaidKept(before: map<Id, Order>, after: map<Id, Order>) {
    forall k :: k in before && before[k].paymentStatus == Paid ==> k in after && after[k].paymentStatus == Paid
  }

  class Store {
    /** Carts keyed by `userId` (at most one per user). */
    var carts: map<Id, Cart>
    var orders: map<Id, Order>
    var menu: map<Id, MenuItem>
    var users: map<Id, User>
    /** Every id handed out so far is below `nextId`. */
    var nextId: nat

    ghost predicate Valid()
      reads this
      ensures Valid() ==> nextId !in orders && nextId !in menu
      ensures Valid() ==> forall u, k :: u in carts && 0 <= k < |carts[u].items| ==> carts[u].items[k].lineId != nextId
    {
      && (forall u :: u in carts ==> carts[u].userId == u && WellFormedLines(carts[u].items, nextId))
      && (forall k :: k in orders ==> k < nextId && LedgerEntry(orders[k]))
      && (forall k :: k in menu ==> k < nextId)
    }

    constructor ()
      ensures Valid()
      ensures carts == map[] && orders == map[] && menu == map[] && users == map[] && nextId == 0
    {
      carts, orders, menu, users, nextId := map[], map[], map[], map[], 0;
    }

    /** A fresh ObjectId, larger than every id handed out before. */
    method FreshId() returns (id: Id)
      requires Valid()
      modifies this`nextId
      ensures Valid()
      ensures id == old(nextId) && nextId == id + 1
    {
      id := nextId;
      nextId := nextId + 1;
    }
  }
}
