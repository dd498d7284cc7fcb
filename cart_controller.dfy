/**
 * The cart handlers (src/controllers/cartController.js): add with merge, set a line's
 * quantity, remove one line, clear. Each works on the `items` list of the user's cart.
 */
module CartController {
  import opened Wrappers
  import opened Ids
  import opened Errors
  import opened Http
  import opened CartModel
  import opened MenuModel
  import opened Store

  /** One element of the submitted `items` array; `menuItemId` may be left out (`None`). */
  datatype SubmittedItem = SubmittedItem(menuItemId: Option<RequestId>, quantity: int)

  /** A submitted item whose menu item exists in the catalog. */
  datatype Request = Request(menuItemId: Id, quantity: int)

  /**
   * The shape of `req.body.items`: missing, an array, an object whose own `items`
   * property has the given shape, or any other value.
   */
  datatype ItemsField = Missing | Array(elems: seq<SubmittedItem>) | Object(inner: ItemsField) | Scalar

  /** `{items: {items: [...]}}` is unwrapped once; anything that is then not an array is refused. */
  function UnwrapItems(f: ItemsField): (r: Option<seq<SubmittedItem>>)
    ensures r.Some? <==> f.Array? || (f.Object? && f.inner.Array?)
    ensures f.Array? ==> r == Some(f.elems)
    ensures f.Object? && f.inner.Array? ==> r == Some(f.inner.elems)
  {
    match f
    case Array(xs) => Some(xs)
    case Object(Array(xs)) => Some(xs)
    case _ => None
  }

  /** No submitted id fails the ObjectId cast; a left-out id is no cast at all (`findById(undefined)`). */
  predicate AllWellFormed(items: seq<SubmittedItem>) {
    forall k :: 0 <= k < |items| ==> items[k].menuItemId != None ==> items[k].menuItemId.value.Valid?
  }

  /** The submitted item names a menu item of the catalog. */
  predicate Listed(item: SubmittedItem, menu: map<Id, MenuItem>) {
    item.menuItemId.Some? && item.menuItemId.value.Valid? && item.menuItemId.value.id in menu
  }

  predicate AllInCatalog(items: seq<SubmittedItem>, menu: map<Id, MenuItem>) {
    forall k :: 0 <= k < |items| ==> Listed(items[k], menu)
  }

  /** The index of the first submitted item whose lookup finds nothing: no id, or an id not in the catalog. */
  function FirstMissing(items: seq<SubmittedItem>, menu: map<Id, MenuItem>): (r: Option<nat>)
    ensures r.None? <==> AllInCatalog(items, menu)
    ensures r.Some? ==> r.value < |items| && !Listed(items[r.value], menu)
    ensures r.Some? ==> forall k :: 0 <= k < r.value ==> Listed(items[k], menu)
  {
    if items == [] then None
    else if !Listed(items[0], menu) then Some(0)
    else match FirstMissing(items[1..], menu)
      case None => None
      case Some(i) => Some(i + 1)
  }

  /** How the template literal of line 71 shows a submitted id: a left-out one as `undefined`. */
  function Shown(id: Option<RequestId>): (r: string)
    ensures id.None? ==> r == "undefined"
    ensures id.Some? && id.value.Valid? ==> r == IdText(id.value.id)
  {
    match id
    case None => "undefined"
    case Some(Valid(k)) => IdText(k)
    case Some(Malformed(raw)) => raw
  }

  function AsRequests(items: seq<SubmittedItem>, menu: map<Id, MenuItem>): (r: seq<Request>)
    requires AllInCatalog(items, menu)
    ensures |r| == |items|
    ensures forall k :: 0 <= k < |r| ==> r[k] == Request(items[k].menuItemId.value.id, items[k].quantity)
  {
    seq(|items|, k requires 0 <= k < |items| => Request(items[k].menuItemId.value.id, items[k].quantity))
  }

  /** How the request body is judged before any cart is read. */
  datatype ItemsCheck = Refused(outcome: Outcome) | Accepted(reqs: seq<Request>)

  /**
   * Lines 56-72: unwrap and shape check (400), then every `Menu.findById`: a malformed id
   * makes `Promise.all` reject with a CastError (400), otherwise the first missing item is
   * reported (404).
   */
  function CheckItems(payload: ItemsField, menu: map<Id, MenuItem>): (r: ItemsCheck)
    ensures r.Refused? ==> !r.outcome.Continue?
    ensures UnwrapItems(payload).None? ==> r.Refused? && Status(r.outcome) == 400
    ensures UnwrapItems(payload).Some? && !AllWellFormed(UnwrapItems(payload).value) ==>
      r.Refused? && Status(r.outcome) == 400 && r.outcome == Next(CastError())
    ensures UnwrapItems(payload).Some? && AllWellFormed(UnwrapItems(payload).value) && !AllInCatalog(UnwrapItems(payload).value, menu) ==>
      r.Refused? && Status(r.outcome) == 404
    ensures r.Accepted? <==>
      UnwrapItems(payload).Some? && AllWellFormed(UnwrapItems(payload).value) && AllInCatalog(UnwrapItems(payload).value, menu)
    ensures r.Accepted? ==> r.reqs == AsRequests(UnwrapItems(payload).value, menu)
  {
    match UnwrapItems(payload)
    case None => Refused(Fail(400, "Invalid items format"))
    case Some(items) =>
      if !AllWellFormed(items) then Refused(Next(CastError()))
      else match FirstMissing(items, menu)
        case Some(i) => Refused(Fail(404, "Menu item with ID " + Shown(items[i].menuItemId) + " not found"))
        case None => Accepted(AsRequests(items, menu))
  }

  /**
   * An entry without `menuItemId`: `findById(undefined)` finds nothing, so when no id is
   * malformed and every earlier entry is listed, the answer is 404 naming `undefined`.
   */
  lemma LeftOutIdReported(items: seq<SubmittedItem>, i: nat, menu: map<Id, MenuItem>)
    requires AllWellFormed(items)
    requires i < |items| && items[i].menuItemId.None?
    requires forall k :: 0 <= k < i ==> Listed(items[k], menu)
    ensures CheckItems(Array(items), menu) == Refused(Fail(404, "Menu item with ID undefined not found"))
  {
    var j := FirstMissing(items, menu);
    assert j == Some(i) by {
      assert !Listed(items[i], menu);
    }
    assert Shown(items[i].menuItemId) == "undefined";
  }

  /** `lines.findIndex(p)` (and `find`): the first line satisfying `p`. */
  function FindFirst(lines: seq<CartLine>, p: CartLine -> bool): (r: Option<nat>)
    ensures r.Some? ==> r.value < |lines| && p(lines[r.value])
    ensures r.Some? ==> forall k :: 0 <= k < r.value ==> !p(lines[k])
    ensures r.None? ==> forall k :: 0 <= k < |lines| ==> !p(lines[k])
  {
    if lines == [] then None
    else if p(lines[0]) then Some(0)
    else match FindFirst(lines[1..], p)
      case None => None
      case Some(i) => Some(i + 1)
  }

  /**
   * One step of the `forEach` at line 80: add to the first line for the same menu item,
   * or push a new line with the next fresh subdocument id.
   */
  function MergeOne(lines: seq<CartLine>, q: Request, next: nat): (r: (seq<CartLine>, nat))
    ensures r.1 == next <==> exists k :: 0 <= k < |lines| && lines[k].menuItemId == q.menuItemId
    ensures r.1 == next ==> exists i ::
      && 0 <= i < |lines| && lines[i].menuItemId == q.menuItemId
      && (forall k :: 0 <= k < i ==> lines[k].menuItemId != q.menuItemId)
      && r.0 == lines[i := lines[i].(quantity := lines[i].quantity + q.quantity)]
    ensures r.1 != next ==> r.1 == next + 1 && r.0 == lines + [CartLine(next, q.menuItemId, q.quantity)]
  {
    match FindFirst(lines, (l: CartLine) => l.menuItemId == q.menuItemId)
    case Some(i) => (lines[i := lines[i].(quantity := lines[i].quantity + q.quantity)], next)
    case None => (lines + [CartLine(next, q.menuItemId, q.quantity)], next + 1)
  }

  /** The whole `forEach`: the submitted items merged into an existing cart in order. */
  function MergeAll(lines: seq<CartLine>, reqs: seq<Request>, next: nat): (r: (seq<CartLine>, nat))
    ensures next <= r.1 <= next + |reqs|
    ensures |r.0| == |lines| + (r.1 - next)
    decreases |reqs|
  {
    if reqs == [] then (lines, next)
    else
      var step := MergeOne(lines, reqs[0], next);
      MergeAll(step.0, reqs[1..], step.1)
  }

  /** `new Cart({userId, items})`: one line per submitted item, in order, each with a fresh id. */
  function NewLines(reqs: seq<Request>, next: nat): (r: seq<CartLine>)
    ensures |r| == |reqs|
    ensures forall k :: 0 <= k < |r| ==> r[k] == CartLine(next + k, reqs[k].menuItemId, reqs[k].quantity)
  {
    seq(|reqs|, k requires 0 <= k < |reqs| => CartLine(next + k, reqs[k].menuItemId, reqs[k].quantity))
  }

  /** The loop of lines 80-83 over the cart's `items`. */
  method MergeItems(lines: seq<CartLine>, reqs: seq<Request>, next: nat) returns (merged: seq<CartLine>, after: nat)
    ensures (merged, after) == MergeAll(lines, reqs, next)
    ensures |merged| >= |lines| && after >= next
    ensures forall k :: 0 <= k < |lines| ==> merged[k].lineId == lines[k].lineId && merged[k].menuItemId == lines[k].menuItemId
  {
    merged, after := lines, next;
    var i := 0;
    while i < |reqs|
      invariant 0 <= i <= |reqs|
      invariant MergeAll(merged, reqs[i..], after) == MergeAll(lines, reqs, next)
    {
      var existing := FindFirst(merged, (l: CartLine) => l.menuItemId == reqs[i].menuItemId);
      if existing.Some? {
        var j := existing.value;
        merged := merged[j := merged[j].(quantity := merged[j].quantity + reqs[i].quantity)];
      } else {
        merged := merged + [CartLine(after, reqs[i].menuItemId, reqs[i].quantity)];
        after := after + 1;
      }
      assert reqs[i..][1..] == reqs[i + 1..];
      i := i + 1;
    }
    MergeKeepsExisting(lines, reqs, next);
  }

  // ---------------------------------------------------------------------------
  // What merging promises

  /** Merging keeps every existing line where it was, with its id and menu item. */
  lemma {:induction false} MergeKeepsExisting(lines: seq<CartLine>, reqs: seq<Request>, next: nat)
    ensures var (r, n) := MergeAll(lines, reqs, next);
      |r| >= |lines| && n >= next &&
      forall k :: 0 <= k < |lines| ==> r[k].lineId == lines[k].lineId && r[k].menuItemId == lines[k].menuItemId
    decreases |reqs|
  {
    if reqs != [] {
      var step := MergeOne(lines, reqs[0], next);
      MergeKeepsExisting(step.0, reqs[1..], step.1);
    }
  }

  /** Fresh ids keep the line ids distinct and below the generator. */
  lemma {:induction false} MergeWellFormed(lines: seq<CartLine>, reqs: seq<Request>, next: nat)
    requires WellFormedLines(lines, next)
    ensures WellFormedLines(MergeAll(lines, reqs, next).0, MergeAll(lines, reqs, next).1)
    decreases |reqs|
  {
    if reqs != [] {
      var step := MergeOne(lines, reqs[0], next);
      assert WellFormedLines(step.0, step.1);
      MergeWellFormed(step.0, reqs[1..], step.1);
    }
  }

  /** The number of lines for menu item `m`. */
  function LineCount(lines: seq<CartLine>, m: Id): nat {
    if lines == [] then 0 else (if lines[0].menuItemId == m then 1 else 0) + LineCount(lines[1..], m)
  }

  /** Whether some request names menu item `m`. */
  predicate Requested(reqs: seq<Request>, m: Id) {
    exists j :: 0 <= j < |reqs| && reqs[j].menuItemId == m
  }

  lemma {:induction false} LineCountAppend(lines: seq<CartLine>, x: CartLine, m: Id)
    ensures LineCount(lines + [x], m) == LineCount(lines, m) + (if x.menuItemId == m then 1 else 0)
  {
    if lines != [] {
      assert (lines + [x])[1..] == lines[1..] + [x];
      LineCountAppend(lines[1..], x, m);
    }
  }

  lemma {:induction false} LineCountUpdate(lines: seq<CartLine>, i: nat, x: CartLine, m: Id)
    requires i < |lines| && x.menuItemId == lines[i].menuItemId
    ensures LineCount(lines[i := x], m) == LineCount(lines, m)
  {
    if i == 0 {
      assert lines[i := x][1..] == lines[1..];
    } else {
      assert lines[i := x][1..] == lines[1..][i - 1 := x];
      LineCountUpdate(lines[1..], i - 1, x, m);
    }
  }

  lemma {:induction false} LineCountAbsent(lines: seq<CartLine>, m: Id)
    requires forall k :: 0 <= k < |lines| ==> lines[k].menuItemId != m
    ensures LineCount(lines, m) == 0
  {
    if lines != [] {
      LineCountAbsent(lines[1..], m);
    }
  }

  lemma MergeOneCount(lines: seq<CartLine>, q: Request, next: nat, m: Id)
    ensures LineCount(MergeOne(lines, q, next).0, m) ==
      if LineCount(lines, m) == 0 && q.menuItemId == m then 1 else LineCount(lines, m)
  {
    var p := (l: CartLine) => l.menuItemId == q.menuItemId;
    match FindFirst(lines, p)
    case Some(i) =>
      LineCountUpdate(lines, i, lines[i].(quantity := lines[i].quantity + q.quantity), m);
      if q.menuItemId == m {
        LineCountPositive(lines, i, m);
      }
    case None =>
      LineCountAppend(lines, CartLine(next, q.menuItemId, q.quantity), m);
      if q.menuItemId == m {
        LineCountAbsent(lines, m);
      }
  }

  lemma {:induction false} LineCountPositive(lines: seq<CartLine>, i: nat, m: Id)
    requires i < |lines| && lines[i].menuItemId == m
    ensures LineCount(lines, m) > 0
  {
    if i > 0 {
      LineCountPositive(lines[1..], i - 1, m);
    }
  }

  /**
   * Merging never adds a second line for a menu item: an item already in the cart keeps
   * its number of lines, and an item new to the cart gets exactly one line however often
   * it was submitted.
   */
  lemma {:induction false} MergeNeverDuplicates(lines: seq<CartLine>, reqs: seq<Request>, next: nat, m: Id)
    ensures LineCount(MergeAll(lines, reqs, next).0, m) ==
      if LineCount(lines, m) == 0 && Requested(reqs, m) then 1 else LineCount(lines, m)
    decreases |reqs|
  {
    if reqs != [] {
      var step := MergeOne(lines, reqs[0], next);
      MergeOneCount(lines, reqs[0], next, m);
      MergeNeverDuplicates(step.0, reqs[1..], step.1, m);
      if Requested(reqs, m) && reqs[0].menuItemId != m {
        var j :| 0 <= j < |reqs| && reqs[j].menuItemId == m;
        assert reqs[1..][j - 1].menuItemId == m;
      }
      if Requested(reqs[1..], m) {
        var j :| 0 <= j < |reqs[1..]| && reqs[1..][j].menuItemId == m;
        assert reqs[j + 1].menuItemId == m;
      }
    }
  }

  /** `filter == None` selects every line; `Some(m)` the lines for menu item `m`. */
  predicate Selects(filter: Option<Id>, m: Id) {
    filter.None? || filter.value == m
  }

  /** The summed quantity of the selected lines. */
  function Quantity(lines: seq<CartLine>, filter: Option<Id>): int {
    if lines == [] then 0
    else (if Selects(filter, lines[0].menuItemId) then lines[0].quantity else 0) + Quantity(lines[1..], filter)
  }

  /** The summed quantity of the selected requests. */
  function RequestedQuantity(reqs: seq<Request>, filter: Option<Id>): int {
    if reqs == [] then 0
    else (if Selects(filter, reqs[0].menuItemId) then reqs[0].quantity else 0) + RequestedQuantity(reqs[1..], filter)
  }

  lemma {:induction false} QuantityAppend(lines: seq<CartLine>, x: CartLine, filter: Option<Id>)
    ensures Quantity(lines + [x], filter) == Quantity(lines, filter) + (if Selects(filter, x.menuItemId) then x.quantity else 0)
  {
    if lines != [] {
      assert (lines + [x])[1..] == lines[1..] + [x];
      QuantityAppend(lines[1..], x, filter);
    }
  }

  lemma {:induction false} QuantityUpdate(lines: seq<CartLine>, i: nat, x: CartLine, filter: Option<Id>)
    requires i < |lines| && x.menuItemId == lines[i].menuItemId
    ensures Quantity(lines[i := x], filter) ==
      Quantity(lines, filter) + (if Selects(filter, x.menuItemId) then x.quantity - lines[i].quantity else 0)
  {
    if i == 0 {
      assert lines[i := x][1..] == lines[1..];
    } else {
      assert lines[i := x][1..] == lines[1..][i - 1 := x];
      QuantityUpdate(lines[1..], i - 1, x, filter);
    }
  }

  /**
   * Merging adds exactly the submitted quantities: per menu item (`Some(m)`) and over
   * the whole cart (`None`).
   */
  lemma {:induction false} MergeAddsQuantities(lines: seq<CartLine>, reqs: seq<Request>, next: nat, filter: Option<Id>)
    ensures Quantity(MergeAll(lines, reqs, next).0, filter) == Quantity(lines, filter) + RequestedQuantity(reqs, filter)
    decreases |reqs|
  {
    if reqs != [] {
      var q := reqs[0];
      var step := MergeOne(lines, q, next);
      var found := FindFirst(lines, (l: CartLine) => l.menuItemId == q.menuItemId);
      if found.Some? {
        var i := found.value;
        QuantityUpdate(lines, i, lines[i].(quantity := lines[i].quantity + q.quantity), filter);
      } else {
        QuantityAppend(lines, CartLine(next, q.menuItemId, q.quantity), filter);
      }
      MergeAddsQuantities(step.0, reqs[1..], step.1, filter);
    }
  }

  /** Without an existing cart duplicates are kept: one line per submitted item. */
  lemma {:induction false} NewLinesKeepDuplicates(reqs: seq<Request>, next: nat, m: Id)
    ensures LineCount(NewLines(reqs, next), m) == RequestCount(reqs, m)
    decreases |reqs|
  {
    if reqs != [] {
      assert NewLines(reqs, next)[1..] == NewLines(reqs[1..], next + 1);
      NewLinesKeepDuplicates(reqs[1..], next + 1, m);
    }
  }

  function RequestCount(reqs: seq<Request>, m: Id): nat {
    if reqs == [] then 0 else (if reqs[0].menuItemId == m then 1 else 0) + RequestCount(reqs[1..], m)
  }

  lemma NewLinesWellFormed(reqs: seq<Request>, next: nat)
    ensures WellFormedLines(NewLines(reqs, next), next + |reqs|)
  {
  }

  /** The schema sets no lower bound: a new line stores whatever quantity was asked for, zero or negative included. */
  lemma NonPositiveQuantityStored(lines: seq<CartLine>, m: Id, q: int, next: nat)
    requires forall k :: 0 <= k < |lines| ==> lines[k].menuItemId != m
    ensures MergeOne(lines, Request(m, q), next).0[|lines|].quantity == q
  {
  }

  // ---------------------------------------------------------------------------
  // Handlers

  /** `addToCart`: the request is checked first; only then is the user's cart created or merged into. */
  method AddToCart(s: Store, userId: Id, payload: ItemsField) returns (o: Outcome)
    requires s.Valid()
    modifies s
    ensures s.Valid()
    ensures s.orders == old(s.orders) && s.menu == old(s.menu) && s.users == old(s.users)
    ensures CheckItems(payload, old(s.menu)).Refused? ==> o == CheckItems(payload, old(s.menu)).outcome && unchanged(s)
    ensures CheckItems(payload, old(s.menu)).Accepted? ==>
      var reqs := CheckItems(payload, old(s.menu)).reqs;
      && o == Reply(201, "Item(s) added to cart successfully")
      && (userId !in old(s.carts) ==>
            s.carts == old(s.carts)[userId := Cart(userId, NewLines(reqs, old(s.nextId)))])
      && (userId in old(s.carts) ==>
            s.carts == old(s.carts)[userId := Cart(userId, MergeAll(old(s.carts)[userId].items, reqs, old(s.nextId)).0)])
  {
    var check := CheckItems(payload, s.menu);
    if check.Refused? {
      return check.outcome;
    }
    var reqs := check.reqs;
    if userId !in s.carts {
      var lines := NewLines(reqs, s.nextId);
      NewLinesWellFormed(reqs, s.nextId);
      s.nextId := s.nextId + |reqs|;
      s.carts := s.carts[userId := Cart(userId, lines)];
    } else {
      var lines, after := MergeItems(s.carts[userId].items, reqs, s.nextId);
      MergeWellFormed(s.carts[userId].items, reqs, s.nextId);
      s.nextId := after;
      s.carts := s.carts[userId := Cart(userId, lines)];
    }
    o := Reply(201, "Item(s) added to cart successfully");
  }

  /** The line whose subdocument id the request names; a malformed id matches no line. */
  function LineIndex(lines: seq<CartLine>, cartItemId: RequestId): (r: Option<nat>)
    ensures r.Some? ==> cartItemId.Valid? && r.value < |lines| && lines[r.value].lineId == cartItemId.id
    ensures r.None? ==> forall k :: 0 <= k < |lines| ==> cartItemId != Valid(lines[k].lineId)
  {
    match cartItemId
    case Malformed(_) => None
    case Valid(id) => FindFirst(lines, (l: CartLine) => l.lineId == id)
  }

  /** With distinct ids, setting one line's quantity changes that line and no other. */
  lemma SetQuantityTouchesOneLine(lines: seq<CartLine>, i: nat, quantity: int)
    requires i < |lines| && DistinctLineIds(lines)
    ensures var r := lines[i := lines[i].(quantity := quantity)];
      && |r| == |lines| && r[i].quantity == quantity
      && (forall k :: 0 <= k < |r| ==> r[k].lineId == lines[k].lineId && r[k].menuItemId == lines[k].menuItemId)
      && (forall k :: 0 <= k < |r| && lines[k].lineId != lines[i].lineId ==> r[k] == lines[k])
  {
  }

  /**
   * A line's quantity as the save validates it: a left-out quantity (`undefined`) fails the
   * schema's `required` validator.
   */
  function QuantityFailures(quantity: Option<int>): (r: seq<FieldError>)
    ensures r == [] <==> quantity.Some?
  {
    if quantity.None? then [FieldError("quantity", "Path `quantity` is required.")] else []
  }

  /**
   * `updateCartItem`: quantity first (400), then the cart and the line (404), then the save.
   * A left-out quantity passes the guard (`undefined <= 0` is false) and fails at the save.
   */
  method UpdateCartItem(s: Store, userId: Id, cartItemId: RequestId, quantity: Option<int>) returns (o: Outcome)
    requires s.Valid()
    modifies s
    ensures s.Valid()
    ensures s.orders == old(s.orders) && s.menu == old(s.menu) && s.users == old(s.users) && s.nextId == old(s.nextId)
    ensures quantity.Some? && quantity.value <= 0 ==> o == Fail(400, "Quantity must be greater than zero") && unchanged(s)
    ensures QuantityPasses(quantity) && userId !in old(s.carts) ==> o == Fail(404, "Cart not found") && unchanged(s)
    ensures QuantityPasses(quantity) && userId in old(s.carts) && LineIndex(old(s.carts)[userId].items, cartItemId).None? ==>
      o == Fail(404, "Cart item not found") && unchanged(s)
    ensures quantity.None? && userId in old(s.carts) && LineIndex(old(s.carts)[userId].items, cartItemId).Some? ==>
      o == Next(ValidationError(QuantityFailures(quantity))) && Status(o) == 400 && unchanged(s)
    ensures quantity.Some? && quantity.value > 0 && userId in old(s.carts) && LineIndex(old(s.carts)[userId].items, cartItemId).Some? ==>
      var lines := old(s.carts)[userId].items;
      var i := LineIndex(lines, cartItemId).value;
      && o == Reply(200, "Cart item updated successfully")
      && s.carts == old(s.carts)[userId := Cart(userId, lines[i := lines[i].(quantity := quantity.value)])]
  {
    if quantity.Some? && quantity.value <= 0 {
      return Fail(400, "Quantity must be greater than zero");
    }
    if userId !in s.carts {
      return Fail(404, "Cart not found");
    }
    var lines := s.carts[userId].items;
    var found := LineIndex(lines, cartItemId);
    if found.None? {
      return Fail(404, "Cart item not found");
    }
    var failures := QuantityFailures(quantity);
    if failures != [] {
      return Next(ValidationError(failures));
    }
    var i := found.value;
    lines := lines[i := lines[i].(quantity := quantity.value)];
    s.carts := s.carts[userId := Cart(userId, lines)];
    o := Reply(200, "Cart item updated successfully");
  }

  /** `quantity <= 0` is false: a positive number, or `undefined`. */
  predicate QuantityPasses(quantity: Option<int>) {
    quantity.None? || quantity.value > 0
  }

  /** `splice(i, 1)`. */
  function Splice(lines: seq<CartLine>, i: nat): (r: seq<CartLine>)
    requires i < |lines|
    ensures |r| == |lines| - 1
    ensures forall k :: 0 <= k < i ==> r[k] == lines[k]
    ensures forall k :: i <= k < |r| ==> r[k] == lines[k + 1]
  {
    lines[..i] + lines[i + 1..]
  }

  /**
   * Removing a line removes exactly that line: the others keep their relative order, and
   * with distinct ids the removed id is gone while every other id remains.
   */
  lemma SpliceRemovesOne(lines: seq<CartLine>, i: nat)
    requires i < |lines| && DistinctLineIds(lines)
    ensures multiset(Splice(lines, i)) + multiset{lines[i]} == multiset(lines)
    ensures DistinctLineIds(Splice(lines, i))
    ensures forall k :: 0 <= k < |Splice(lines, i)| ==> Splice(lines, i)[k].lineId != lines[i].lineId
    ensures forall k :: 0 <= k < |lines| && k != i ==> lines[k] in Splice(lines, i)
  {
    var r := Splice(lines, i);
    assert lines == lines[..i] + [lines[i]] + lines[i + 1..];
    forall k | 0 <= k < |lines| && k != i
      ensures lines[k] in r
    {
      if k < i { assert r[k] == lines[k]; } else { assert r[k - 1] == lines[k]; }
    }
  }

  /**
   * `removeCartItem`: missing user or line id (400), then no cart, empty cart or unknown
   * line (404); otherwise the line is spliced out.
   */
  method RemoveCartItem(s: Store, userId: Option<Id>, cartItemId: RequestId) returns (o: Outcome)
    requires s.Valid()
    modifies s
    ensures s.Valid()
    ensures s.orders == old(s.orders) && s.menu == old(s.menu) && s.users == old(s.users) && s.nextId == old(s.nextId)
    ensures userId.None? ==> o == Fail(400, "User ID is required") && unchanged(s)
    ensures userId.Some? && !Present(cartItemId) ==> o == Fail(400, "Cart Item ID is required") && unchanged(s)
    ensures userId.Some? && Present(cartItemId) && userId.value !in old(s.carts) ==> o == Fail(404, "Cart not found") && unchanged(s)
    ensures userId.Some? && Present(cartItemId) && userId.value in old(s.carts) && old(s.carts)[userId.value].items == [] ==>
      o == Fail(404, "Cart is empty") && unchanged(s)
    ensures userId.Some? && Present(cartItemId) && userId.value in old(s.carts) ==>
      var lines := old(s.carts)[userId.value].items;
      && (lines != [] && LineIndex(lines, cartItemId).None? ==> o == Fail(404, "Item not found in cart") && unchanged(s))
      && (LineIndex(lines, cartItemId).Some? ==>
            && o == Reply(200, "Cart item removed successfully")
            && s.carts == old(s.carts)[userId.value := Cart(userId.value, Splice(lines, LineIndex(lines, cartItemId).value))])
  {
    if userId.None? {
      return Fail(400, "User ID is required");
    }
    if !Present(cartItemId) {
      return Fail(400, "Cart Item ID is required");
    }
    var u := userId.value;
    if u !in s.carts {
      return Fail(404, "Cart not found");
    }
    var lines := s.carts[u].items;
    if lines == [] {
      return Fail(404, "Cart is empty");
    }
    var found := LineIndex(lines, cartItemId);
    if found.None? {
      return Fail(404, "Item not found in cart");
    }
    SpliceRemovesOne(lines, found.value);
    s.carts := s.carts[u := Cart(u, Splice(lines, found.value))];
    o := Reply(200, "Cart item removed successfully");
  }

  /** The filter a cart is looked up by: the schema's `userId` path, or a `user` path no cart has. */
  datatype CartQuery = ByUserId(userId: Id) | ByUser(user: Id)

  /** `Cart.findOne(filter)`; a filter on a path outside the schema matches no document. */
  function FindCart(carts: map<Id, Cart>, q: CartQuery): (r: Option<Cart>)
    ensures q.ByUserId? ==> (r.Some? <==> q.userId in carts) && (r.Some? ==> r.value == carts[q.userId])
    ensures q.ByUser? ==> r.None?
  {
    match q
    case ByUserId(u) => if u in carts then Some(carts[u]) else None
    case ByUser(_) => None
  }

  /**
   * Lines 216-227 once the cart has been looked up: 404 without a cart, 200 with
   * `success: false` on an empty cart, otherwise the found cart's lines are dropped.
   */
  method ClearFound(s: Store, found: Option<Cart>) returns (o: Outcome)
    requires s.Valid()
    requires found.Some? ==> found.value.userId in s.carts && s.carts[found.value.userId] == found.value
    modifies s
    ensures s.Valid()
    ensures s.orders == old(s.orders) && s.menu == old(s.menu) && s.users == old(s.users) && s.nextId == old(s.nextId)
    ensures found.None? ==> o == Respond(404, Some(false), "Cart not found") && unchanged(s)
    ensures found.Some? && found.value.items == [] ==>
      o == Respond(200, Some(false), "Cart is already empty") && unchanged(s)
    ensures found.Some? && found.value.items != [] ==>
      && o == Respond(200, Some(true), "Cart cleared successfully")
      && s.carts == old(s.carts)[found.value.userId := found.value.(items := [])]
  {
    if found.None? {
      return Respond(404, Some(false), "Cart not found");
    }
    var cart := found.value;
    if cart.items == [] {
      return Respond(200, Some(false), "Cart is already empty");
    }
    s.carts := s.carts[cart.userId := cart.(items := [])];
    o := Respond(200, Some(true), "Cart cleared successfully");
  }

  /** `clearCart` as written: it looks the cart up by `{ user: userId }` and so never finds one. */
  method ClearCartAsWritten(s: Store, userId: Id) returns (o: Outcome)
    requires s.Valid()
    modifies s
    ensures s.Valid()
    ensures o == Respond(404, Some(false), "Cart not found") && unchanged(s)
  {
    o := ClearFound(s, FindCart(s.carts, ByUser(userId)));
  }

  /** Even a user with a non-empty cart is told there is no cart. */
  lemma ClearCartLookupMisses(carts: map<Id, Cart>, u: Id)
    requires u in carts && carts[u].items != []
    ensures FindCart(carts, ByUser(u)).None? && FindCart(carts, ByUserId(u)) == Some(carts[u])
  {
  }

  /** `clearCart` with the lookup by `userId` that the other handlers use. */
  method ClearCart(s: Store, userId: Id) returns (o: Outcome)
    requires s.Valid()
    modifies s
    ensures s.Valid()
    ensures s.orders == old(s.orders) && s.menu == old(s.menu) && s.users == old(s.users) && s.nextId == old(s.nextId)
    ensures userId !in old(s.carts) ==> o == Respond(404, Some(false), "Cart not found") && unchanged(s)
    ensures userId in old(s.carts) && old(s.carts)[userId].items == [] ==>
      o == Respond(200, Some(false), "Cart is already empty") && unchanged(s)
    ensures userId in old(s.carts) && old(s.carts)[userId].items != [] ==>
      o == Respond(200, Some(true), "Cart cleared successfully") && s.carts == old(s.carts)[userId := Cart(userId, [])]
  {
    o := ClearFound(s, FindCart(s.carts, ByUserId(userId)));
  }
}
