/**
 * The catalog handlers (src/controllers/menuController.js): create, read, update and
 * delete a menu item. The image upload is an input: its outcome is a parameter.
 */
module MenuController {
  import opened Wrappers
  import opened Ids
  import opened Errors
  import opened Http
  import opened MenuModel
  import opened Store
  import Strings

  /** The fields of `req.body`, the price as sent; `None` is a missing field. */
  datatype MenuBody = MenuBody(name: Option<string>, description: Option<string>, price: Option<PriceSent>, category: Option<string>, inStock: Option<bool>)

  /** What happened to `req.file`: none sent, an upload result with or without `secure_url`, or an exception. */
  datatype UploadOutcome = NoFile | Uploaded(secureUrl: Option<string>) | UploadThrew(message: string)

  /** JavaScript truthiness of the price as sent: the number 0 and the empty text are falsy, the text "0" is not. */
  predicate PriceTruthy(p: Option<PriceSent>) {
    p.Some? && (p.value.Num? ==> p.value.n != 0) && (p.value.Text? ==> p.value.t != "")
  }

  /**
   * Line 32: the four fields must be truthy. The number 0 is refused as missing; the
   * text "0", as a multipart form sends it, is not.
   */
  function MissingFields(b: MenuBody): (r: bool)
    ensures !r <==> Truthy(b.name) && Truthy(b.description) && PriceTruthy(b.price) && Truthy(b.category)
    ensures b.price == Some(Num(0)) ==> r
    ensures b.price.Some? && b.price.value.Text? && b.price.value.t == "0" ==>
      (r <==> !Truthy(b.name) || !Truthy(b.description) || !Truthy(b.category))
  {
    !Truthy(b.name) || !Truthy(b.description) || !PriceTruthy(b.price) || !Truthy(b.category)
  }

  /** Lines 37-47 and 174-187: the error a failed upload is reported with; `None` when there is none. */
  function UploadFailure(u: UploadOutcome): (r: Option<Outcome>)
    ensures r.None? <==> u.NoFile? || (u.Uploaded? && Truthy(u.secureUrl))
    ensures r.Some? ==> r.value.Next? && Status(r.value) == 500
    ensures u.Uploaded? && !Truthy(u.secureUrl) ==> r == Some(Next(ApiError(500, "Failed to upload image", [FieldError("", "Image upload failed")])))
    ensures u.UploadThrew? ==> r == Some(Next(ApiError(500, "Image upload error", [FieldError("", u.message)])))
  {
    match u
    case NoFile => None
    case Uploaded(url) =>
      if Truthy(url) then None
      else Some(Next(ApiError(500, "Failed to upload image", [FieldError("", "Image upload failed")])))
    case UploadThrew(m) => Some(Next(ApiError(500, "Image upload error", [FieldError("", m)])))
  }

  /** The image URL after a successful or absent upload: the new URL, or `current`. */
  function ImageAfter(u: UploadOutcome, current: string): (r: string)
    requires UploadFailure(u).None?
    ensures u.NoFile? ==> r == current
    ensures u.Uploaded? ==> r == u.secureUrl.value && r != ""
  {
    if u.Uploaded? then u.secureUrl.value else current
  }

  function Draft(b: MenuBody, foodImage: string): MenuDraft {
    MenuDraft(b.name, b.description, b.price, b.category, foodImage, b.inStock)
  }

  /**
   * Once line 32 has let a body through, the schema can only object to a name of
   * whitespace (trimmed to empty) or a category outside the enum.
   */
  lemma CreateFailuresAfterPresenceCheck(b: MenuBody, foodImage: string)
    requires !MissingFields(b)
    ensures ValidateMenu(Draft(b, foodImage)) == [] <==>
      Strings.Trim(b.name.value) != "" && ParseCategory(b.category.value).Some? && !CastPrice(b.price.value).CastFails?
  {
  }

  /** With a valid name and category, the text price "0" passes line 32 and is stored as 0. */
  lemma TextZeroPriceCreated(b: MenuBody, foodImage: string)
    requires Truthy(b.name) && Strings.Trim(b.name.value) != "" && Truthy(b.description)
    requires b.category.Some? && ParseCategory(b.category.value).Some?
    requires b.price == Some(Text("0", Some(0)))
    ensures !MissingFields(b) && ValidateMenu(Draft(b, foodImage)) == []
    ensures NewMenuItem(Draft(b, foodImage)).price == 0
  {
    MenuModel.ZeroPriceAccepted();
  }

  /**
   * `addMenuItem`: presence check (400), upload (500), schema validation (400 with the
   * failing fields), then a new item under a fresh id.
   */
  method AddMenuItem(s: Store, b: MenuBody, upload: UploadOutcome) returns (o: Outcome)
    requires s.Valid()
    modifies s
    ensures s.Valid()
    ensures s.carts == old(s.carts) && s.orders == old(s.orders) && s.users == old(s.users)
    ensures MissingFields(b) ==> o == Fail(400, "All fields are required") && unchanged(s)
    ensures !MissingFields(b) && UploadFailure(upload).Some? ==> o == UploadFailure(upload).value && unchanged(s)
    ensures !MissingFields(b) && UploadFailure(upload).None? ==>
      var d := Draft(b, ImageAfter(upload, ""));
      && (ValidateMenu(d) != [] ==> o == Next(ApiError(400, "Validation failed", ValidateMenu(d))) && unchanged(s))
      && (ValidateMenu(d) == [] ==>
            && o == Reply(201, "Menu item added successfully")
            && old(s.nextId) !in old(s.menu)
            && s.menu == old(s.menu)[old(s.nextId) := NewMenuItem(d)])
  {
    if MissingFields(b) {
      return Fail(400, "All fields are required");
    }
    var failure := UploadFailure(upload);
    if failure.Some? {
      return failure.value;
    }
    var d := Draft(b, ImageAfter(upload, ""));
    var failures := ValidateMenu(d);
    if failures != [] {
      return Next(ApiError(400, "Validation failed", failures));
    }
    Insert(s, NewMenuItem(d));
    o := Reply(201, "Menu item added successfully");
  }

  /** `Menu.create`: the item is stored under a fresh id. */
  method Insert(s: Store, item: MenuItem)
    requires s.Valid()
    modifies s
    ensures s.Valid()
    ensures s.carts == old(s.carts) && s.orders == old(s.orders) && s.users == old(s.users)
    ensures old(s.nextId) !in old(s.menu) && s.menu == old(s.menu)[old(s.nextId) := item]
  {
    var id := s.FreshId();
    s.menu := s.menu[id := item];
  }

  /** `getMenuItem`: an id `isValid` refuses is 400 before any lookup; an absent item is 404. */
  function GetMenuItem(menu: map<Id, MenuItem>, id: RequestId): (o: Outcome)
    ensures id.Malformed? ==> o == Fail(400, "Invalid Menu ID format")
    ensures id.Valid? && id.id !in menu ==> o == Fail(404, "Menu item not found")
    ensures o.Respond? <==> id.Valid? && id.id in menu
    ensures o.Respond? ==> o == Reply(200, "Item found")
  {
    match id
    case Malformed(_) => Fail(400, "Invalid Menu ID format")
    case Valid(k) => if k in menu then Reply(200, "Item found") else Fail(404, "Menu item not found")
  }

  /**
   * The update's price fails the query's cast to Number. `findByIdAndUpdate` then throws
   * that CastError itself (it gathers cast errors into a ValidationError only under the
   * `multipleCastError` option, which is not set), before any validator runs.
   */
  predicate PriceCastFails(b: MenuBody) {
    b.price.Some? && CastPrice(b.price.value).CastFails?
  }

  /** The message of the CastError a query's cast of `price` throws. */
  function UpdateCastMessage(t: string): string {
    CastMessage(t) + " for model \"Menu\""
  }

  /**
   * The update validators (`runValidators`) over a cast update: each path the body sends
   * is validated after its setter, as on creation, and paths it leaves out are not looked
   * at; a price the cast turned into `null` fails `required`.
   */
  function UpdateFailures(b: MenuBody): (r: seq<FieldError>)
    requires !PriceCastFails(b)
    ensures r == [] <==>
      && (b.name.Some? ==> Strings.Trim(b.name.value) != "")
      && (b.description.Some? ==> b.description.value != "")
      && (b.price.Some? ==> CastPrice(b.price.value).Cast?)
      && (b.category.Some? ==> ParseCategory(b.category.value).Some?)
  {
    var name := if b.name.Some? then NameFailures(b.name) else [];
    var description := if b.description.Some? then DescriptionFailures(b.description) else [];
    var price := if b.price.Some? then PriceFailures(b.price) else [];
    var category := if b.category.Some? then CategoryFailures(b.category) else [];
    var r := name + description + price + category;
    assert |r| == |name| + |description| + |price| + |category|;
    r
  }

  /**
   * `findByIdAndUpdate` with the body's fields: fields sent replace the stored ones (the
   * name through the schema's `trim`), missing fields are left alone.
   */
  function ApplyUpdate(item: MenuItem, b: MenuBody, foodImage: string): (r: MenuItem)
    requires !PriceCastFails(b) && UpdateFailures(b) == []
    ensures r.name == (if b.name.Some? then Strings.Trim(b.name.value) else item.name)
    ensures r.description == b.description.GetOr(item.description)
    ensures r.price == (if b.price.Some? then CastPrice(b.price.value).n else item.price)
    ensures b.category.Some? ==> CategoryName(r.category) == b.category.value
    ensures b.category.None? ==> r.category == item.category
    ensures r.inStock == b.inStock.GetOr(item.inStock)
    ensures r.foodImage == foodImage
  {
    MenuItem(
      if b.name.Some? then Strings.Trim(b.name.value) else item.name,
      b.description.GetOr(item.description),
      if b.price.Some? then CastPrice(b.price.value).n else item.price,
      if b.category.Some? then ParseCategory(b.category.value).value else item.category,
      foodImage,
      b.inStock.GetOr(item.inStock))
  }

  /** An update the validators accept never stores an empty name or description. */
  lemma AcceptedUpdateKeepsRequired(item: MenuItem, b: MenuBody, foodImage: string)
    requires !PriceCastFails(b) && UpdateFailures(b) == [] && item.name != "" && item.description != ""
    ensures ApplyUpdate(item, b, foodImage).name != "" && ApplyUpdate(item, b, foodImage).description != ""
  {
  }

  /** Sending the same update twice leaves the item as the first one did. */
  lemma UpdateIdempotent(item: MenuItem, b: MenuBody, foodImage: string)
    requires !PriceCastFails(b) && UpdateFailures(b) == []
    ensures ApplyUpdate(ApplyUpdate(item, b, foodImage), b, foodImage) == ApplyUpdate(item, b, foodImage)
  {
    if b.name.Some? {
      Strings.TrimIdempotent(b.name.value);
    }
  }

  /** An empty body without a new image changes nothing. */
  lemma EmptyUpdateKeepsItem(item: MenuItem)
    ensures ApplyUpdate(item, MenuBody(None, None, None, None, None), item.foodImage) == item
  {
  }

  /**
   * `updateMenuItem`: a malformed id makes `findById` throw (500), an absent item is 404,
   * a failed upload 500, a price the query cannot cast 500 and a failing update validator
   * 400, each leaving the item as it was; otherwise the sent fields are written and the
   * image kept unless a new one was uploaded.
   */
  method UpdateMenuItem(s: Store, id: RequestId, b: MenuBody, upload: UploadOutcome) returns (o: Outcome)
    requires s.Valid()
    modifies s
    ensures s.Valid()
    ensures s.carts == old(s.carts) && s.orders == old(s.orders) && s.users == old(s.users) && s.nextId == old(s.nextId)
    ensures id.Malformed? ==> o == Next(ApiError(500, "Internal server error", [FieldError("", CastError().message)])) && unchanged(s)
    ensures id.Valid? && id.id !in old(s.menu) ==> o == Fail(404, "Menu item not found") && unchanged(s)
    ensures id.Valid? && id.id in old(s.menu) && UploadFailure(upload).Some? ==> o == UploadFailure(upload).value && unchanged(s)
    ensures id.Valid? && id.id in old(s.menu) && UploadFailure(upload).None? && PriceCastFails(b) ==>
      && o == Next(ApiError(500, "Internal server error", [FieldError("", UpdateCastMessage(b.price.value.t))]))
      && Status(o) == 500 && unchanged(s)
    ensures id.Valid? && id.id in old(s.menu) && UploadFailure(upload).None? && !PriceCastFails(b) && UpdateFailures(b) != [] ==>
      o == Next(ApiError(400, "Validation failed", UpdateFailures(b))) && unchanged(s)
    ensures id.Valid? && id.id in old(s.menu) && UploadFailure(upload).None? && !PriceCastFails(b) && UpdateFailures(b) == [] ==>
      var item := old(s.menu)[id.id];
      && o == Reply(200, "Menu item updated successfully")
      && s.menu == old(s.menu)[id.id := ApplyUpdate(item, b, ImageAfter(upload, item.foodImage))]
  {
    if id.Malformed? {
      return Next(ApiError(500, "Internal server error", [FieldError("", CastError().message)]));
    }
    var k := id.id;
    if k !in s.menu {
      return Fail(404, "Menu item not found");
    }
    var foodImage := s.menu[k].foodImage;
    var failure := UploadFailure(upload);
    if failure.Some? {
      return failure.value;
    }
    foodImage := ImageAfter(upload, foodImage);
    if PriceCastFails(b) {
      return Next(ApiError(500, "Internal server error", [FieldError("", UpdateCastMessage(b.price.value.t))]));
    }
    var failures := UpdateFailures(b);
    if failures != [] {
      return Next(ApiError(400, "Validation failed", failures));
    }
    s.menu := s.menu[k := ApplyUpdate(s.menu[k], b, foodImage)];
    o := Reply(200, "Menu item updated successfully");
  }

  /**
   * `deleteMenuItem`: its own 404 is caught and replaced by a 500 that the handler
   * throws, so a malformed or unknown id both end in a rejected promise with status 500.
   * Carts still naming the item keep their lines.
   */
  method DeleteMenuItem(s: Store, id: RequestId) returns (o: Outcome)
    requires s.Valid()
    modifies s
    ensures s.Valid()
    ensures s.carts == old(s.carts) && s.orders == old(s.orders) && s.users == old(s.users) && s.nextId == old(s.nextId)
    ensures !(id.Valid? && id.id in old(s.menu)) ==>
      o == Rejected(ApiError(500, "Internal server error", [])) && Status(o) == 500 && unchanged(s)
    ensures id.Valid? && id.id in old(s.menu) ==>
      o == Reply(200, "Menu item deleted successfully") && s.menu == old(s.menu) - {id.id}
  {
    if id.Malformed? || id.id !in s.menu {
      return Rejected(ApiError(500, "Internal server error", []));
    }
    s.menu := s.menu - {id.id};
    o := Reply(200, "Menu item deleted successfully");
  }
}
