/** The menu item schema (src/models/menu.js): fields, the category enum and defaults. */
module MenuModel {
  import opened Wrappers
  import Strings
  import opened Errors

  datatype Category = Snacks | Drinks | Meals | Desserts

  function CategoryName(c: Category): string {
    match c
    case Snacks => "Snacks"
    case Drinks => "Drinks"
    case Meals => "Meals"
    case Desserts => "Desserts"
  }

  /** The `enum` check on a raw category string (case-sensitive). */
  function ParseCategory(s: string): (r: Option<Category>)
    ensures r.Some? ==> CategoryName(r.value) == s
    ensures r.None? ==> forall c: Category :: CategoryName(c) != s
  {
    if s == "Snacks" then Some(Snacks)
    else if s == "Drinks" then Some(Drinks)
    else if s == "Meals" then Some(Meals)
    else if s == "Desserts" then Some(Desserts)
    else None
  }

  lemma CategoryRoundTrip(c: Category)
    ensures ParseCategory(CategoryName(c)) == Some(c)
  {
  }

  /** `inStock` defaults to `true`. */
  const DefaultInStock: bool := true

  /** A stored menu item; `foodImage` is `""` when no image was uploaded. */
  datatype MenuItem = MenuItem(name: string, description: string, price: int, category: Category, foodImage: string, inStock: bool)

  /**
   * A price as the request carries it: a JSON number, or text (a multipart form sends
   * every field as text). For text, `number` is what `Number(t)` gives, `None` for `NaN`.
   */
  datatype PriceSent = Num(n: int) | Text(t: string, number: Option<int>)

  /** The outcome of Mongoose's cast to Number: a number, `null`, or a failed cast. */
  datatype PriceCast = Cast(n: int) | Null | CastFails(t: string)

  /** The cast to Number: a number stays, `""` becomes `null`, other text becomes `Number(t)` unless that is `NaN`. */
  function CastPrice(p: PriceSent): (r: PriceCast)
    ensures r.Cast? <==> p.Num? || (p.t != "" && p.number.Some?)
    ensures r.Cast? ==> r.n == (if p.Num? then p.n else p.number.value)
    ensures r.Null? <==> p.Text? && p.t == ""
    ensures r.CastFails? ==> p.Text? && r.t == p.t
  {
    match p
    case Num(n) => Cast(n)
    case Text(t, number) =>
      if t == "" then Null
      else if number.Some? then Cast(number.value)
      else CastFails(t)
  }

  /** The message of the error a failed cast of `price` records. */
  function CastMessage(t: string): string {
    "Cast to Number failed for value \"" + t + "\" (type string) at path \"price\""
  }

  /** The fields handed to `Menu.create`, price as sent; `None` is a missing field. */
  datatype MenuDraft = MenuDraft(name: Option<string>, description: Option<string>, price: Option<PriceSent>, category: Option<string>, foodImage: string, inStock: Option<bool>)

  function NameFailures(name: Option<string>): (r: seq<FieldError>)
    ensures r == [] <==> name.Some? && Strings.Trim(name.value) != ""
  {
    if name.None? || Strings.Trim(name.value) == "" then [FieldError("name", "Food item name is required")] else []
  }

  function DescriptionFailures(description: Option<string>): (r: seq<FieldError>)
    ensures r == [] <==> description.Some? && description.value != ""
  {
    if description.None? || description.value == "" then [FieldError("description", "Description is required")] else []
  }

  /**
   * The `price` path: a failed cast is reported as such; otherwise `required` fails only
   * for a missing or `null` value, so 0 passes.
   */
  function PriceFailures(price: Option<PriceSent>): (r: seq<FieldError>)
    ensures r == [] <==> price.Some? && CastPrice(price.value).Cast?
    ensures price.Some? && CastPrice(price.value).CastFails? ==> r == [FieldError("price", CastMessage(price.value.t))]
    ensures (price.None? || CastPrice(price.value).Null?) ==> r == [FieldError("price", "Price is required")]
  {
    if price.None? then [FieldError("price", "Price is required")]
    else match CastPrice(price.value)
      case Cast(_) => []
      case Null => [FieldError("price", "Price is required")]
      case CastFails(t) => [FieldError("price", CastMessage(t))]
  }

  /** A price of zero is stored whether it comes as the number 0 or as the text "0". */
  lemma ZeroPriceAccepted()
    ensures PriceFailures(Some(Num(0))) == [] && CastPrice(Num(0)) == Cast(0)
    ensures PriceFailures(Some(Text("0", Some(0)))) == [] && CastPrice(Text("0", Some(0))) == Cast(0)
  {
  }

  function CategoryFailures(category: Option<string>): (r: seq<FieldError>)
    ensures r == [] <==> category.Some? && ParseCategory(category.value).Some?
  {
    if category.None? || category.value == "" then [FieldError("category", "Category is required")]
    else if ParseCategory(category.value).None? then [FieldError("category", EnumMessage(category.value, "category"))]
    else []
  }

  /**
   * The validators `Menu.create` runs, after the `trim` setter on `name`, in path order.
   * `foodImage` has no validator: its misspelled `requied` option imposes nothing.
   */
  function ValidateMenu(d: MenuDraft): (r: seq<FieldError>)
    ensures r == [] <==>
      && d.name.Some? && Strings.Trim(d.name.value) != ""
      && d.description.Some? && d.description.value != ""
      && d.price.Some? && CastPrice(d.price.value).Cast?
      && d.category.Some? && ParseCategory(d.category.value).Some?
  {
    var name := NameFailures(d.name);
    var description := DescriptionFailures(d.description);
    var price := PriceFailures(d.price);
    var category := CategoryFailures(d.category);
    var r := name + description + price + category;
    assert |r| == |name| + |description| + |price| + |category|;
    r
  }

  /** The document a valid draft becomes: name trimmed, category parsed, `inStock` defaulted. */
  function NewMenuItem(d: MenuDraft): (m: MenuItem)
    requires ValidateMenu(d) == []
    ensures m.name == Strings.Trim(d.name.value) && m.description == d.description.value
    ensures m.price == CastPrice(d.price.value).n && CategoryName(m.category) == d.category.value
    ensures m.foodImage == d.foodImage
    ensures m.inStock == d.inStock.GetOr(DefaultInStock)
  {
    MenuItem(
      Strings.Trim(d.name.value), d.description.value, CastPrice(d.price.value).n,
      ParseCategory(d.category.value).value, d.foodImage, d.inStock.GetOr(DefaultInStock))
  }
}
