# Restaurant backend: carts, orders, payments and the catalog, in Dafny

This project models the request handlers of a restaurant ordering backend (Express and
Mongoose). Customers fill a cart from the menu and place an order from it. The order is
priced from the catalog and registered with the payment gateway (Razorpay). A signed
client confirmation marks it paid; so would a signed gateway webhook, were its raw body
signed as received (see "Left out"). Admins manage the
menu and order statuses, and users edit their profile.

The collections are maps inside one `Store` class (module `Store`):

- carts by user;
- orders, menu items and users by document id;
- a counter that hands out fresh ObjectIds.

Its invariant `Valid` states three things:

- each cart is filed under its own user, and its line ids are distinct and already issued;
- every order's total is the sum of its lines and its payment status is never `failed`;
- every menu id has been issued.

Every handler keeps `Valid`. Each is a method over the store that returns an `Outcome`:

- `Continue`, for a middleware that lets the request through;
- `Respond(status, success, message)`;
- `Next(error)`, for an error handed to the error middleware;
- `Rejected(error)`, for an async handler whose promise rejects.

`Http.Status` routes errors through `Errors.ErrorHandler`, the model of the error
middleware, so each contract states the HTTP status the client sees.

The pure parts are functions with their properties proved as lemmas:

- the schemas' enums, defaults, setters and validators;
- the role gate;
- the response envelope;
- the upload filter;
- cart merging, pricing and the life of an order's payment state.

Modules, one per source file:

| module | file |
|---|---|
| `Wrappers` | `Option` |
| `Strings` | `trim`, ASCII `toLowerCase`, `split` and `join` |
| `Ids` | ObjectIds and ids as they arrive in requests |
| `ApiResponses` | src/utils/ApiResponse.js |
| `Errors` | src/middlewares/error.middleware.js |
| `Http` | handler outcomes |
| `Upload` | src/middlewares/multer.middleware.js |
| `UserModel` | src/models/user.js |
| `MenuModel` | src/models/menu.js |
| `CartModel` | src/models/cart.js |
| `OrderModel` | src/models/order.js |
| `Store` | the collections |
| `RoleGate` | src/middlewares/role.middleware.js |
| `CartController` | src/controllers/cartController.js |
| `OrderController` | src/controllers/orderController.js |
| `PaymentController` | src/controllers/paymentController.js |
| `MenuController` | src/controllers/menuController.js |
| `UserController` | src/controllers/userController.js |

Some operations are parameters, because they are foreign code:

- HMAC-SHA256 (`hmac(secret, text)`);
- `validator.isEmail` and `validator.isMobilePhone`;
- the gateway's `orders.create`;
- the outcome of the image upload;
- the clock-derived receipt.

Mongoose is taken with the behaviour of its current major versions:

- `strictQuery` is off, so a filter on a path outside the schema is sent to the database as it is, and matches no document that lacks the path;
- `undefined` keys are removed from updates;
- setters such as `trim` run on updates;
- with `runValidators`, the validators of every path an update sets are run, and a `null` it sets fails `required`;
- a value an update cannot cast makes the query throw that `CastError` itself, before any validator runs (no `multipleCastError` option is set), while `create` records it inside the `ValidationError`;
- the cast to Number turns `""` into `null` and other text into `Number(text)`, failing on `NaN`.

Body fields arrive as JSON values or, from a multipart form (the menu routes take an image), as text. The menu price is modelled as sent, so the text "0" and the number 0 are told apart.

Two behaviours follow the code rather than what one might expect of such a service:

- nothing counts `estimatedTimeRemaining` down; it is only a schema default;
- `getUserOrders` answers 404, not an empty list, for a user without orders.

## Model

| member | source | states |
|---|---|---|
| Strings.Trim | src/models/user.js:13 | the result is the infix of the input between leading and trailing whitespace and has no whitespace at either end |
| Strings.TrimIdempotent | src/controllers/userController.js:23-24 | trimming an already trimmed value (the schema setter after the handler's own trim) changes nothing |
| Strings.ToLower | src/models/user.js:19 | each character is lowercased, upper-case ASCII mapped to lower case and nothing else changed |
| Strings.LowerTrimCommute | src/models/user.js:19-20 | applying the `lowercase` and `trim` setters in either order gives the same e-mail |
| Strings.Split | src/models/user.js:25 | `split` gives at least one piece, more than one exactly when the separator occurs, and no piece contains it |
| Strings.SplitJoin | src/models/user.js:25 | splitting pieces joined by a separator they do not contain gives back the pieces |
| Strings.JoinEnds | src/middlewares/error.middleware.js:16 | `join` starts with the first part and ends with the last |
| Strings.JoinSplit | src/models/user.js:25 | joining the pieces of a split with the separator gives back the string |
| ApiResponses.New | src/utils/ApiResponse.js:2-6 | status and data are stored as given, `success` holds exactly below 400, a falsy message becomes "Success" below 400 and "Error" otherwise |
| ApiResponses.MessageNeverEmpty | src/utils/ApiResponse.js:5 | every envelope carries a non-empty message |
| ApiResponses.MessageInDataPosition | src/controllers/authController.js:118-123 | a message passed as the second argument is stored as data and the message is "Success" |
| Errors.Messages | src/middlewares/error.middleware.js:15 | one message per failing path, in order |
| Errors.Normalize | src/middlewares/error.middleware.js:8-24 | after the three rebindings the error is always an ApiError and never a CastError |
| Errors.ErrorHandler | src/middlewares/error.middleware.js:4-34 | CastError gives 400 "Invalid ID format"; a validation error gives 400 with the messages joined by ", "; an ApiError keeps its code (500 if falsy) and message; any other error gets its own code, else 500 for Mongoose errors and 400 otherwise, and "Something went wrong" for a falsy message; `success` is always false and the stack appears exactly in development mode |
| Errors.NormalizeIdempotent | src/middlewares/error.middleware.js:20-24 | normalising twice is normalising once, and the response to a normalised error equals the response to the original |
| Errors.ApiErrorAnswered | src/middlewares/error.middleware.js:33 | an ApiError with a non-zero code is answered with exactly that code and message |
| Errors.DetailsDropped | src/middlewares/error.middleware.js:27-31 | the per-field list of an ApiError never reaches the client |
| Errors.SingleValidationMessage | src/middlewares/error.middleware.js:13-17 | a validation error on one path is answered 400 with that path's message alone |
| Http.Reply | src/controllers/cartController.js:87 | a direct response with the given status and message whose `success` holds exactly below 400 |
| Http.Status | src/middlewares/error.middleware.js:21-33 | a direct response keeps its own status; an error passed on is never answered with a falsy status (`|| 500`); a CastError is answered with 400 |
| Store.Store.Valid | src/models/cart.js:3-11 | in a consistent store the next id is fresh: no order, menu item or cart line has it yet |
| Store.Store.FreshId | src/models/cart.js:5-9 | a new ObjectId is the generator's value, and the generator moves past it, keeping the store consistent |
| Http.Fail | src/middlewares/error.middleware.js:33 | an ApiError passed to `next` reaches the client with exactly the given status and message |
| Upload.FileFilter | src/middlewares/multer.middleware.js:17-29 | a file is accepted exactly when its MIME type is in the allow-list; otherwise the callback gets the fixed error message |
| Upload.StoredPath | src/middlewares/multer.middleware.js:12-14 | the stored name is the client's original file name, unchanged, inside the temp directory |
| Upload.StoredPathCollides | src/middlewares/multer.middleware.js:13 | two uploads overwrite each other exactly when their original names are equal |
| Upload.Limits | src/middlewares/multer.middleware.js:33-36 | at most five files of at most 52428800 bytes each: five files at the limit pass, a sixth file or one byte more does not |
| Upload.AllowList | src/middlewares/multer.middleware.js:18-36 | eight distinct MIME types are allowed, `image/webp` is refused, and the size limit is 52428800 bytes |
| UserModel.ParseRole | src/models/user.js:47-51 | only "customer" and "admin" are accepted, each naming its role |
| UserModel.RoleRoundTrip | src/models/user.js:47-51 | every role's stored name parses back to that role |
| UserModel.EmailDomain | src/models/user.js:25 | a domain exists exactly when the value contains "@", and it contains no "@" |
| UserModel.EmailAllowed | src/models/user.js:22-27 | an allowed address passes `isEmail`, contains an `@`, and its domain is the text after the first `@` up to the next one or the end |
| UserModel.EmailAllowedIff | src/models/user.js:22-27 | an address local@domain is allowed exactly when `isEmail` holds and the domain is one of the four |
| UserModel.MiddlePieceIsDomain | src/models/user.js:25 | with two "@" the checked domain is the middle piece |
| UserModel.NormalizeEmail | src/models/user.js:19-20 | the stored e-mail is the trimmed, lowercased input |
| UserModel.NameFailures | src/models/user.js:10-14 | the name fails exactly when it is missing or trims to nothing |
| UserModel.EmailFailures | src/models/user.js:15-30 | the e-mail fails exactly when its normalised form is empty or not allowed |
| UserModel.PasswordFailures | src/models/user.js:31-36 | the password fails exactly when it is missing or shorter than 8 characters |
| UserModel.PhoneFailures | src/models/user.js:37-46 | the phone fails exactly when it is missing, empty, or not a mobile number |
| UserModel.RoleFailures | src/models/user.js:47-51 | a role fails exactly when one is given that is not in the enum |
| UserModel.ValidateUser | src/models/user.js:8-57 | a new user passes validation exactly when every path's rule holds |
| UserModel.NewUser | src/models/user.js:8-57 | a valid user is stored with a trimmed name, a normalised allowed e-mail, the role defaulting to customer, and no refresh token |
| UserModel.UserDocument.SetPassword | src/models/user.js:63 | assigning the password marks it modified and changes nothing else |
| UserModel.UserDocument.SetName | src/models/user.js:13 | assigning the name stores it trimmed and leaves the password's modified flag alone |
| UserModel.UserDocument.Save | src/models/user.js:62-67 | the password is replaced by its digest only when it was modified; afterwards nothing counts as modified |
| UserModel.SaveTwice | src/models/user.js:62-67 | saving twice hashes at most once |
| MenuModel.ParseCategory | src/models/menu.js:18-22 | only the four categories are accepted, case-sensitively |
| MenuModel.CategoryRoundTrip | src/models/menu.js:18-22 | every category's name parses back to it |
| MenuModel.NameFailures | src/models/menu.js:5-9 | the name fails exactly when it is missing or trims to nothing |
| MenuModel.DescriptionFailures | src/models/menu.js:10-13 | the description fails exactly when it is missing or empty |
| MenuModel.CastPrice | src/models/menu.js:14-17 | the cast to Number keeps a number, turns the empty text into `null` and other text into its numeric value, and fails exactly for text that is not a number |
| MenuModel.PriceFailures | src/models/menu.js:14-17 | the price fails exactly when it is missing, `null` or fails the cast; a failed cast is reported with the cast message, the others with "Price is required"; 0 passes |
| MenuModel.ZeroPriceAccepted | src/models/menu.js:14-17 | a price of zero passes validation and is stored as 0, whether sent as a number or as the text "0" |
| MenuModel.CategoryFailures | src/models/menu.js:18-22 | the category fails exactly when it is missing or outside the enum |
| MenuModel.ValidateMenu | src/models/menu.js:3-33 | an item passes exactly when name, description, price and category satisfy their rules (the price cast included); the image has no rule |
| MenuModel.NewMenuItem | src/models/menu.js:3-33 | a valid item is stored with a trimmed name, the cast price, the parsed category, the given image, and `inStock` defaulting to true |
| OrderModel.ParseStatus | src/models/order.js:14-18 | only "processing", "completed" and "cancelled" are accepted |
| OrderModel.StatusRoundTrip | src/models/order.js:14-18 | every status's name parses back to it |
| OrderModel.NewOrder | src/models/order.js:3-36 | an order created from its required fields is processing and pending, has an estimate of 600000 ms, and has no optional string set |
| RoleGate.AuthorizedRole | src/middlewares/role.middleware.js:4-27 | a request passes exactly when it names a stored user whose stored role is allowed; otherwise 401 without a user id, 500 when the lookup throws, 404 for an unknown user, 403 for a role not allowed |
| RoleGate.MoreRolesAdmitMore | src/middlewares/role.middleware.js:18 | allowing more roles never turns an admitted request away |
| RoleGate.AdminGate | src/middlewares/role.middleware.js:18-22 | behind the admin gate exactly the stored admins pass |
| CartController.UnwrapItems | src/controllers/cartController.js:56-62 | an array is taken as is, `{items: [...]}` is unwrapped once, anything else is refused |
| CartController.FirstMissing | src/controllers/cartController.js:66-72 | the first submitted item whose lookup finds nothing (its id left out, or not in the catalog), every earlier one found; none exactly when all are found |
| CartController.CheckItems | src/controllers/cartController.js:56-72 | a non-array gives 400; a malformed id gives the CastError (400); a missing menu item gives 404; the request is accepted exactly when every item names an existing menu item, and then yields exactly the submitted ids and quantities |
| CartController.LeftOutIdReported | src/controllers/cartController.js:66-72 | an entry without `menuItemId` is looked up as `findById(undefined)`, finds nothing, and is answered 404 "Menu item with ID undefined not found" |
| CartController.FindFirst | src/controllers/cartController.js:81 | `find` gives the first line satisfying the predicate, or none exactly when no line does |
| CartController.NewLines | src/controllers/cartController.js:77-78 | a new cart holds one line per submitted item, in order, each with a fresh id |
| CartController.NewLinesKeepDuplicates | src/controllers/cartController.js:77-78 | a new cart keeps duplicate submissions as separate lines |
| CartController.NewLinesWellFormed | src/controllers/cartController.js:78 | a new cart's line ids are distinct and issued |
| CartController.MergeOne | src/controllers/cartController.js:81-82 | no fresh id is used exactly when a line for the item exists, and then the first such line gets the quantity added; otherwise one line with the next fresh id is appended |
| CartController.MergeAll | src/controllers/cartController.js:80-83 | the merge uses at most one fresh id per submitted item and adds exactly one line per fresh id used |
| CartController.MergeItems | src/controllers/cartController.js:80-83 | the loop computes the merge specification and keeps every existing line in place |
| CartController.MergeKeepsExisting | src/controllers/cartController.js:80-83 | merging keeps every existing line at its position with its id and menu item |
| CartController.MergeWellFormed | src/controllers/cartController.js:82 | pushed lines get fresh ids, so line ids stay distinct and issued |
| CartController.MergeNeverDuplicates | src/controllers/cartController.js:80-83 | an item already in the cart keeps its number of lines; an item new to the cart gets exactly one line however often it was submitted |
| CartController.MergeAddsQuantities | src/controllers/cartController.js:80-83 | the quantity per menu item, and over the whole cart, grows by exactly the submitted quantities |
| CartController.NonPositiveQuantityStored | src/models/cart.js:8 | a new line keeps whatever quantity was asked for, zero and negative ones included: the schema has no lower bound |
| CartController.AddToCart | src/controllers/cartController.js:50-91 | a refused request changes nothing; otherwise 201, with the user's cart created from the items or merged into |
| CartController.LineIndex | src/controllers/cartController.js:139 | the line whose subdocument id the request names, or none exactly when no line has it |
| CartController.SetQuantityTouchesOneLine | src/controllers/cartController.js:142 | setting a quantity changes that line's quantity and no other line |
| CartController.QuantityFailures | src/models/cart.js:8 | a line's quantity fails validation exactly when it is left out, with the `required` message |
| CartController.UpdateCartItem | src/controllers/cartController.js:123-150 | quantity ≤ 0 gives 400; a left-out quantity passes that guard; no cart or no such line gives 404; a left-out quantity then fails the save with a validation error (400) and changes nothing; otherwise exactly that line's quantity is set |
| CartController.Splice | src/controllers/cartController.js:189 | removing index i keeps the lines before i and shifts the ones after it down by one |
| CartController.SpliceRemovesOne | src/controllers/cartController.js:189 | exactly one line is removed: the removed id is gone and every other line remains, ids still distinct |
| CartController.RemoveCartItem | src/controllers/cartController.js:158-200 | missing user or line id gives 400; no cart, an empty cart or an unknown line gives 404; otherwise that line is spliced out |
| CartController.FindCart | src/controllers/cartController.js:214 | a lookup by `userId` finds the user's cart; a lookup by `user` finds none |
| CartController.ClearFound | src/controllers/cartController.js:216-227 | no cart gives 404; an empty cart gives 200 with `success: false`; otherwise the cart's lines are dropped |
| CartController.ClearCartAsWritten | src/controllers/cartController.js:211-232 | as written, clearing always answers 404 "Cart not found" and changes nothing |
| CartController.ClearCartLookupMisses | src/controllers/cartController.js:214 | a user with a non-empty cart is not found by the `user` filter but is found by `userId` |
| CartController.ClearCart | src/controllers/cartController.js:211-232 | with the lookup by `userId`: 404 without a cart, 200 `success: false` on an empty cart, otherwise the cart is emptied |
| OrderController.Snapshot | src/controllers/orderController.js:24-28 | one order line per cart line, in order, with the quantity copied and the catalog price as price at purchase |
| OrderController.CartTotal | src/controllers/orderController.js:21 | the `reduce` over the cart is non-negative when every price and quantity is, and is price times quantity for a one-line cart |
| OrderController.SnapshotTotal | src/controllers/orderController.js:21-28 | the total computed by `reduce` equals the sum of price at purchase times quantity over the stored lines |
| OrderController.GatewayRequestFor | src/controllers/orderController.js:37-41 | the gateway is asked for the total times 100, in INR |
| OrderController.PlacedOrder | src/controllers/orderController.js:49-57 | the stored order is processing and pending, has `transactionId` "", the gateway id, and no payment id or signature |
| OrderController.CreateOrder | src/controllers/orderController.js:7-72 | no cart or an empty cart gives 400; a vanished menu item or a throwing gateway gives 500 "Error creating order"; a falsy gateway id gives 500; each failure changes nothing; otherwise a fresh order is stored and the cart emptied (201) |
| OrderController.GetUserOrders | src/controllers/orderController.js:84-88 | 200 exactly when the user has an order; otherwise 404 "No orders found for this user" |
| OrderController.UpdateOrderStatus | src/controllers/orderController.js:112-134 | a malformed id gives 500 and an unknown id 404, both before the status is checked; a status outside the enum gives 400; otherwise only `status` changes |
| PaymentController.SignedText | src/controllers/paymentController.js:80 | the signed text is the order id, "\|", and the payment id |
| PaymentController.SignedTextInjective | src/controllers/paymentController.js:80 | for order ids without "\|", the signed text determines both ids |
| PaymentController.Settle | src/controllers/paymentController.js:88-90 | confirmation makes the order paid with the given payment id and signature and changes nothing else |
| PaymentController.Capture | src/controllers/paymentController.js:153-154 | a captured webhook makes the order paid with the payment id and leaves the signature and everything else alone |
| PaymentController.VerifyPayment | src/controllers/paymentController.js:67-101 | an unknown gateway order gives 404 and a signature other than the HMAC of "order\|payment" gives 401, both changing nothing; otherwise the order is settled and the user's cart deleted (200) |
| PaymentController.HandleWebhook | src/controllers/paymentController.js:107-165 | a missing signature or one other than the HMAC of the body gives 400; a captured event without an entity gives 500; an unknown order gives 404; a captured event marks the order paid; any other event gives 200 and changes nothing |
| PaymentController.PaidIsAbsorbing | src/controllers/paymentController.js:88 | once paid, an order stays paid whatever is written to it afterwards |
| PaymentController.NeverFailed | src/controllers/paymentController.js:153 | no write makes an order `failed` |
| PaymentController.PaidAfterPayment | src/controllers/paymentController.js:153 | after any payment write the order is paid |
| PaymentController.LatestPaymentRefKept | src/controllers/paymentController.js:87-91 | the stored payment id is the one the last payment write recorded; there is no already-paid guard |
| PaymentController.PurchaseUnchanged | src/controllers/paymentController.js:87-91 | payment and status writes never change the buyer, the lines, the total or the gateway order id |
| PaymentController.ConfirmTwice | src/controllers/paymentController.js:87-91 | confirming twice leaves the order paid with the second confirmation's ids |
| MenuController.MissingFields | src/controllers/menuController.js:32-34 | the request is refused exactly when name, description, price or category is falsy: the number 0 is refused, while the text "0" a multipart form sends is not |
| MenuController.UploadFailure | src/controllers/menuController.js:36-47 | an upload without `secure_url` or one that throws gives 500; no file or a URL gives no error |
| MenuController.ImageAfter | src/controllers/menuController.js:172-182 | the image is the new URL after an upload and the current one otherwise |
| MenuController.CreateFailuresAfterPresenceCheck | src/controllers/menuController.js:32-58 | after the presence check only a blank name, a price text that is not a number or a category outside the enum can fail validation |
| MenuController.TextZeroPriceCreated | src/controllers/menuController.js:32-58 | with a valid name and category, the text price "0" passes the presence check and validation, and the item is stored with price 0 |
| MenuController.Insert | src/controllers/menuController.js:51-58 | a created item is stored under a fresh id |
| MenuController.AddMenuItem | src/controllers/menuController.js:27-75 | missing fields give 400 and a failed upload 500; validation failures give 400 with the failing fields; each failure changes nothing; otherwise a new item is stored (201) |
| MenuController.GetMenuItem | src/controllers/menuController.js:96-114 | a malformed id gives 400 before any lookup, an absent item 404, otherwise 200 |
| MenuController.UpdateFailures | src/controllers/menuController.js:191-195 | once the update is cast, the validators fail exactly when it sends a name that trims to nothing, an empty description, a price that became `null` or a category outside the enum |
| MenuController.ApplyUpdate | src/controllers/menuController.js:191-195 | the fields sent replace the stored ones (the name trimmed, the price cast) and the fields left out are kept |
| MenuController.AcceptedUpdateKeepsRequired | src/controllers/menuController.js:191-195 | an accepted update never stores an empty name or description |
| MenuController.UpdateIdempotent | src/controllers/menuController.js:191-195 | applying the same update twice equals applying it once |
| MenuController.EmptyUpdateKeepsItem | src/controllers/menuController.js:191-195 | an empty body without a new image leaves the item unchanged |
| MenuController.UpdateMenuItem | src/controllers/menuController.js:164-211 | a malformed id gives 500 and an unknown id 404; a failed upload gives 500; a price that fails the cast gives 500 "Internal server error"; a failing validator gives 400; each failure leaves the item unchanged; otherwise the update is applied and the image kept unless a new one was uploaded |
| MenuController.DeleteMenuItem | src/controllers/menuController.js:215-226 | a malformed or unknown id ends in a rejected 500; otherwise the item is removed (200) |
| UserController.GetUserProfile | src/controllers/userController.js:6-15 | 200 exactly when the user exists, otherwise 404 "User not found" |
| UserController.ProfileFailures | src/controllers/userController.js:26-30 | an update passes exactly when the name trims to something and the phone is a non-empty mobile number |
| UserController.ApplyProfile | src/controllers/userController.js:26-34 | validation failures (400) come before the lookup (404); otherwise only name and phone change |
| UserController.UpdateUserProfile | src/controllers/userController.js:18-38 | a falsy name or phone gives 400; otherwise the trimmed values are validated, then written to the user |
| UserController.ProfileUpdateStoresTrimmed | src/controllers/userController.js:23-28 | an accepted update stores a non-empty trimmed name and a trimmed mobile number |
| UserController.DeleteUser | src/controllers/userController.js:41-48 | 200 whether or not the user existed; only the user is removed |

## Left out

- Authentication (src/controllers/authController.js, src/middlewares/auth.middleware.js) is not part of this model. Tokens, bcrypt and cookies are foreign code; the authenticated user id is a parameter.
- Cryptography: HMAC-SHA256 and the bcrypt digest are parameters, not modelled internally.
- Webhook body: the text the webhook signature is checked over is a string parameter, and the event is a parsed value. As wired, `express.raw` (src/app.js:30, src/routes/paymentRoutes.js:9) leaves `req.body` a Buffer. The handler then signs `JSON.stringify` of that Buffer, not the bytes the gateway signed, and reads `event.event` as `undefined`. So in the deployed app no webhook ever marks an order paid; `HandleWebhook` describes the handler for a body that was parsed as JSON.
- Image and file I/O: the cloud upload, `deleteLocalFiles` and multer's disk writes are left out. Only the upload's outcome is an input.
- Route wiring, body parsers and CORS are not modelled. This includes the cart router sending `DELETE /clear` to `removeCartItem`, because `/:cartItemId` is registered first.
- The process-level `uncaughtException` and `unhandledRejection` handlers are left out.
- src/models/payment.js is not part of this model, because no handler uses it.
- `getCartItems` and `getAllOrders` are left out. They are read-only projections (`populate`, `select`); timestamps are left out too.
- Concurrency: handlers run one at a time. Races between the client confirmation and the webhook are not modelled.
- No countdown of `estimatedTimeRemaining` exists in the code, so none is modelled.
- Prices and quantities are integers. JavaScript `Number` rounding (of `totalPrice * 100`, say) is not modelled.
- Database and network failures are not modelled. These include a failing `save`, a dropped connection and a catch block reached only through them.
- Strings.ToLower: lowercases ASCII letters only, not the full Unicode mapping of `toLowerCase`.
- Lengths are counted in characters, not UTF-16 code units.
- CartController.UpdateCartItem: does not model a quantity sent as a string. A numeric string would be cast and stored as a number, and a non-numeric one would pass the `<= 0` guard and fail the cast at the save.
- MenuController.UpdateMenuItem: `inStock` is taken as already cast to a boolean, here and in `AddMenuItem`. A multipart form sends it as text, and text that Mongoose's Boolean cast does not accept (it accepts "true", "false", "1", "0", "yes", "no" and the like) fails the cast. The update answers that with 500; creation answers it with a 400 validation error.
- CartController.CheckItems: does not model a `null` element of `items`. Reading `item.menuItemId` from it throws a TypeError (src/controllers/cartController.js:67), which the error middleware answers with 500.
- CartController.AddToCart: does not model missing or non-numeric quantities. Those would fail `required`, or concatenate strings under `+=`.
- CartController.CheckItems: the 404 message shows a valid id in canonical form, 24 lower-case hex digits. The source echoes the submitted text, which differs only when the id is spelled another way.
- CartController.UpdateCartItem: the path id is compared as text with each line's `_id.toString()`, and so is `RemoveCartItem`'s. A valid id stands for its canonical spelling, so the model cannot express another spelling of it (upper-case hex). For such an id the source finds no line and answers 404 ("Cart item not found", "Item not found in cart").
- CartController.AddToCart: a valid id is compared in its canonical form. A body id in another spelling (upper-case hex) would not match its line, and a duplicate line would follow.
- UserController.UpdateUserProfile: does not model non-string `name` or `phone` values passed through `String(...)`.
- PaymentController.VerifyPayment: does not model missing body fields, which would be `undefined`.
- PaymentController.HandleWebhook: does not model a missing webhook secret, which makes `createHmac` throw.
- PaymentController.VerifyPayment: does not model a missing `RAZORPAY_KEY_SECRET`, which makes `createHmac` throw (src/controllers/paymentController.js:79) and the handler answer 500 "Payment verification failed.".
- Rejected promises: `deleteMenuItem` throws from an async handler without `next`. `Http.Status` routes that to the error middleware, as Express 5 does. Under Express 4 the request would get no response at all.
- src/utils/ApiError.js is not part of this model. An ApiError is a code, a message and a list of field errors.
- Dead code: the commented-out handlers in the cart, payment and menu controllers are not modelled.

## Findings

| source | as written | input that shows it | evidently intended | confidence | as-written member | corrected member |
|---|---|---|---|---|---|---|
| src/controllers/cartController.js:214 | `clearCart` looks the cart up with `Cart.findOne({ user: userId })`, but the cart schema has no `user` path, so the filter matches no cart (with `strictQuery` on, as in older Mongoose versions, it would instead be dropped and match any user's cart) | a user whose cart holds one line calls clear: the answer is 404 "Cart not found" and the line stays | look the cart up by `userId`, as every other cart handler does (line 75) | not executed | CartController.ClearCartAsWritten | CartController.ClearCart |
