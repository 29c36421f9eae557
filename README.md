# ambu-crackers storefront: a Dafny model of its core

This project models the core of the ambu-crackers fireworks storefront. The storefront has two parts:

- a React/TypeScript frontend: the shop page with its cart, the quick-checkout page, the contact form, the admin product table and add-product form, the admin voucher board, the toast hook, the disclaimer popup and the HTTP helper;
- a Flask backend: the product endpoints, admin authentication, coupon validation, the voucher schema and the two invoice PDF renderers.

Each core source file becomes one module:

| module | models |
|---|---|
| `Shop` | frontend/src/pages/Shop.tsx |
| `TableQty` | frontend/src/components/TableQty.tsx |
| `QuickCheckout` | frontend/src/pages/QuickCheckout.tsx |
| `Contact` | frontend/src/pages/Contact.tsx |
| `Offer` | frontend/src/pages/admin-panel/Offfer.tsx |
| `ProductList` | frontend/src/pages/admin-panel/ProductList.tsx |
| `AddProduct` | frontend/src/pages/admin-panel/add-prodect.tsx |
| `Toast` | frontend/src/pages/Toast/useToast.tsx |
| `Disclaimer` | frontend/src/pages/alertmessage.tsx |
| `ApiClient` | frontend/src/api.ts |
| `ProductsApi` | backend/main.py |
| `Authz` | backend/authz.py |
| `Coupon` | backend/utils/order_utils.py |
| `VoucherSchema` | backend/schema.py |
| `InvoiceV1` | backend/pdf_utils.py |
| `InvoiceV2` | backend/utils/pdf_utils.py |
| `InvoiceLines` | the item loop both renderers share |

Three modules are shared by the others:

- `Common`: Option and Result, filter, sum and de-duplication over sequences, JavaScript and Python white space, ASCII case folding, substring search.
- `Types`: the record types of frontend/src/types.ts.
- `Json`: backend JSON values and Python's conversions of them: truthiness, `str(v).lower()`, `float(v)` and `int(v)`.

One module stands apart: `EditUpload` holds the image upload request of the admin edit dialog, as sent by `ApiClient` and answered by `ProductsApi.UploadImage`. It backs the entry under "## Findings".

How state is modelled:

- A React component with state is a `class`. Its fields are the component's state.
- Each event handler is a method whose `ensures` gives the whole new state.
- What the handler computes is specified by functions, with lemmas about those functions.
- The outcome of an awaited request is a parameter: whether it returned, and what it returned. So are the clock (`Date.now()`), `Math.random()` and the Firestore-assigned ids.
- The backend handlers act on a `ProductsBackend` object whose `db` field stands for the Firestore `products` collection.

What is abstracted:

- Money is exact `real` rupees.
- Python's parsing of numeric strings (`int("…")`, `float("…")`) is a parameter (`NumberParsers`).
- So are JavaScript's `parseFloat` of a spreadsheet cell and `JSON.stringify`.
- So are Firebase token verification, the `roles` lookup and the bucket's public-URL rule.

Behaviour of the code a reader might not expect:

- the shop cart changes only by `add` and `remove`: a quantity cannot be typed in, and removing a product at quantity 1 deletes it, so no stored quantity reaches zero (`Shop.ReplayKeepsNoZero`);
- the order endpoint imports the older renderer (backend/main.py:7), so invoices ignore the order's stored, discounted `total` (`InvoiceV1.StoredTotalIgnored`);
- the product update whitelist drops `sequence_number` (backend/main.py:118), so an edit of it in the admin dialog is never stored (`ProductsApi.PatchOnlyWhitelisted`).

## Model

| member | source | states |
|---|---|---|
| Shop.Add | frontend/src/pages/Shop.tsx:20-22 | the product's quantity goes up by one, an absent id counting as 0; every other entry is untouched |
| Shop.Remove | frontend/src/pages/Shop.tsx:24-34 | a quantity above 1 goes down by one; a quantity of 1, or an absent id, is deleted; other entries are untouched |
| Shop.ReplayKeepsNoZero | frontend/src/pages/Shop.tsx:20-34 | every sequence of add/remove presses keeps every stored quantity at 1 or more |
| Shop.FromEmptyNoZero | frontend/src/pages/Shop.tsx:10-34 | starting from the empty cart, no sequence of presses stores a quantity below 1 |
| Shop.AddThenRemove | frontend/src/pages/Shop.tsx:20-34 | add then remove of the same product gives back exactly the cart it started from |
| Shop.ItemsExactly | frontend/src/pages/Shop.tsx:36-38 | the listed items are exactly the catalogue products whose quantity is truthy, each with that quantity; cart ids missing from the catalogue produce nothing |
| Shop.Items | frontend/src/pages/Shop.tsx:36-38 | the cart's lines: the catalogue filtered by `cart[p.id]` and mapped to its quantity; specified by `Shop.ItemsExactly` and `Shop.ItemsAppend` |
| Shop.ItemsAppend | frontend/src/pages/Shop.tsx:36-38 | the items follow catalogue order |
| Shop.TotalOverCatalogue | frontend/src/pages/Shop.tsx:36-40 | the cart total is the sum of price × quantity over the whole catalogue, unselected products counting 0 |
| Shop.Total | frontend/src/pages/Shop.tsx:40 | the cart total, a left fold of price × quantity; specified by `Shop.TotalOverCatalogue` |
| Shop.ShopPage.SetProducts | frontend/src/pages/Shop.tsx:13-18 | the fetched catalogue replaces the old one; the cart and its invariant are kept |
| Shop.ShopPage.OnAdd | frontend/src/pages/Shop.tsx:20-22 | the new cart is `Add` of the old one and the no-zero invariant holds |
| Shop.ShopPage.OnRemove | frontend/src/pages/Shop.tsx:24-34 | the new cart, built in a copy, is `Remove` of the old one and the no-zero invariant holds |
| TableQty.Minus | frontend/src/components/TableQty.tsx:4 | the result is never negative: one less for values of 1 or more, 0 otherwise |
| TableQty.Plus | frontend/src/components/TableQty.tsx:6 | the plus button adds one; tied to `Minus` by `TableQty.MinusThenPlus` and `TableQty.PlusThenMinus` |
| TableQty.MinusThenPlus | frontend/src/components/TableQty.tsx:4-6 | on a value of 1 or more, minus then plus gives back the value |
| TableQty.PlusThenMinus | frontend/src/components/TableQty.tsx:4-6 | on a non-negative value, plus then minus gives back the value |
| TableQty.Typed | frontend/src/components/TableQty.tsx:5 | a typed value, when it is a number, is never negative |
| TableQty.ParseInt | frontend/src/components/TableQty.tsx:5 | JavaScript `parseInt` with radix detection; specified by `TableQty.ParseIntPrefix`, `TableQty.ParseShowRoundTrip` and the `Typed…` lemmas |
| TableQty.ParseIntPrefix | frontend/src/components/TableQty.tsx:5 | `parseInt` reads a rendered number back whatever non-digit text follows it |
| TableQty.ParseShowRoundTrip | frontend/src/components/TableQty.tsx:5 | `parseInt(String(n)) == n` for every natural number |
| TableQty.TypedNumber | frontend/src/components/TableQty.tsx:5 | typing a number emits it, with a trailing fraction or exponent cut off |
| TableQty.TypedNegative | frontend/src/components/TableQty.tsx:5 | typing a negative integer emits 0 |
| TableQty.TypedEmpty | frontend/src/components/TableQty.tsx:5 | clearing the field emits 0 |
| TableQty.TypedNoNumber | frontend/src/components/TableQty.tsx:5 | a text whose first character is not white space, a sign or a digit (any letter included) emits NaN, here no number at all |
| QuickCheckout.Rows | frontend/src/pages/QuickCheckout.tsx:40-44 | one row per catalogue product, in order, with quantity `qty[id] \|\| 0` and amount quantity × price |
| QuickCheckout.RowsTotalIsCatalogueSum | frontend/src/pages/QuickCheckout.tsx:40-45 | the checkout total is the catalogue-wide sum of price × quantity, and equal to the shop page's total for the same map |
| QuickCheckout.OrderItemsExactly | frontend/src/pages/QuickCheckout.tsx:76-84 | the submitted items are exactly the rows with a positive quantity; there are none iff no quantity is positive |
| QuickCheckout.OrderItems | frontend/src/pages/QuickCheckout.tsx:76-84 | the submitted items; specified by `QuickCheckout.OrderItemsExactly` |
| QuickCheckout.ZeroRowsAddNothing | frontend/src/pages/QuickCheckout.tsx:45-84 | when rows without a positive quantity have zero amount, the row total equals the total of the submitted items |
| QuickCheckout.TotalEqualsSubmittedItems | frontend/src/pages/QuickCheckout.tsx:40-98 | with no negative quantity, the total sent equals the sum of price × quantity over the items sent |
| QuickCheckout.ValidationIsUnique | frontend/src/pages/QuickCheckout.tsx:50-66 | the error map of a customer is unique |
| QuickCheckout.Validate | frontend/src/pages/QuickCheckout.tsx:50-66 | one message per failing field, "required" winning over the format message; ok iff the map is empty iff the customer is valid |
| QuickCheckout.QuickCheckoutPage.Loaded | frontend/src/pages/QuickCheckout.tsx:27-37 | a failed fetch or a non-array body leaves an empty catalogue; nothing else changes |
| QuickCheckout.QuickCheckoutPage.SetQty | frontend/src/pages/QuickCheckout.tsx:150 | the stepper's value (zero included) is stored for that id; no quantity is negative |
| QuickCheckout.QuickCheckoutPage.SetCustomer | frontend/src/pages/QuickCheckout.tsx:210-246 | typing replaces the customer fields only |
| QuickCheckout.QuickCheckoutPage.Reset | frontend/src/pages/QuickCheckout.tsx:311 | the quantities are cleared and nothing else changes |
| QuickCheckout.QuickCheckoutPage.PlaceOrder | frontend/src/pages/QuickCheckout.tsx:68-115 | an order is posted iff the customer is valid and some row has a positive quantity; the payload is the customer, those items and the total; the errors otherwise; the form is reset only when the post returns |
| Contact.StrictImpliesLoose | frontend/src/pages/Contact.tsx:19 | every email the contact form accepts is accepted by the unanchored checkout pattern too |
| Contact.LooseNotStrict | frontend/src/pages/Contact.tsx:19 | the converse fails: white space before the address passes the checkout pattern only |
| Contact.ValidateEnquiry | frontend/src/pages/Contact.tsx:15-22 | one message per failing field, nothing else; the map is empty iff every field is filled and the email is well formed |
| Contact.ContactForm.Edit | frontend/src/pages/Contact.tsx:68-115 | typing changes the form only |
| Contact.ContactForm.Submit | frontend/src/pages/Contact.tsx:15-32 | the enquiry is posted iff it is valid; the form is emptied and thanked only when the post returns |
| Coupon.ValidateCoupon | backend/utils/order_utils.py:4-36 | a bad amount is refused first; then only BLACKFRIDAY (percentage) and FLAT100 (flat) are valid, echoing the amount |
| Coupon.SavingMatchesDiscountValue | backend/utils/order_utils.py:11-34 | for every amount, negative ones included, the saving is 20 % of it, or 100 capped at the amount (the whole amount when below 100) |
| Coupon.RevisedWithinBounds | backend/utils/order_utils.py:11-34 | on a non-negative amount the revised amount lies between 0 and the amount |
| Coupon.FlatNeverNegative | backend/utils/order_utils.py:23-34 | the flat discount never goes below zero |
| VoucherSchema.StrField | backend/schema.py:4-5 | a string field loads iff present and a string; absent and not required means absent |
| VoucherSchema.DiscountTypeField | backend/schema.py:6 | loads iff the value is "flat" or "percentage" |
| VoucherSchema.DiscountValueField | backend/schema.py:7 | a loaded discount value is at least 2; the field is required |
| VoucherSchema.UnknownErrors | backend/schema.py:3-7 | exactly the undeclared keys are reported |
| VoucherSchema.Load | backend/schema.py:3-7 | `VoucherSchema().load`; specified by `VoucherSchema.LoadedIsWellFormed` and `VoucherSchema.LoadDumpRoundTrip` |
| VoucherSchema.LoadedIsWellFormed | backend/schema.py:3-7 | every loaded voucher has a valid type and a value of at least 2 |
| VoucherSchema.LoadDumpRoundTrip | backend/schema.py:3-7 | loading the object written for a well-formed voucher gives it back |
| VoucherSchema.DiscountValueBoundary | backend/schema.py:7 | 2 is accepted; anything below is refused with the range message alone |
| VoucherSchema.BooleanDiscountRefused | backend/schema.py:7 | a boolean discount value is refused as not a number |
| VoucherSchema.CodeRequiredTitleOptional | backend/schema.py:4-5 | a missing code is the only error; a missing title is none |
| VoucherSchema.UnknownKeyRefused | backend/schema.py:3-7 | one extra key fails the load with exactly that error |
| Offer.ThemeFor | frontend/src/pages/admin-panel/Offfer.tsx:14-58 | the theme is one of the eight colours |
| Offer.WithoutRemovesExactly | frontend/src/pages/admin-panel/Offfer.tsx:77-79 | after deletion exactly the coupons with another id remain |
| Offer.Without | frontend/src/pages/admin-panel/Offfer.tsx:78 | the filter by id; specified by `Offer.WithoutRemovesExactly`, `Offer.WithoutAbsentId` and `Offer.AddThenDelete` |
| Offer.WithoutAbsentId | frontend/src/pages/admin-panel/Offfer.tsx:77-79 | deleting an id no coupon has changes nothing |
| Offer.AddThenDelete | frontend/src/pages/admin-panel/Offfer.tsx:55-79 | adding under a fresh id and deleting it restores the list, order included |
| Offer.GuardIsOnlyTruthiness | frontend/src/pages/admin-panel/Offfer.tsx:56 | every white-space title and every negative discount passes the guard; a form is refused only for an empty field or a zero discount |
| Offer.AdminOffer.SetForm | frontend/src/pages/admin-panel/Offfer.tsx:26-29 | the three inputs change and the list does not |
| Offer.AdminOffer.AddCoupon | frontend/src/pages/admin-panel/Offfer.tsx:55-74 | a refused form changes nothing; an accepted one appends one coupon with the form's values and resets the form |
| Offer.AdminOffer.DeleteCoupon | frontend/src/pages/admin-panel/Offfer.tsx:77-79 | the list loses the coupons with that id; the form is untouched |
| ProductList.FilteredExactly | frontend/src/pages/admin-panel/ProductList.tsx:51-55 | the filtered list holds exactly the products whose name, or present non-empty category, contains the term, ignoring the case of ASCII letters |
| ProductList.Filtered | frontend/src/pages/admin-panel/ProductList.tsx:51-55 | the search filter; specified by `ProductList.FilteredExactly` and `ProductList.SearchIgnoresTermCase` |
| ProductList.EmptySearchKeepsAll | frontend/src/pages/admin-panel/ProductList.tsx:51-55 | an empty search keeps every product in order |
| ProductList.SearchIgnoresTermCase | frontend/src/pages/admin-panel/ProductList.tsx:51-55 | lower-casing the term does not change the result |
| ProductList.Page | frontend/src/pages/admin-panel/ProductList.tsx:48-167 | at most 15 rows, row i being filtered product 15 × page + i |
| ProductList.PageLocates | frontend/src/pages/admin-panel/ProductList.tsx:48-167 | filtered product i is shown on page i / 15 at row i % 15 |
| ProductList.StalePageIsEmpty | frontend/src/pages/admin-panel/ProductList.tsx:46-167 | a page past the end of a narrower search shows no row, since searching does not reset the page |
| ProductList.Merge | frontend/src/pages/admin-panel/ProductList.tsx:79-81 | each of the nine fields is the form's value when the form holds that key and the product's otherwise; `image_url` is always replaced, even by undefined |
| ProductList.SaveUnchangedIsIdentity | frontend/src/pages/admin-panel/ProductList.tsx:79-188 | editing and saving without a change gives the product back |
| ProductList.MergeIdempotent | frontend/src/pages/admin-panel/ProductList.tsx:79-81 | saving the same form twice is saving it once |
| ProductList.UpdateByIdShape | frontend/src/pages/admin-panel/ProductList.tsx:81 | same length; products with the id merged, all others untouched |
| ProductList.UpdateById | frontend/src/pages/admin-panel/ProductList.tsx:81 | the merge by id; specified by `ProductList.UpdateByIdShape` and `ProductList.UpdateAbsentId` |
| ProductList.UpdateAbsentId | frontend/src/pages/admin-panel/ProductList.tsx:81 | an update for an id the list lacks changes nothing |
| ProductList.RemoveByIdExactly | frontend/src/pages/admin-panel/ProductList.tsx:88-91 | exactly the products with another id remain |
| ProductList.RemoveById | frontend/src/pages/admin-panel/ProductList.tsx:90 | the filter by id; specified by `ProductList.RemoveByIdExactly` |
| ProductList.ProductTable.SetSearch | frontend/src/pages/admin-panel/ProductList.tsx:47 | the term changes and the page index does not |
| ProductList.ProductTable.SetPage | frontend/src/pages/admin-panel/ProductList.tsx:117-119 | only the page index changes |
| ProductList.ProductTable.StartEdit | frontend/src/pages/admin-panel/ProductList.tsx:186-188 | the dialog opens on the product with a copy of all its keys |
| ProductList.ProductTable.EditForm | frontend/src/pages/admin-panel/ProductList.tsx:223-250 | only the form changes |
| ProductList.ProductTable.ChooseFile | frontend/src/pages/admin-panel/ProductList.tsx:58-62 | the file is stored; a selected file puts its preview URL into the form |
| ProductList.ProductTable.UpdateProduct | frontend/src/pages/admin-panel/ProductList.tsx:65-85 | the PUT is sent iff a product is being edited and, with a chosen file, the upload call returned and the file PUT did not reject; the image URL sent is the reply's `public_url`; the list, merged by id, changes only when the PUT returns, and every throw leaves the state as it was |
| ProductList.ProductTable.RemoveProduct | frontend/src/pages/admin-panel/ProductList.tsx:88-91 | the list loses the id only when the DELETE returns |
| AddProduct.CategoryColumn | frontend/src/pages/admin-panel/add-prodect.tsx:23 | one category per product, in order |
| AddProduct.CategoriesExactly | frontend/src/pages/admin-panel/add-prodect.tsx:21-26 | the suggestions are the distinct categories, each once, in first-occurrence order; none without products |
| AddProduct.ValidateForm | frontend/src/pages/admin-panel/add-prodect.tsx:56-64 | one message per failing rule; empty iff the form is valid |
| AddProduct.PayloadOf | frontend/src/pages/admin-panel/add-prodect.tsx:72-81 | the defaults are active, empty description and sequence number 1; prices non-negative, name, category and image present |
| AddProduct.BulkRowByRow | frontend/src/pages/admin-panel/add-prodect.tsx:114-136 | every invalid row gives one "Invalid row: " message, every valid row whose POST threw one "Failed row: " message, every other row its created product; messages and products each in row order |
| AddProduct.Bulk | frontend/src/pages/admin-panel/add-prodect.tsx:114-136 | every row ends as exactly one error or one created product |
| AddProduct.BulkAllGood | frontend/src/pages/admin-panel/add-prodect.tsx:114-136 | with every row valid and posted, no errors and the responses in row order |
| AddProduct.InvalidRowsIgnorePost | frontend/src/pages/admin-panel/add-prodect.tsx:126-129 | an invalid row never reaches the server |
| AddProduct.RowPayload | frontend/src/pages/admin-panel/add-prodect.tsx:116-124 | a valid row posts its name and category cells, MRP and price through `parseFloat`, a falsy description or image URL as "", and `Active` as a boolean defaulting to true |
| AddProduct.ProcessRows | frontend/src/pages/admin-panel/add-prodect.tsx:111-136 | the loop's errors and created products are those of `Bulk`; it posts exactly the payloads of the valid rows, in row order |
| AddProduct.ProductForm.EditForm | frontend/src/pages/admin-panel/add-prodect.tsx:10 | only the form changes |
| AddProduct.ProductForm.CreateCategory | frontend/src/pages/admin-panel/add-prodect.tsx:210-213 | a created category is appended to the options, duplicates included, and chosen in the form; nothing else changes |
| AddProduct.ProductForm.ChooseImage | frontend/src/pages/admin-panel/add-prodect.tsx:29-53 | the preview follows the file, and the URL is cleared and then set only by a successful upload |
| AddProduct.ProductForm.SaveProduct | frontend/src/pages/admin-panel/add-prodect.tsx:67-93 | posted iff valid, with the payload; on success the product is prepended and the form reset |
| AddProduct.ProductForm.ChooseBulkFile | frontend/src/pages/admin-panel/add-prodect.tsx:96-101 | the file is stored and old bulk errors cleared |
| AddProduct.ProductForm.UploadBulk | frontend/src/pages/admin-panel/add-prodect.tsx:103-141 | no file does nothing and posts nothing; otherwise the payloads of the valid rows are posted, the created products go first in file order and the errors are stored |
| Toast.RenderOnePerEntry | frontend/src/pages/Toast/useToast.tsx:25-36 | one view per toast, in order, each closing its own id |
| Toast.Render | frontend/src/pages/Toast/useToast.tsx:25-36 | the toast views; specified by `Toast.RenderOnePerEntry` |
| Toast.SameMillisecondToastsCloseTogether | frontend/src/pages/Toast/useToast.tsx:15-22 | two toasts added in the same millisecond are removed by one close |
| Toast.Toaster.AddToast | frontend/src/pages/Toast/useToast.tsx:15-18 | one toast is appended with the clock as id, type "info" by default |
| Toast.Toaster.RemoveToast | frontend/src/pages/Toast/useToast.tsx:20-22 | the toasts with that id are removed |
| Disclaimer.DisclaimerWrapper.Mount | frontend/src/pages/alertmessage.tsx:7-28 | loaded afterwards; the popup shows iff storage could be read and the key is unset or empty; the wrapper then renders the children, with the popup in exactly that case |
| Disclaimer.DisclaimerWrapper.Accept | frontend/src/pages/alertmessage.tsx:17-28 | stores "true" and hides the popup, so a loaded wrapper renders the children alone; a throwing `setItem` changes neither storage nor popup |
| Disclaimer.AcceptThenReload | frontend/src/pages/alertmessage.tsx:7-28 | after accepting, a reload shows the children without the popup |
| ApiClient.NoUrlNormalisation | frontend/src/api.ts:1-10 | base and path are concatenated as they are, so a double slash can appear |
| ApiClient.BuildRequest | frontend/src/api.ts:1-14 | the URL is the configured base (or "/" when unset or empty) followed by the path; Authorization iff the token is truthy; JSON content type iff the body is not form data; the body is passed, stringified, or dropped when falsy |
| ApiClient.GetRequest | frontend/src/api.ts:1-20 | a body-less GET to the same URL as `j`, still declaring JSON |
| ApiClient.EmptyContainersAreSent | frontend/src/api.ts:13 | `{}` and `[]` are sent; `0`, `false` and `""` are not |
| ApiClient.Settle | frontend/src/api.ts:10-17 | resolves iff `fetch` resolved with an ok response whose text parses, to that parsed value; a rejected `fetch`, a non-ok response (with its text as message) and an unparsable ok body each reject |
| ApiClient.ErrorBodyNeverParsed | frontend/src/api.ts:16 | a non-ok response rejects the same way whatever its body would parse to |
| ApiClient.Call | frontend/src/api.ts:3-18 | the request sent has the URL and Authorization rule of `BuildRequest`, and `j` resolves iff the server's answer to that request is ok and parses |
| Authz.AfterWordAndSpace | backend/authz.py:29 | the split after a space-free word is the rest |
| Authz.TokenAfterPrefix | backend/authz.py:26-29 | with the Bearer prefix, the token is the rest of the header |
| Authz.UserFromRequest | backend/authz.py:25-40 | no user without the prefix; a user only from a verified token with a uid, carrying its uid and email |
| Authz.AdminOf | backend/authz.py:33-36 | the admin flag; specified by `Authz.ClaimSkipsRolesLookup` and `Authz.RolesDecideWithoutClaim` |
| Authz.ClaimSkipsRolesLookup | backend/authz.py:34-36 | a truthy admin claim makes the user an admin whatever the roles lookup does |
| Authz.RolesDecideWithoutClaim | backend/authz.py:34-40 | without the claim, the roles document decides; no document means not an admin; a failing read means no user |
| Authz.VerifyFailureGivesNoUser | backend/authz.py:31-40 | a token that fails verification gives no user |
| Authz.Gate | backend/authz.py:42-51 | 401 iff there is no user, 403 iff the user is not an admin, the handler iff an admin |
| Authz.RequireAdmin | backend/authz.py:42-51 | the handler's response for admins only; otherwise the rejection |
| Authz.RejectionIgnoresHandler | backend/authz.py:42-51 | for a non-admin the result does not depend on the handler |
| ProductsApi.ListingEntries | backend/main.py:21-30 | each entry is an active product of the asked category, with its document id and otherwise the stored fields |
| ProductsApi.ListingDistinct | backend/main.py:21-30 | no product is listed twice |
| ProductsApi.ListingComplete | backend/main.py:21-30 | every matching product is listed |
| ProductsApi.ListingNewestFirst | backend/main.py:21-30 | `created_at` does not increase along the listing |
| ProductsApi.StoredDocFacts | backend/main.py:98-107 | prices are stored as floats, `is_active` defaults to true and is otherwise its string test, `created_at` is set, other fields as sent |
| ProductsApi.StoredDoc | backend/main.py:98-107 | the document `create_product` stores; specified by `ProductsApi.StoredDocFacts` and `ProductsApi.CreateConversionOrder` |
| ProductsApi.CreateConversionOrder | backend/main.py:98-104 | a wrongly typed MRP raises before the price is looked at |
| ProductsApi.Whitelist | backend/main.py:118-119 | the patch keeps exactly the whitelisted keys with their values |
| ProductsApi.CoercePatch | backend/main.py:122-125 | the converted patch; specified by `ProductsApi.PatchOnlyWhitelisted` and `ProductsApi.UpdateResponseShape` |
| ProductsApi.PatchOnlyWhitelisted | backend/main.py:118-127 | the written patch never holds `sequence_number` or `id` |
| ProductsApi.UpdateResponseShape | backend/main.py:130 | the update response is the id plus exactly the patch |
| ProductsApi.ClientIdShadowsNewId | backend/main.py:112 | a client-sent `id` field overrides the new id in the create response |
| ProductsApi.ProductsBackend.ListProducts | backend/main.py:21-30 | the loop's output is the listing of the stream |
| ProductsApi.ProductsBackend.CreateProduct | backend/main.py:89-112 | a bad price is a 400 and a wrongly typed one raises, storing nothing; otherwise one document is stored and a 201 echoes it |
| ProductsApi.ProductsBackend.UpdateProduct | backend/main.py:115-130 | conversion errors are a 400 or a raise; an empty written patch or a missing document raises; otherwise the patch is merged and echoed |
| ProductsApi.ProductsBackend.DeleteProduct | backend/main.py:133-137 | the document is gone and the answer is always `deleted: true` |
| ProductsApi.UploadImage | backend/main.py:66-86 | 400 iff no file or an empty file name; otherwise only the public URL of `products/<uuid>-<name>` |
| EditUpload.FilePartOf | backend/main.py:72 | `request.files.get("file")`: only a form-data body carries a file part |
| EditUpload.NoUploadUrlEver | backend/main.py:86 | the upload reply never holds an `upload_url` |
| EditUpload.EditUploadAsWritten | frontend/src/pages/admin-panel/ProductList.tsx:69-77 | the edit dialog's upload is JSON text with no file part, so the backend answers 400 and `j` rejects with the answer's text |
| EditUpload.EditUploadCorrected | frontend/src/pages/admin-panel/add-prodect.tsx:36-48 | sent as the form-data part `file`, a named file is accepted and the URL to save is the public URL of `products/<uuid>-<name>` |
| Json.PyFloat | backend/main.py:98-104 | `float` of an int or float is its value; of None, a list or a dict a TypeError |
| Json.PyInt | backend/pdf_utils.py:21 | `int` of an int is itself; of None, a list or a dict a TypeError |
| Json.TruncToward0 | backend/pdf_utils.py:21 | `int(x)` of a float truncates toward zero |
| Json.StrIsTrue | backend/main.py:106 | `str(v).lower() in ("true", "1")`; used by `ProductsApi.StoredDocFacts` |
| InvoiceLines.LineOf | backend/pdf_utils.py:19-25 | a printed name has at most 38 characters and the amount is quantity × price |
| InvoiceLines.EmptyItemDefaults | backend/pdf_utils.py:19-25 | an item with no keys prints as one "Item" at price 0 |
| InvoiceLines.WalkNoneStaysNone | backend/pdf_utils.py:19-28 | once an item raises, the whole loop raises |
| InvoiceLines.DrawItems | backend/pdf_utils.py:19-28 | the loop's rows, total, cursor and page are those of `Walk` |
| InvoiceLines.WalkRaisesIffSomeItemDoes | backend/pdf_utils.py:19-28 | the loop raises iff some item does |
| InvoiceLines.WalkRows | backend/pdf_utils.py:19-28 | one row per item, in order |
| InvoiceLines.WalkTotal | backend/pdf_utils.py:19-28 | the total is the sum of the row amounts |
| InvoiceLines.WalkStaysOnPage | backend/utils/pdf_utils.py:38-55 | rows lie between the break threshold and a new page's top, and pages never go back |
| InvoiceLines.WalkTotalIgnoresThreshold | backend/utils/pdf_utils.py:38-55 | the total does not depend on the page-break rule |
| InvoiceV1.Render | backend/pdf_utils.py:5-31 | a missing `order_id` or `customer_name` raises |
| InvoiceV1.RenderOrderPdf | backend/pdf_utils.py:5-31 | the renderer's result is `Render` |
| InvoiceV1.TotalIsSumOfItems | backend/pdf_utils.py:19-30 | produced iff every item converts; one row per item; printed total is the sum |
| InvoiceV1.RowsAboveBottomMargin | backend/pdf_utils.py:26-30 | rows at y ≥ 80 on existing pages; the total line at y ≥ 56 |
| InvoiceV1.StoredTotalIgnored | backend/pdf_utils.py:5-31 | the order's stored `total` does not affect the invoice |
| InvoiceV1.NoItemsZeroTotal | backend/pdf_utils.py:19-30 | no items: no rows, total 0, one page |
| InvoiceV2.RenderOrderPdf | backend/utils/pdf_utils.py:5-101 | the renderer's result is `Render` |
| InvoiceV2.Render | backend/utils/pdf_utils.py:5-101 | the newer invoice as a value; the method `InvoiceV2.RenderOrderPdf` is proved equal to it, and its lemmas below state its properties |
| InvoiceV2.TotalsSection | backend/utils/pdf_utils.py:58-97 | the totals section's result is `Finish` |
| InvoiceV2.Finish | backend/utils/pdf_utils.py:58-97 | the totals section as a value; specified by `InvoiceV2.DiscountShownIffBelowSubtotal`, `InvoiceV2.CouponLineRule` and `InvoiceV2.EverythingAboveBottomMargin` |
| InvoiceV2.SubtotalIsSumOfItems | backend/utils/pdf_utils.py:38-66 | one row per item; the subtotal is the sum |
| InvoiceV2.DiscountShownIffBelowSubtotal | backend/utils/pdf_utils.py:69-97 | discount and note iff the final total is below the subtotal, showing the positive difference; no stored total means no discount |
| InvoiceV2.PercentInRange | backend/utils/pdf_utils.py:72-79 | the percentage lies in (0, 100] |
| InvoiceV2.CouponLineRule | backend/utils/pdf_utils.py:82-86 | the coupon line appears iff the code is a non-blank string, which it prints |
| InvoiceV2.NumericCouponCodeRaises | backend/utils/pdf_utils.py:82-86 | a truthy non-string code with a discount raises |
| InvoiceV2.EverythingAboveBottomMargin | backend/utils/pdf_utils.py:38-97 | rows at y ≥ 120; subtotal, discount, coupon, total and note lines above the bottom margin |
| InvoiceV2.EmptyOrderRenders | backend/utils/pdf_utils.py:13-22 | an empty order renders with "N/A" everywhere and a zero total |
| Common.Filter | frontend/src/pages/admin-panel/Offfer.tsx:78 | keeps exactly the accepted elements |
| Common.Dedup | frontend/src/pages/admin-panel/add-prodect.tsx:23 | the distinct elements, each once |
| Common.DedupFirstOccurrenceOrder | frontend/src/pages/admin-panel/add-prodect.tsx:23 | in first-occurrence order |
| Common.TrimEmptyIffBlank | frontend/src/pages/Contact.tsx:17 | `trim()` is empty iff every character is white space |
| Common.IncludesAt | frontend/src/pages/admin-panel/ProductList.tsx:51-55 | `includes` means an occurrence at some position |

## Findings

| source | as written | input that shows it | evidently intended | confidence | as-written member | corrected member |
|---|---|---|---|---|---|---|
| frontend/src/pages/admin-panel/ProductList.tsx:70 | the edit dialog posts the chosen file inside a plain object, `{file}`, which `j` sends as the JSON text of `{"file": {}}`; `upload_image` reads only `request.files` (backend/main.py:72-74), so it answers 400 and `j` throws before the product is saved; the reply has no `upload_url` for the second step either (backend/main.py:86) | saving an edited product after choosing a new image file | upload the file as the form-data part `file`, as the add-product form does (add-prodect.tsx:36-48), and save the reply's `public_url` | high; not executed | EditUpload.EditUploadAsWritten | EditUpload.EditUploadCorrected |

`ProductList.ProductTable.UpdateProduct` takes the upload reply as its parameter `meta`. With the dialog as written and this backend, `meta` is always `None` (`EditUpload.EditUploadAsWritten`), so a chosen file makes every save stop before the PUT. The corrected upload supplies `meta = UploadMeta(None, imageUrl)` from `EditUpload.EditUploadCorrected`, whose URL the save then stores.

## Left out

- Network and I/O are outcome parameters: every `fetch`, Firestore read and write, Cloud Storage upload, email and WhatsApp send. Their ordering across concurrent async handlers is not modelled: each handler runs to completion.
- The `quick_checkout`, `enquiry`, `price_list_url` and `me` endpoints (backend/main.py:32-63) are not modelled. They only forward to storage, email and PDF helpers or echo the user; the invoice renderers they use are modelled.
- Floating point: prices and totals are exact reals, so rounding, NaN and infinity are not modelled. Python's `0.2 * amount` is exact here. marshmallow's handling of nan/inf in `fields.Float` is not modelled.
- `TableQty.Typed`: `Math.max(0, NaN)` is NaN in JavaScript; the model gives `None` for it and does not say what the parent then stores.
- `ProductsApi.ListProducts`: Firestore's order between equal `created_at` values, and across values of different types, is not modelled. The stream is any order Firestore's guarantees allow.
- `ProductsApi.StoredDocFacts`: `created_at` is modelled as the integer server time, not Firestore's timestamp type.
- A non-object JSON body (`request.json` a list or a string) is not modelled; handlers take an object.
- Python's `str()` of heading values and reportlab's drawing (fonts, text width) are not modelled. Only the values shown and their positions are.
- `InvoiceLines.NameOf`: a list-valued item name is treated as raising, although Python would slice it.
- `InvoiceLines.ItemsOf`: a non-empty string or dict of items raises; iteration of a dict's keys is not modelled further.
- `Coupon.ValidateCoupon`: the result keeps `discount_value` as a real; Python's int/float distinction (`100` vs `20.0`) is not kept.
- The admin voucher board's `localStorage` persistence and confetti timer (Offfer.tsx:33-52) are not modelled. They are effects that do not change the coupon list's logic.
- The product table's PDF and Excel export (ProductList.tsx:94-115) is not modelled; it is a third-party file writer.
- Spreadsheet parsing (`XLSX.read`, `sheet_to_json`) is a parameter: the bulk upload takes the parsed rows.
- `ApiClient.BuildRequest`: JavaScript's `NaN` body (falsy) is not modelled, because numbers are reals.
- `ProductList.FilteredExactly`: case folding is ASCII only (`Common.Lower` maps A–Z), while JavaScript's `toLowerCase` folds every Unicode letter; a name such as "ÉCLAIR" searched as "éclair" is found by the page and not by the model. `ProductList.Filtered` and `ProductList.SearchIgnoresTermCase` share this restriction.
- `ProductList.ProductTable.UpdateProduct`: the address and answer of the file PUT to `meta.upload_url` are not modelled; only whether that `fetch` rejects, since it resolves on any HTTP status.
- The category fetch on the shop and checkout pages is not modelled beyond its result; the URL's `encodeURIComponent` is not modelled.
