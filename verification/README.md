# Gatchina Zakroma storefront — a Dafny model of its core

This project models the core of the "Гатчинские закрома" online farm shop.
The shop has six parts, each with its own module:

- **The CSV product importer** (`SeedProducts`). It splits `products.csv` into lines. It parses the `;`-separated header and the quoted fields of each line. It maps each row onto a product and applies the column defaults.
- **The tRPC router** (`Routers`):
  - the cart session cookie;
  - product listing and its three sort orders;
  - the input defaults of `random`, `similar` and `cart.add`;
  - the contact form.
- **The payment callbacks of Paymaster and Ckassa** (`PaymentWebhooks`): the test hook and the payment-status endpoint, over an order store. The store is a map from order number to order.
- **The Paymo payment form and its callback signature check** (`Paymo`).
- **The order e-mails** (`Mailer`): the price format, the unit, delivery and payment labels, and the rows of the customer and manager e-mails. It also covers when each e-mail is attempted and reported sent.
- **The catalog JSON endpoint** (`CatalogApi`).

The client pages are modelled as pure functions from their state to what they draw or send: `CartPage`, `CheckoutPage`, `ProductPage`, `ProductCard` and `PaymentPending`. The database schema is modelled as `Schema`, with its column widths and insert defaults.

Shared pieces live in three modules:
- `Text`: JavaScript truthiness of optional strings, `trim`, character filtering, and decimal digits.
- `Money`: `toFixed(2)` of a kopeck amount divided by 100, written as exact integer arithmetic, with its parser.
- `Json`: response values.

Everything the code gets from outside is a parameter:
- the clock (`Date.now()`) and the random digits of a new session id;
- SHA-256;
- the `localeCompare` order of titles;
- the order store;
- whether the database or the owner notifier throws;
- whether an SMTP send succeeds.

Amounts are integer kopecks, as in the code.

## Model

| member | source | states |
|---|---|---|
| Text.OrElse | server/routers.ts:25 | `x \|\| fallback` on an optional string: the value when present and non-empty, the fallback otherwise |
| Text.Trim | seed-products.mjs:40 | the result is the middle of the input: everything cut off before and after it is white space, the result has none at either end, and an already trimmed string is left as it is |
| Text.TrimIdempotent | seed-products.mjs:27 | trimming twice is trimming once |
| Text.Filter | seed-products.mjs:21 | removing characters keeps only characters of the input that pass the test, never lengthening it |
| Text.FilterIdempotent | seed-products.mjs:21 | removing quotes a second time changes nothing |
| Text.NatToString | server/paymo.ts:52 | `toString()` of a non-negative integer is a non-empty digit string without a leading zero, one digit exactly for values below 10 |
| Text.NatToStringRoundTrip | server/paymo.ts:52 | reading the decimal digits back gives the number that was written |
| Text.NatToStringInjective | server/paymo.ts:52 | different amounts never print the same |
| Text.IntToString | server/paymo.ts:14 | negative numbers print as `-` followed by the magnitude |
| Money.TwoDigits | server/catalog-api.ts:19 | the fractional part of `toFixed(2)` is two digits whose value is the remainder modulo 100 |
| Money.UnsignedFixed2 | server/catalog-api.ts:19 | a non-negative amount shows at least one integer digit, the decimal mark and two decimals |
| Money.UnsignedRoundTrip | server/catalog-api.ts:19 | the unsigned text parses back to its amount |
| Money.Fixed2 | server/catalog-api.ts:19 | `(k / 100).toFixed(2)` has a decimal mark third from the end, two digits after it, and a minus sign exactly for negative amounts |
| Money.Fixed2RoundTrip | server/catalog-api.ts:19 | parsing the two-decimal text gives back the exact kopeck amount |
| Money.Fixed2Injective | server/catalog-api.ts:19 | two different amounts never show the same price text |
| Json.ErrorResponse | server/payment-webhooks.ts:40 | an error reply carries the given status and a JSON object whose only key is `error`, holding the given message |
| Schema.NewUser | drizzle/schema.ts:6-16 | a new user keeps every given column and gets role `user` unless one is given; the row fits its columns exactly when openId has at most 64 characters, the e-mail at most 320 and the login method at most 64 |
| Schema.NewProduct | drizzle/schema.ts:24-37 | a new product keeps every given column; the row fits exactly when SKU, category and title are within 32, 64 and 255 characters, a given price and quantity are 32-bit, and a given unit is within 16 |
| Schema.ProductDefaults | drizzle/schema.ts:32-34 | price and quantity default to 0 and the unit to `KGM` |
| Schema.NewContactRequest | drizzle/schema.ts:45-52 | a contact request keeps name, e-mail and phone, and its source defaults to `home`; it fits exactly when name, e-mail, phone and a given source are within 255, 320, 32 and 64 characters |
| Schema.NewCartItem | drizzle/schema.ts:60-67 | a cart row keeps session and product, and its quantity defaults to 1 |
| Schema.CartTableAllowsDuplicatePair | drizzle/schema.ts:60-67 | the table places no uniqueness on (session, product): two rows for one pair satisfy every column constraint |
| SeedProducts.RawFields | seed-products.mjs:31-46 | a line always yields at least one field |
| SeedProducts.TrimAll | seed-products.mjs:40 | every pushed field is the trimmed text, position by position |
| SeedProducts.SplitLine | seed-products.mjs:31-46 | the loop over the characters computes the field list of the recursive definition; there is one field more than unquoted `;`; no field holds a quote or edge white space |
| SeedProducts.ParsedFieldsAreClean | seed-products.mjs:35-46 | the field count is the unquoted separator count plus one, and every field is quote-free and trimmed |
| SeedProducts.FieldCount | seed-products.mjs:35-46 | each unquoted `;` closes exactly one field |
| SeedProducts.NoQuoteSurvives | seed-products.mjs:37-38 | a quote only toggles the quoting state and never reaches a field |
| SeedProducts.FieldsSpellKeptText | seed-products.mjs:35-45 | the fields, put back together, are the line without its quotes and unquoted separators: no other character is lost or added |
| SeedProducts.SeparatorThenD | seed-products.mjs:39-41 | a leading separator gives an empty first field |
| SeedProducts.QuotedField | seed-products.mjs:37-44 | a `;` inside quotes is field text |
| SeedProducts.QuotedSeparatorIsText | seed-products.mjs:37-44 | `a;"b;c";d` splits into `a`, `b;c`, `d` |
| SeedProducts.JoinThenSplitRaw | seed-products.mjs:35-46 | joining quote- and separator-free fields with `;` and splitting again gives the fields back |
| SeedProducts.JoinThenSplit | seed-products.mjs:31-46 | for trimmed plain fields, the line parser inverts joining with `;` |
| SeedProducts.SplitOn | seed-products.mjs:18 | `split` gives at least one piece, no piece holds the separator, and the pieces spell the input without its separators |
| SeedProducts.ParseHeader | seed-products.mjs:21 | there is one header name per `;` piece, in order, and name i is piece i without quotes and trimmed |
| SeedProducts.CleanName | seed-products.mjs:21 | a cleaned name holds no quote and no edge white space, and a piece that already has neither is kept as it is |
| SeedProducts.SplitOnPrefix | seed-products.mjs:18 | separator-free text in front of a string only lengthens the first piece of its split |
| SeedProducts.SplitOnJoin | seed-products.mjs:18 | `;`-free names joined with `;` split back into the same names |
| SeedProducts.HeaderRoundTrip | seed-products.mjs:21 | a header line written from plain column names parses back to exactly those names |
| SeedProducts.BuildRow | seed-products.mjs:48-51 | the row has exactly the header names as keys |
| SeedProducts.RowReadsLastColumn | seed-products.mjs:49-51 | a name reads the value at its last column in the header: a later duplicate column overwrites an earlier one |
| SeedProducts.MissingColumnReadsEmpty | seed-products.mjs:50 | a column the header lacks reads as the empty string |
| SeedProducts.ShortLineReadsEmpty | seed-products.mjs:50 | a column beyond the end of a short line reads as the empty string |
| SeedProducts.IndexOf | seed-products.mjs:55 | finds the first occurrence of a character |
| SeedProducts.StripTags | seed-products.mjs:55 | removing `<…>` runs leaves no complete tag and adds no character |
| SeedProducts.StripTagsFixesTagFree | seed-products.mjs:55 | text without tags is left as it is |
| SeedProducts.StripTagsIdempotent | seed-products.mjs:55 | stripping twice is stripping once |
| SeedProducts.StripTagsDropsTag | seed-products.mjs:55 | a tag at the front, from `<` to the first `>`, is removed whole |
| SeedProducts.StripTagsKeepsText | seed-products.mjs:55 | a tag runs from `<` to the first `>` after it and is removed, while the text before it is kept and the rest is stripped in turn |
| SeedProducts.StripTagsExample | seed-products.mjs:55 | `"a<b>c"` strips to `"ac"` |
| SeedProducts.TrimKeepsNoTag | seed-products.mjs:55 | trimming tag-free text leaves it tag-free |
| SeedProducts.CleanDescription | seed-products.mjs:54-55 | the cleaned description holds no tag and no edge whitespace, and a description that already has neither is kept as it is |
| SeedProducts.CleanDescriptionKeepsText | seed-products.mjs:54-55 | a tagged description loses the tag but keeps the text around it, trimmed |
| SeedProducts.Column | seed-products.mjs:62-70 | `row[name] \|\| fallback` reads the column when it is non-empty and the fallback otherwise |
| SeedProducts.RowToProduct | seed-products.mjs:54-71 | each of SKU, category, title, unit, price and quantity is its column when that is non-empty and otherwise `SKU-<index>`, `Другое`, `Без названия`, `KGM`, `0` and `0`; text and photo are copied; the description is the cleaned `Description` column |
| SeedProducts.KeyColumnsNeverEmpty | seed-products.mjs:58-70 | whatever the row holds, the product has a non-empty SKU, category, title and unit |
| SeedProducts.EmptyColumnsTakeDefaults | seed-products.mjs:58-70 | missing columns take `Другое`, `Без названия`, `KGM`, price `0` and quantity `0` |
| SeedProducts.ParseRows | seed-products.mjs:26-74 | one product per non-blank line |
| SeedProducts.ParseRowsSingle | seed-products.mjs:27-71 | a blank line yields nothing; any other line yields exactly the product of its trimmed fields, keyed by the header, with the line's index in the file as the `SKU-<i>` default |
| SeedProducts.ParseRowsAppend | seed-products.mjs:26-62 | lines are parsed one after another, and the index of a line counts the blank lines before it |
| SeedProducts.ParseCsv | seed-products.mjs:17-74 | the product count is the number of non-blank lines after the header |
| SeedProducts.BlankLinesImportNothing | seed-products.mjs:27-28 | a file with only blank lines after the header imports no product |
| Routers.SearchFrom | server/routers.ts:26 | finds the first `cart_session=` with a non-`;` character after it, at or after a position |
| Routers.RunUntilSemicolon | server/routers.ts:26 | `[^;]+` takes the longest `;`-free prefix |
| Routers.SessionFromCookie | server/routers.ts:25-30 | a match gives a non-empty `;`-free id, and there is no match exactly when no position matches |
| Routers.MintSessionId | server/routers.ts:33 | a minted id is non-empty and `;`-free |
| Routers.GetSessionId | server/routers.ts:24-36 | an id found in the cookie is reused with no `Set-Cookie`; otherwise one is minted and set once |
| Routers.MissingCookieMints | server/routers.ts:25-35 | without a cookie header the id is minted and exactly one `Set-Cookie` is sent |
| Routers.SessionCookieRoundTrip | server/routers.ts:26-34 | a cookie header starting with the cookie the server set reads back the same id with no new cookie |
| Routers.MintedSessionIsStable | server/routers.ts:24-36 | the next request carrying the minted cookie gets the same session and no new cookie |
| Routers.ListSourceFor | server/routers.ts:58-60 | a non-empty category lists that category; otherwise all products |
| Routers.Insert | server/routers.ts:63-69 | inserting into a sorted list keeps it sorted and adds exactly that element |
| Routers.Sort | server/routers.ts:63-69 | the result is sorted and a permutation of the input |
| Routers.PriceAscIsPreorder | server/routers.ts:64 | ascending price is a total preorder |
| Routers.PriceDescIsPreorder | server/routers.ts:66 | descending price is a total preorder |
| Routers.TitleIsPreorder | server/routers.ts:68 | a total preorder on titles orders products |
| Routers.ListProducts | server/routers.ts:58-71 | the listing is a permutation of the fetched products, ordered by price or title per `sortBy`, and unchanged without one |
| Routers.ListQuery | server/routers.ts:52-71 | the query returns a permutation of the category's products when a category is given and of all products otherwise, unchanged without `sortBy` and ordered by price ascending, price descending or title per `sortBy` |
| Routers.RandomLimit | server/routers.ts:80-84 | a missing or zero limit asks for 9 products |
| Routers.SimilarLimit | server/routers.ts:86-93 | the limit defaults to 4 |
| Routers.CartAddQuantity | server/routers.ts:108-115 | the quantity defaults to 1 |
| Routers.ContactSubmit | server/routers.ts:148-170 | a request is stored exactly when name and phone are non-empty and the e-mail is valid, and every failing field is reported; the source defaults to `home`; the owner's notice names the stored source in its title and lists the stored name, e-mail, phone and source |
| PaymentWebhooks.Confirm | server/payment-webhooks.ts:47 | confirming a known order marks it paid and confirmed and changes no other order; an unknown order changes nothing and yields none |
| PaymentWebhooks.Fail | server/payment-webhooks.ts:112 | failing a known order marks its payment failed and keeps its order status; an unknown order changes nothing |
| PaymentWebhooks.TransitionsTouchOneOrder | server/payment-webhooks.ts:47 | neither transition touches any other order |
| PaymentWebhooks.PaymentFlows | server/payment-webhooks.ts:97-113 | a pending payment becomes paid and confirmed, or failed |
| PaymentWebhooks.ConfirmAndNotify | server/payment-webhooks.ts:47-64 | the confirm call is made once; a store failure answers 500 and changes nothing; otherwise the confirmation is written; a found order is told to the owner and acknowledged, but if the notifier throws the reply is 500 and no notice goes out; an unknown order is acknowledged without a notice |
| PaymentWebhooks.PaymasterWebhook | server/payment-webhooks.ts:14-65 | `ORDER_ID` wins over `LMI_PAYMENT_NO`; without either the reply is 400 and nothing is called |
| PaymentWebhooks.PaymasterAcknowledges | server/payment-webhooks.ts:47-60 | with a number, the order is confirmed and the reply is `YES` |
| PaymentWebhooks.PaymasterRejectsMissingNumber | server/payment-webhooks.ts:38-41 | without a number: 400, no store call, store unchanged |
| PaymentWebhooks.CkassaAction | server/payment-webhooks.ts:97-114 | `success`, `paid` and `completed` confirm; `failed`, `cancelled` and `error` fail; any other status does nothing |
| PaymentWebhooks.CkassaWebhook | server/payment-webhooks.ts:74-122 | without an order id the reply is 400 and nothing changes; a confirming status goes through the shared confirm-and-notify path; a failing status writes the failure and answers `{success: true}`, or answers 500 with the store unchanged when the store throws; any other status is only acknowledged |
| PaymentWebhooks.CkassaAlwaysAcknowledges | server/payment-webhooks.ts:116-117 | with an order id and working services, the reply is `{success: true}` whatever the status |
| PaymentWebhooks.OrderJson | server/payment-webhooks.ts:140 | the order in a reply is an object with exactly the nine modelled fields of the order |
| PaymentWebhooks.PaymentStatusTextRoundTrip | server/payment-webhooks.ts:169 | each payment status reads back from its text |
| PaymentWebhooks.OrderStatusTextRoundTrip | server/payment-webhooks.ts:172 | each order status reads back from its text |
| PaymentWebhooks.OrderJsonRoundTrip | server/payment-webhooks.ts:140 | the order in a reply reads back as the nine modelled fields of the stored order |
| PaymentWebhooks.SuccessWithOrder | server/payment-webhooks.ts:140-144 | `{success: true, order}` is a 200 whose object has `success` true, and an `order` key exactly when an order was returned, which reads back as that order |
| PaymentWebhooks.TestWebhook | server/payment-webhooks.ts:128-151 | no number gives 400; `paid` confirms with `test_payment_id` as the default and `failed` fails, each replying with the store's result as `{success: true, order}`, or 500 with the store unchanged when it throws; any other status only answers `Webhook received`; no owner notice |
| PaymentWebhooks.TestPaidRepliesWithPaidOrder | server/payment-webhooks.ts:138-140 | a test `paid` for a known order replies with that order, now paid and confirmed |
| PaymentWebhooks.PaymentStatusEndpoint | server/payment-webhooks.ts:157-178 | an unknown order gives 404; a known one is reported with exactly its number, payment status, payment method, total and order status |
| PaymentWebhooks.PaymasterThenStatusReportsPaid | server/payment-webhooks.ts:47-173 | after a Paymaster callback, the status endpoint reports the order paid and confirmed |
| PaymentWebhooks.CkassaFailureThenStatusReportsFailed | server/payment-webhooks.ts:110-173 | after a failing Ckassa callback, the status endpoint reports the payment failed |
| PaymentWebhooks.UnknownOrderIsAcknowledged | server/payment-webhooks.ts:49-60 | a callback for an unknown order is still acknowledged, changes nothing and notifies no one |
| Paymo.ConfigFromEnv | server/paymo.ts:4-5 | unset or empty variables read as the empty key |
| Paymo.SignedMessage | server/paymo.ts:27 | the callback message is the transaction id, then the decimal amount, then the secret key |
| Paymo.GenerateSignature | server/paymo.ts:13-16 | for every configuration the form signature is the hash of the API key followed by the callback message of id, amount and secret; with an empty API key it is the very hash the callback check expects |
| Paymo.VerifyCallback | server/paymo.ts:22-30 | without a secret every callback passes; with one, exactly those whose signature is the hash of the callback message |
| Paymo.NoSecretAcceptsAnything | server/paymo.ts:23-25 | any signature, even an empty one, is accepted without a secret key |
| Paymo.EmptyApiKeyMakesSignaturesAgree | server/paymo.ts:13-30 | with an empty API key, the signature the form sends passes the callback check |
| Paymo.ApiKeyMakesSignaturesDiffer | server/paymo.ts:13-30 | with an API key and an injective hash, the form's own signature fails the callback check |
| Paymo.SanitizePhone | server/paymo.ts:65 | only digits and `+` remain, and the phone never grows |
| Paymo.SanitizePhoneStable | server/paymo.ts:65 | sanitizing is idempotent and leaves a clean phone as it is |
| Paymo.SanitizePhoneKeepsOrder | server/paymo.ts:65 | sanitizing distributes over concatenation and keeps one character exactly when it is a digit or `+`: the result is the phone's digits and `+` in order |
| Paymo.BaseForm | server/paymo.ts:46-59 | the nine base fields: the API key, the order number as `tx_id` and `extra_orderNumber`, the decimal kopeck amount, the signature over that same id and amount, the description, both redirects and `auto_return` `3` |
| Paymo.BuildFormData | server/paymo.ts:45-69 | the form has the nine base keys, plus `email` and `phone` exactly when given and non-empty; `email` is the given address and `phone` the sanitized number |
| Paymo.BaseFieldsKept | server/paymo.ts:49-66 | adding the optional `email` and `phone` fields never changes a base field |
| Paymo.FormAmountRoundTrip | server/paymo.ts:52 | the form's amount field reads back as the kopeck amount |
| Mailer.FormatPrice | server/mailer.ts:72-74 | a price ends in the rouble sign, and the text before it reads back, with a comma as the mark, to the exact kopeck amount |
| Mailer.FormatPriceShape | server/mailer.ts:72-74 | roubles, comma, two kopeck digits, rouble sign |
| Mailer.FormatPriceInjective | server/mailer.ts:72-74 | different amounts never print the same |
| Mailer.GetUnitText | server/mailer.ts:76-79 | a missing or empty unit and `KGM` read as kilograms; any other unit is shown verbatim |
| Mailer.GetDeliveryMethodText | server/mailer.ts:57-59 | only `pickup` is pickup; any other method reads as courier |
| Mailer.GetPaymentMethodText | server/mailer.ts:61-70 | the five known methods get labels; any other name is shown verbatim |
| Mailer.PaymentLabelsDistinct | server/mailer.ts:62-68 | different known methods get different labels |
| Mailer.DetailRows | server/mailer.ts:121-124 | the details are the delivery row first and the payment row last, with an address row exactly when there is an address and a comment row exactly when there is a comment; the address row comes second and carries the address with its city, and the comment row comes just before the payment row and carries the comment as written |
| Mailer.AddressRowCarriesCity | server/mailer.ts:122 | the address row appends `, city` exactly when a city is given |
| Mailer.ItemRows | server/mailer.ts:85-95 | one row per ordered item, in order |
| Mailer.ItemRowAmountsReadBack | server/mailer.ts:89-92 | each item row shows the item's title and quantity, and prices that read back to its price and subtotal |
| Mailer.FeeText | server/mailer.ts:146 | a fee of zero or less reads "free"; a positive fee shows as a price that reads back to it |
| Mailer.TotalRows | server/mailer.ts:144-147 | subtotal, delivery and total rows, in that order; subtotal and total read back to their amounts and delivery is the fee text |
| Mailer.BuildCustomerEmail | server/mailer.ts:84-168 | the customer e-mail names the order, has no customer block, and carries the order's detail rows, one item row per ordered item and the totals block |
| Mailer.BuildManagerEmail | server/mailer.ts:173-252 | the manager e-mail names the order, adds name, phone and e-mail of the customer, and carries the same detail rows, item rows and totals block |
| Mailer.EmailsAgreeOnOrder | server/mailer.ts:121-146 | both e-mails show the same details, items and totals; delivery is "free" exactly when the fee is not positive |
| Mailer.SendCustomerOrderEmail | server/mailer.ts:257-277 | the e-mail is attempted to the customer exactly when SMTP is configured, and reported sent exactly when the send also succeeds |
| Mailer.SendManagerOrderEmail | server/mailer.ts:282-308 | the e-mail is attempted to the manager exactly when SMTP and a manager address are configured, and reported sent when it then succeeds |
| Mailer.SendOrderEmails | server/mailer.ts:313-318 | each of the two results depends only on its own send |
| Mailer.SendsAreIndependent | server/mailer.ts:313-318 | a failing manager send does not change the customer result, nor the other way round |
| CatalogApi.Entry | server/catalog-api.ts:16-20 | an entry has exactly the keys id, name and price; the price text reads back to the kopeck price |
| CatalogApi.Catalog | server/catalog-api.ts:16 | one entry per product, in order |
| CatalogApi.CatalogEndpoint | server/catalog-api.ts:11-27 | a failing store gives 500 `Internal server error`; otherwise 200 with the catalog array |
| CatalogApi.CatalogKeepsIdNamePrice | server/catalog-api.ts:16-20 | entry i carries product i's id, title and price |
| CatalogApi.PriceExamples | server/catalog-api.test.ts:24-61 | 10000, 20050 and 100 kopecks show as `100.00`, `200.50` and `1.00` |
| CatalogApi.TwoProductCatalog | server/catalog-api.test.ts:24-61 | the two-product catalog comes out as the expected entries |
| CartPage.HandleUpdateQuantity | client/src/pages/Cart.tsx:45-51 | a quantity below 1 removes the line; any other is sent as it is |
| CartPage.StepperButtons | client/src/pages/Cart.tsx:182-191 | minus on one unit removes the line; minus on more lowers it by one; plus raises it by one |
| CartPage.Visible | client/src/pages/Cart.tsx:135-136 | the drawn lines are exactly the lines that still have a product |
| CartPage.VisibleAppend | client/src/pages/Cart.tsx:135-136 | drawing keeps cart order: the lines of a cart cut in two are drawn first part first |
| CartPage.VisibleSingle | client/src/pages/Cart.tsx:135-136 | a single line is drawn exactly when its product exists |
| CartPage.TotalPriceIsDrawnTotal | client/src/pages/Cart.tsx:69-72 | the money total is the total of the drawn lines |
| CartPage.TotalItemsSplits | client/src/pages/Cart.tsx:74 | the item count is the drawn quantities plus those of product-less lines |
| CartPage.MissingProductCountsButCostsNothing | client/src/pages/Cart.tsx:69-74 | a line without a product costs nothing, is not drawn, yet counts |
| CartPage.GetUnitLabel | client/src/pages/Cart.tsx:60-67 | `PCE` is pieces, `LTR` litres, anything else kilograms |
| CartPage.CountWord | client/src/pages/Cart.tsx:119 | `товар` for one, `товара` for fewer than five, `товаров` otherwise |
| CartPage.View | client/src/pages/Cart.tsx:76-112 | loading, empty or filled; a filled page draws the visible lines, counts all items with the matching count word, and pays the goods total |
| CartPage.PayableIsDrawnGoods | client/src/pages/Cart.tsx:226-238 | the amount payable is the total of the drawn rows, with no delivery fee |
| CheckoutPage.SubtotalMatchesCart | client/src/pages/Checkout.tsx:44-46 | the checkout's goods total equals the cart page's total |
| CheckoutPage.DeliveryFee | client/src/pages/Checkout.tsx:48 | 50000 kopecks exactly for courier delivery, 0 exactly for pickup |
| CheckoutPage.Totals | client/src/pages/Checkout.tsx:44-49 | the total is goods plus fee, and the goods total is the cart's |
| CheckoutPage.PickupScenario | client/src/pages/Checkout.tsx:44-49 | 2 × 100 ₽ + 1 × 50 ₽ is 250 ₽ for pickup and 750 ₽ with courier delivery |
| CheckoutPage.HandleSubmit | client/src/pages/Checkout.tsx:55-78 | unchecked terms reject first, then a missing courier address; otherwise the payload carries the form, with address and city only for courier delivery |
| CheckoutPage.CourierOrdersHaveAddress | client/src/pages/Checkout.tsx:63-66 | a courier order that is sent has a non-empty address |
| CheckoutPage.SubmitDisabled | client/src/pages/Checkout.tsx:371 | the button is enabled exactly when nothing is pending and the terms are accepted |
| CheckoutPage.EnabledButtonPassesTermsGuard | client/src/pages/Checkout.tsx:58-62 | an enabled button never hits the terms guard, and the fresh form's button is disabled |
| CheckoutPage.View | client/src/pages/Checkout.tsx:80-111 | loading, empty cart, or the form with the totals |
| ProductPage.MaxQuantity | client/src/pages/Product.tsx:45 | the stock, or 99 when there is no product or zero stock |
| ProductPage.HandleQuantityChange | client/src/pages/Product.tsx:43-48 | a step is taken exactly when it lands in [1, max] |
| ProductPage.StepperStaysInRange | client/src/pages/Product.tsx:18-48 | whatever is pressed, the quantity stays 1 or within [1, max] |
| ProductPage.StepperFromStart | client/src/pages/Product.tsx:18-48 | for a product in stock, the quantity stays within [1, stock] |
| ProductPage.FormatUnit | client/src/pages/Product.tsx:100-103 | a missing unit and `KGM` read as `КГ`; any other unit is shown verbatim |
| ProductPage.HandleAddToCart | client/src/pages/Product.tsx:50-54 | adds the chosen quantity of the loaded product, and nothing without one |
| ProductPage.View | client/src/pages/Product.tsx:105-252 | the stepper and add button appear only in stock; minus is disabled at 1 and plus at the stock; the total is shown above one unit |
| ProductPage.EnabledButtonsAlwaysStep | client/src/pages/Product.tsx:198-213 | an enabled minus or plus moves the quantity by one |
| ProductPage.DigitRun | client/src/pages/Product.tsx:329 | finds the leading run of digits |
| ProductPage.IdAndQuantityRoundTrip | client/src/pages/Product.tsx:329 | `<id>_qty_<n>` reads back as the id and quantity |
| ProductPage.QuickBuySourceRoundTrip | client/src/pages/Product.tsx:329 | the quick-buy source tag determines the product id and quantity |
| ProductCard.Classify | client/src/components/ProductCard.tsx:89-98 | out of stock at 0 or below, low stock below 10, plenty otherwise |
| ProductCard.View | client/src/components/ProductCard.tsx:89-140 | the overlay and badge follow the stock class; both buttons are disabled when out of stock or pending; the description shows only when non-empty |
| ProductCard.OutOfStockDisablesBoth | client/src/components/ProductCard.tsx:131-140 | out of stock, neither button can be used |
| ProductCard.HandleAddToCart | client/src/components/ProductCard.tsx:39-41 | adds one unit of the card's product |
| ProductCard.HandleBuyNow | client/src/components/ProductCard.tsx:43-49 | the same request; it goes to the cart only after success |
| PaymentPending.OrderNumberParam | client/src/pages/PaymentPending.tsx:12 | a missing order number reads as empty |
| PaymentPending.PollOptions | client/src/pages/PaymentPending.tsx:15-21 | the order is polled every 5 s, only for a non-empty number |
| PaymentPending.Redirect | client/src/pages/PaymentPending.tsx:24-30 | paid goes to the success page, failed to the failure page, anything else stays |
| PaymentPending.View | client/src/pages/PaymentPending.tsx:36-114 | loading, not found, or, for a loaded order, waiting with the order's number and total; the pay link shows exactly when the order has a payment URL |
| PaymentPending.PaymasterCallbackEndsWaiting | client/src/pages/PaymentPending.tsx:24-26 | after a Paymaster callback for a known order, the page moves to the success page |
| PaymentPending.CkassaFailureEndsWaiting | client/src/pages/PaymentPending.tsx:27-28 | after a failing Ckassa callback, the page moves to the failure page |

## Left out

- Rendering. JSX layout, styling, toasts, icons and the static pages draw nothing the model reasons about. The pages are modelled only by what they show or send.
- Database and network I/O. The MySQL inserts of the importer, the drizzle queries of `server/db.ts`, `notifyOwner`, the SMTP transport and the HTTP framework are left out. `server/db.ts` is not part of this model.
- PaymentWebhooks.Confirm: `confirmOrderPayment` lives in `server/db.ts`, which is not part of this model. It is modelled as the update its name and the status endpoint imply: payment paid, order confirmed, payment id replaced when one is given. An absent id keeps the stored one. `paidAt` and the other timestamps are left out.
- PaymentWebhooks.Fail: `failOrderPayment` is modelled the same way. It is an assumption about `server/db.ts`, which is outside this model.
- Webhook signatures. The Paymaster `LMI_HASH` and the Ckassa `signature` are never checked by the code, so the model ignores them too.
- The `orders` router, creating an order, the Paymo payment initiation and `server/email.ts` are not part of this model. Only the mailer and the Paymo helpers they call are modelled.
- The router's `getById`, `categories`, `cart.get/update/remove/clear/count` and the system and auth routers are left out. They forward straight to database calls.
- Routers.Sort: stability is not proved. The model states a permutation ordered by the key, which is all the `sort` comparators promise.
- Routers.ListProducts: the title order is the parameter `titleLe`, assumed to be a total preorder. `localeCompare` itself is locale data.
- Routers.MintSessionId: `Math.random().toString(36).substr(2, 9)` is a parameter sequence of at most nine base-36 digits. `Date.now()` is a natural-number parameter.
- Routers.ContactSubmit: zod's e-mail check is the parameter `isEmail`.
- SeedProducts.RowToProduct: `parseFloat`, `Math.round(price * 100)` and `parseInt` are left out. The model keeps the price and quantity texts with their `'0'` defaults, because floating-point parsing is outside the model.
- Number formatting. `toLocaleString` and other `Intl` formatting on the pages is left out. Only `toFixed(2)` is modelled, as exact integer arithmetic.
- Money.Fixed2: the model is exact. JavaScript divides by 100 in binary floating point, and from about 2^46 roubles (about 7·10^15 kopecks) the nearest double can round to a different last kopeck digit. An int column holds at most 2^31 − 1 kopecks, far below that.
- Text.IntToString: JavaScript writes integral values of magnitude 10^21 and above in exponent form. The model always writes plain digits, which matches every amount an int column can hold.
- Numeric inputs. zod's `z.number()` accepts any double, but the model takes `limit`, `quantity` and the ids to be integers. Fractional, infinite and NaN inputs are left out.
- Mailer.GetUnitText: in `server/mailer.ts` the label literals are stored in a mis-encoded form (UTF-8 bytes read as Mac Roman). This also applies to Mailer.GetDeliveryMethodText, Mailer.GetPaymentMethodText and Mailer.FeeText.
  - The model therefore names the labels as opaque `Label` values.
  - Mailer.FormatPrice appends the intended ` ₽`.
- Mailer.GetPaymentMethodText: looking up prototype keys such as `constructor` in the `methods` object literal yields a function in JavaScript. The model treats every unknown name as shown verbatim.
- Mailer.SendOrderEmails: `Promise.all` concurrency and the transporter cache are left out. Each send's outcome is a boolean parameter.
- The HTML bodies and subjects of the e-mails are not modelled character by character. The model keeps the rows each e-mail shows.
- PaymentWebhooks.OrderJson: the model's `Order` keeps only the nine fields the webhooks and the status page read. The row `res.json` writes also holds `id`, the items, `paidAt`, the customer e-mail and the delivery columns. The reply is modelled as its projection onto the nine fields, and `OrderJsonRoundTrip` reads back only that projection.
- PaymentWebhooks.TestWebhook: `confirmOrderPayment` and `failOrderPayment` are taken to return `undefined` for an unknown order, so `order` drops out of the reply. `server/db.ts` is not part of this model; if they returned `null`, the reply would carry `"order": null` instead.
- PaymentPending.View: the poll counter and the manual refresh button are left out.
- ProductPage.View: the similar-products strip and the quick-buy dialog layout are left out. The quick-buy source tag is modelled.
- `server/mailer.test.ts`, `server/orders.test.ts` and `server/product-page.test.ts` only exercise environment variables, order creation and rendering. They are outside the modelled core.

Notes on the code:
- The cart table has no uniqueness constraint on (session, product) (`Schema.CartTableAllowsDuplicatePair`).
- The product page's `formatUnit` treats an empty unit like a missing one.
- The cart page's unit label maps any unknown unit to kilograms.
