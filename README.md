# Theranostics DNA — a Dafny model of the order, kit and report back end

This project models the request-handling core of the Theranostics DNA service, a Go back end (with a
React front end) for selling DNA test kits and following each kit through its life:

- a customer orders kits and pays through PayPal, which produces a payment record and an invoice;
- an administrator assigns barcoded kits to a paid order and moves its status along
  (pending, processing, dispatched, cancelled, ...);
- the patient registers a received kit by its barcode;
- staff move the registration through the post-order flow (not received, received, rejected, sent
  to a lab), record the lab, and upload the encrypted lab report;
- the inventory of kit products is created, updated, deleted and summarised;
- every route is guarded by a role table;
- the server and the browser apply their own field validation rules.

The model is written in the Go code's own shapes:

- Value computations are Dafny functions over datatypes: field validation, discount selection,
  PKCS#7 padding, encryption framing, PayPal order building, status transition tables and the
  role check.
- Handlers that read and write the database are methods on a `Db` object (`tables.dfy`) whose
  tables are sequences of rows, where the row with id `n` sits at index `n - 1`.
- A handler works on local copies and writes the tables only when its transaction commits.
  Every early return therefore leaves the database unchanged.
- Each handler method is proved equal to a specification function of the old tables and the
  request.
- Lemmas about those functions prove the properties the handlers promise. Examples:
  - status transitions only follow the workflow's table;
  - an accepted kit update keeps its quantity in range;
  - barcode numbers stay unique across orders;
  - the labs table only gains the lab a request names;
  - order numbers and invoice ids stay unique.
- Loops in the source remain loops in the model: the 100-attempt id generators, the membership
  scans, the field-allow lists, the in-place password shuffle and the form-validation pass.
  Each is proved against its specification function.

Effects the back end cannot decide for itself are parameters of the model:

- the clock and the random draws;
- the results of creating and writing the uploaded report file;
- the PayPal HTTP answers;
- the AES block cipher and base64 codec;
- e-mail and notification delivery;
- the PDF renderer;
- the JSON decoder.

## Model

| member | source | states |
|---|---|---|
| Common.StringInSlice | Theranostics-DNA-Backend/utils/common.go:27-34 | the scan reports true exactly when the string is an element of the list |
| Common.Contains | Theranostics-DNA-Backend/utils/common.go:97-104 | the scan reports true exactly when the value is an element of the slice |
| Common.FormatDate | Theranostics-DNA-Backend/utils/common.go:42 | the `20060102` date is eight digits whose first four, middle two and last two read back as year, month and day |
| Common.OrderNumber | Theranostics-DNA-Backend/utils/common.go:46-49 | a candidate id is 16 characters: `SL-`, the formatted date, `-`, and four digits reading back as the draw modulo 10000 |
| Common.FirstFree | Theranostics-DNA-Backend/utils/common.go:44-63 | whatever the draws and query failures, a generated id is never one already taken |
| Common.FirstFreeMeaning | Theranostics-DNA-Backend/utils/common.go:44-63 | the generator returns the first candidate that is free if no query failed before it; it fails on the first failed query; it reports exhaustion only when all 100 candidates were taken |
| Common.GenerateUniqueOrderID | Theranostics-DNA-Backend/utils/common.go:37-64 | the 100-attempt loop returns exactly the outcome of the attempt sequence, and a returned order number is not yet used by any order |
| Common.GenerateUniqueInvoiceID | Theranostics-DNA-Backend/utils/common.go:67-94 | the loop against the invoice table returns an invoice id no invoice holds. The outcome is explained attempt by attempt as for the order generator |
| Common.GenerateUniqueID | Theranostics-DNA-Backend/utils/common.go:107-111 | the id is four digits reading back as the draw modulo 10000 |
| Common.CapitalizeWord | Theranostics-DNA-Backend/utils/common.go:117-119 | the word keeps its length, its first byte is upper-cased and the rest lower-cased, and it gains no white space |
| Common.CapitalizeAll | Theranostics-DNA-Backend/utils/common.go:116-120 | every word of the list is rewritten by the one-word rule, in place and in order |
| Common.CapitalizeWords | Theranostics-DNA-Backend/utils/common.go:114-122 | the text is split into fields, each word is capitalised, and the words are joined with single spaces |
| Common.CapitalizeEach | Theranostics-DNA-Backend/utils/common.go:116-120 | the loop over the words leaves every word replaced by its capitalised form, in place and in order |
| Chars.TrimSpaceIsMiddle | Theranostics-DNA-Backend/controllers/kit_registration_controller.go:242-245 | a trimmed value is the slice of the text between its leading and trailing white space, and only white space is cut away |
| Chars.FieldsOfSingleSpaced | Theranostics-DNA-Backend/utils/common.go:115-121 | the fields of a single-spaced text, joined by single spaces, give the text back, so the fields are the text's words in order |
| Common.CapitalizedIsSingleSpaced | Theranostics-DNA-Backend/utils/common.go:114-122 | the capitalised text has no white space at either end, no doubled separator, and only plain spaces between words |
| Discount.SelectTier | Theranostics-DNA-Backend/services/product_discount_service.go:15-17 | no tier is chosen exactly when no live tier has a threshold at most the quantity. Otherwise the chosen tier qualifies, no qualifying tier has a larger threshold, and no earlier tier ties with it |
| Discount.GetProductDiscount | Theranostics-DNA-Backend/services/product_discount_service.go:11-29 | the discount is 0 when no tier qualifies. Otherwise it is the percentage of the tier the selection picks: a qualifying tier with the largest threshold, the earliest among equal thresholds |
| Discount.SeededDiscount | Theranostics-DNA-Backend/seeds/quantity_discounts_seeder.go:19-22 | with the seeded table, orders under 100 kits get no discount and orders of 100 or more get 15 percent |
| Discount.NotLargestPercentage | Theranostics-DNA-Backend/services/product_discount_service.go:15-17 | the tier is chosen by its threshold, not by its percentage: a qualifying tier with a larger percentage can lose |
| Discount.DeletedTiersIgnored | Theranostics-DNA-Backend/services/product_discount_service.go:15 | adding a soft-deleted tier never changes any discount |
| Password.CharRange | Theranostics-DNA-Backend/utils/password.go:19-20 | a character range has the stated length and holds consecutive characters |
| Password.Unshuffled | Theranostics-DNA-Backend/utils/password.go:29-43 | the buffer before the shuffle has the fixed length 12 |
| Password.GenerateSecurePassword | Theranostics-DNA-Backend/utils/password.go:26-51 | the password is 12 characters, a rearrangement of the filled buffer, all taken from letters, digits and '@', and it passes the server's password rule |
| Password.Shuffle | Theranostics-DNA-Backend/utils/password.go:46-48 | the in-place shuffle only rearranges the buffer's characters |
| Password.CharRangeMembers | Theranostics-DNA-Backend/utils/password.go:19-20 | positions 0-25 of the letter pool are lower case, 26-51 upper case, and the number pool holds digits |
| Password.UnshuffledDrawnFromPool | Theranostics-DNA-Backend/utils/password.go:32-43 | every character placed in the buffer comes from the letter, digit and '@' pool |
| Password.PoolMembers | Theranostics-DNA-Backend/utils/password.go:41 | the pool holds only letters, digits and '@' |
| Password.PermutationKeepsRule | Theranostics-DNA-Backend/utils/password.go:45-48 | rearranging a password that meets the strength rule keeps it meeting the rule |
| Password.GeneratedPasswordIsValid | Theranostics-DNA-Backend/utils/password.go:26-51 | whatever the random draws, every generated password meets the rule `IsValidPassword` enforces |
| RequestFields.AllowedSet | Theranostics-DNA-Backend/utils/utils.go:73-76 | a name is admitted exactly when it appears in the allowed list |
| RequestFields.Dispatch | Theranostics-DNA-Backend/utils/utils.go:19-69 | a JSON Content-Type prefix selects the JSON decoder; otherwise a form prefix selects the form decoder; anything else is unsupported |
| RequestFields.AllowedMap | Theranostics-DNA-Backend/utils/utils.go:73-76 | the lookup loop gives a table whose keys are exactly the allowed names, each mapped to true |
| RequestFields.ValidateFields | Theranostics-DNA-Backend/utils/utils.go:72-85 | the body is accepted exactly when every key it carries is an allowed field |
| RequestFields.AllowFields | Theranostics-DNA-Backend/utils/utils.go:88-108 | an empty query is always allowed, and a query is allowed exactly when every parameter name is allowed |
| RequestFields.AllowedSetIgnoresOrder | Theranostics-DNA-Backend/utils/utils.go:72-108 | reordering or repeating the allowed list changes neither check |
| Validation.LastIndexOf | Theranostics-DNA-Backend/utils/validation.go:15 | the index found holds the character and nothing after it does |
| Validation.EmailSplit | Theranostics-DNA-Backend/utils/validation.go:15 | a split found puts an '@' before a later '.' inside the text |
| Validation.IsValidEmail | Theranostics-DNA-Backend/utils/validation.go:13-18 | an e-mail is accepted exactly when it is in the language of the server's pattern and at most 255 characters long |
| Validation.EmailSplitUnique | Theranostics-DNA-Backend/utils/validation.go:15 | the text matches the pattern exactly when the split the model computes satisfies it, so that one split decides the match |
| Validation.EmailSplitIsFound | Theranostics-DNA-Backend/utils/validation.go:15 | any split satisfying the pattern is the split the model computes |
| Validation.IsValidNameField | Theranostics-DNA-Backend/utils/validation.go:34-60 | the flag-driven scan accepts exactly the texts in the length range made of letters and single inner spaces, with no space at either end |
| Validation.IsAlphabetic | Theranostics-DNA-Backend/utils/validation.go:63-80 | the scan accepts exactly the texts of letters and spaces with no two spaces in a row |
| Validation.NameFieldIsAlphabetic | Theranostics-DNA-Backend/utils/validation.go:34-80 | every name the name rule accepts is also accepted by the alphabetic rule |
| Validation.AlphabeticAllowsOuterSpace | Theranostics-DNA-Backend/utils/validation.go:63-80 | the converse fails: the alphabetic rule lets a space open and close a text that the name rule refuses |
| Validation.IsValidFirstName | Theranostics-DNA-Backend/utils/validation.go:21-23 | a first name is 3 to 50 letters with single inner spaces and no space at either end |
| Validation.IsValidLastName | Theranostics-DNA-Backend/utils/validation.go:26-31 | an empty last name is accepted; any other last name is under the first-name rule |
| Validation.IsValidCountry | Theranostics-DNA-Backend/utils/validation.go:227-229 | a country is accepted exactly when it would be accepted as a first name |
| Validation.IsValidTownCity | Theranostics-DNA-Backend/utils/validation.go:232-234 | a town is accepted exactly when it is 5 to 100 letters and spaces with no two spaces in a row and no space at either end, which is exactly the region rule |
| Validation.IsValidRegion | Theranostics-DNA-Backend/utils/validation.go:237-239 | a region is accepted exactly when it is 5 to 100 letters and spaces with no two spaces in a row and no space at either end |
| Validation.IsSpecialChar | Theranostics-DNA-Backend/utils/validation.go:113-121 | true exactly for the characters of the special-character list |
| Validation.ScanChars | Theranostics-DNA-Backend/utils/validation.go:114-120 | the scan reports true exactly when the character is in the list |
| Validation.AnyCharSnoc | Theranostics-DNA-Backend/utils/validation.go:92-104 | a class is seen in a longer text exactly when it was seen before or the new character belongs to it |
| Validation.AlnumIsNotSpecial | Theranostics-DNA-Backend/utils/validation.go:113-121 | no letter or digit is a special character |
| Validation.PasswordStep | Theranostics-DNA-Backend/utils/validation.go:92-104 | each of the four class flags after a character is the flag before it, or the class of the new character |
| Validation.IsValidPassword | Theranostics-DNA-Backend/utils/validation.go:84-110 | a password is accepted exactly when it is 8 to 20 characters with an upper-case letter, a lower-case letter, a digit and a special character |
| Validation.IsValidKitType | Theranostics-DNA-Backend/utils/validation.go:124-126 | only "blood" and "saliva" are kit types |
| Validation.IsValidSupplierName | Theranostics-DNA-Backend/utils/validation.go:129-134 | a supplier name is 3 to 50 letters and spaces with no two spaces in a row |
| Validation.AlnumAnd | Theranostics-DNA-Backend/utils/validation.go:141-151 | the character class holds exactly the letters, the digits and the listed extra characters |
| Validation.RegexSpaceCharsAre | Theranostics-DNA-Backend/utils/validation.go:151 | the listed white-space characters are exactly those the pattern's `\s` matches |
| Validation.IsValidContactNumber | Theranostics-DNA-Backend/utils/validation.go:137-143 | a contact number is 10 to 15 decimal digits |
| Validation.IsValidProductName | Theranostics-DNA-Backend/utils/validation.go:146-153 | a product name is 3 to 100 characters from letters, digits, white space and `-_,.&()` |
| Validation.IsValidPostcode | Theranostics-DNA-Backend/utils/validation.go:242-249 | a postcode is 3 to 20 letters, digits and '-' |
| Validation.IsValidStreetAddress | Theranostics-DNA-Backend/utils/validation.go:252-260 | a street address is 5 to 255 characters from letters, digits, white space and the listed punctuation |
| Validation.IsValidQuantity | Theranostics-DNA-Backend/utils/validation.go:218-224 | a quantity is accepted exactly when it parses to a positive 64-bit integer; the decimal text of every positive 64-bit integer is accepted |
| Validation.StripNewlines | Theranostics-DNA-Backend/utils/validation.go:156-175 | the text left for base64 decoding holds no carriage return or line feed, keeps every other character, and is the text itself when it had none |
| Validation.StripNewlinesAppend | Theranostics-DNA-Backend/utils/validation.go:156-175 | stripping a concatenation strips each part, so the other characters keep their order |
| Validation.IsValidBase64Image | Theranostics-DNA-Backend/utils/validation.go:156-175 | the empty image is accepted. Otherwise the image is accepted exactly when it starts with `data:image/`, has a comma, and what follows the first comma decodes as standard base64 |
| Validation.IsValidImageURL | Theranostics-DNA-Backend/utils/validation.go:178-193 | a URL is accepted exactly when it matches the http/https/ftp pattern and its lower-cased text ends in one of the image extensions |
| Validation.IsInList | Theranostics-DNA-Backend/utils/validation.go:263-270 | the scan reports true exactly when the value is in the list |
| Encryption.Pkcs7Padding | Theranostics-DNA-Backend/utils/encryption.go:29-33 | the padded data is a whole number of blocks, between one byte and one block longer, and starts with the data |
| Encryption.Pkcs7Unpadding | Theranostics-DNA-Backend/utils/encryption.go:36-48 | empty input is an error, a last byte larger than the length is an error, and a success is a prefix of the input: exactly the input without as many trailing bytes as the last byte says |
| Encryption.UnpadPad | Theranostics-DNA-Backend/utils/encryption.go:29-48 | removing the padding that was added gives the data back, for every block size up to 255 |
| Encryption.PaddingBytes | Theranostics-DNA-Backend/utils/encryption.go:29-33 | the padding is 1 to blockSize bytes, each holding the padding length |
| Encryption.UnpadZeroLastByte | Theranostics-DNA-Backend/utils/encryption.go:36-48 | a last byte of zero passes unchecked and removes nothing |
| Encryption.UnpadIgnoresPaddingContent | Theranostics-DNA-Backend/utils/encryption.go:36-48 | the padding bytes are never compared with the length byte |
| Encryption.GetCipher | Theranostics-DNA-Backend/utils/encryption.go:13-26 | a key is usable exactly when it decodes from base64 to 32 bytes, and those bytes are the AES key |
| Encryption.Encrypt | Theranostics-DNA-Backend/utils/encryption.go:51-101 | encryption succeeds exactly when both keys are usable |
| Encryption.Decrypt | Theranostics-DNA-Backend/utils/encryption.go:104-165 | text that is not base64 is rejected before any key is looked at; a success needs both keys to be usable |
| Encryption.OpenSealLayer | Theranostics-DNA-Backend/utils/encryption.go:51-165 | opening one layer sealed under a key gives its plaintext back, given sound primitives |
| Encryption.DecryptEncrypt | Theranostics-DNA-Backend/utils/encryption.go:51-165 | decrypting what encryption produced gives the plaintext back, given sound base64 and AES-CBC primitives |
| PayPal.KeepPrintable | Theranostics-DNA-Backend/utils/paypal.go:84-89 | the filter keeps only characters 32 to 126, in order, and leaves a printable text as it is |
| PayPal.SanitizeString | Theranostics-DNA-Backend/utils/paypal.go:82-97 | the result is printable, at most `maxLength` long, and a prefix of the filtered text (all of it when that fits) |
| PayPal.SanitizeIdempotent | Theranostics-DNA-Backend/utils/paypal.go:82-97 | sanitising twice with the same bound changes nothing more |
| PayPal.SanitizeKeepsPrintable | Theranostics-DNA-Backend/utils/paypal.go:82-97 | a short printable text passes through unchanged |
| PayPal.AmountBreakdown | Theranostics-DNA-Backend/utils/paypal.go:119-134 | the item total is unit price times quantity, the tax is GST per unit times quantity, the discount is its percentage of the item total, and total plus discount equals item total plus tax |
| PayPal.VerifyAmountBreakdown | Theranostics-DNA-Backend/utils/paypal.go:100-110 | a mismatch is reported exactly when the given total is more than a cent away from item total plus tax minus discount |
| PayPal.BreakdownIsConsistent | Theranostics-DNA-Backend/utils/paypal.go:119-139 | a breakdown the order builder computes never fails the consistency check |
| PayPal.VerifyDetectsMismatch | Theranostics-DNA-Backend/utils/paypal.go:100-110 | a total off by more than a cent is always reported |
| PayPal.URLsCarryPaymentId | Theranostics-DNA-Backend/utils/paypal.go:115-116 | the return and cancel URLs are different, and the payment id reads back from both |
| PayPal.ParamBeforeAmpersand | Theranostics-DNA-Backend/utils/paypal.go:115-116 | the `payment_id` value is read up to the first '&' that follows it |
| PayPal.CaptureOutcome | Theranostics-DNA-Backend/utils/paypal.go:219-264 | a capture succeeds exactly when the request went through, the status code is 200 or 201 and the parsed status is COMPLETED. A bad status code is reported with its value |
| Permission.Tokenize | Theranostics-DNA-Backend/middlewares/permission_middleware.go:197 | rewriting every ":id" into a segment token never lengthens the pattern |
| Permission.TokenizeLiteralPrefix | Theranostics-DNA-Backend/middlewares/permission_middleware.go:197 | a prefix without ':' is kept literally before the rest of the pattern |
| Permission.MatchLiteralPrefix | Theranostics-DNA-Backend/middlewares/permission_middleware.go:199 | a literal prefix matches exactly the paths that start with it, the rest matching the rest of the pattern |
| Permission.LiteralRouteMatchesOnlyItself | Theranostics-DNA-Backend/middlewares/permission_middleware.go:197-199 | a route without ":id" matches exactly the path equal to it |
| Permission.MatchSegment | Theranostics-DNA-Backend/middlewares/permission_middleware.go:197 | the ":id" token matches exactly one non-empty segment with no '/' |
| Permission.TrailingIdMatchesOneSegment | Theranostics-DNA-Backend/middlewares/permission_middleware.go:197-199 | a route ending in ":id" matches its prefix followed by one non-empty segment |
| Permission.RoutePermissions | Theranostics-DNA-Backend/middlewares/permission_middleware.go:29-175 | the table has its 29 entries, in source order |
| Permission.RoleListed | Theranostics-DNA-Backend/middlewares/permission_middleware.go:208-212 | the scan finds the role exactly when some listed role, lower-cased, equals it |
| Permission.CheckPermission | Theranostics-DNA-Backend/middlewares/permission_middleware.go:178-217 | access is granted exactly when the lower-cased role is an allowed role and some entry matches the whole path, has no method or the same method, and lists the role |
| Permission.LowerOfLowercase | Theranostics-DNA-Backend/middlewares/permission_middleware.go:180 | lower-casing a text without upper-case letters changes nothing |
| Permission.RoleCaseInsensitive | Theranostics-DNA-Backend/middlewares/permission_middleware.go:180-209 | the decision does not depend on the case of the role name |
| Permission.UserOnlySelfService | Theranostics-DNA-Backend/middlewares/permission_middleware.go:29-55 | the role "user" is admitted only by the logout, reset-password, update-user and profile entries |
| Permission.SuperAdminEverywhereListed | Theranostics-DNA-Backend/middlewares/permission_middleware.go:29-217 | a super-admin is admitted exactly where some entry matches the path and method; an unlisted path is refused |
| Permission.SuperAdminHeadsEveryEntry | Theranostics-DNA-Backend/middlewares/permission_middleware.go:29-175 | every entry of the table lists super-admin first |
| Permission.UnknownRoleRefused | Theranostics-DNA-Backend/middlewares/permission_middleware.go:182-192 | a role outside super-admin, admin and user is refused on every route |
| Orders.TrimRequest | Theranostics-DNA-Backend/controllers/order_controller.go:74-93 | every text field is trimmed and the order type is lower-cased before trimming; numbers pass unchanged |
| Orders.FirstFailing | Theranostics-DNA-Backend/controllers/order_controller.go:176-271 | no error is found exactly when every check of the list passes; an error found is that of the first check that fails |
| Orders.FirstFailingThen | Theranostics-DNA-Backend/controllers/order_controller.go:176-271 | the first failure of two lists run one after the other is the first list's, if it has one, and otherwise the second's |
| Orders.CheckCustomer | Theranostics-DNA-Backend/controllers/order_controller.go:178-189 | the first failing check among first name, last name (when given), e-mail and phone number, in that order; none exactly when all four rules hold |
| Orders.CheckBilling | Theranostics-DNA-Backend/controllers/order_controller.go:190-204 | the first failing check among billing country, street, town, region and postcode, in that order; none exactly when all five rules hold |
| Orders.CheckShipping | Theranostics-DNA-Backend/controllers/order_controller.go:205-219 | the first failing check among shipping country, address, town, region and postcode, in that order; none exactly when all five rules hold |
| Orders.CheckProduct | Theranostics-DNA-Backend/controllers/order_controller.go:220-233 | the first failing check among product name, description length and image, where a given image must be base64 or a URL; none exactly when all hold |
| Orders.CheckShape | Theranostics-DNA-Backend/controllers/order_controller.go:235-268 | the first failing check among price, GST, quantity, customer type, clinic id and the per-type quantity limits, in code order; none exactly when the order shape is acceptable |
| Orders.ValidateOrderRequest | Theranostics-DNA-Backend/controllers/order_controller.go:176-271 | the error is the first failing check of the whole ordered list: customer details, billing address, shipping address, product, then price, quantity and type. The request passes exactly when every rule holds. An invalid first name is reported before anything else, and a price, quantity or type error only after all field rules hold |
| Orders.AcceptedOrderShape | Theranostics-DNA-Backend/controllers/order_controller.go:250-268 | an accepted order is a one-kit customer order, or a clinic order of at least 25 kits carrying a clinic id of 1 to 100 characters |
| Orders.FirstWithEmail | Theranostics-DNA-Backend/controllers/order_controller.go:277 | the customer found is the first row with the email, and none is found exactly when no row has it |
| Orders.ResolveCustomer | Theranostics-DNA-Backend/controllers/order_controller.go:273-324 | an unknown email creates a customer from the request. A known email binds to its row when the clinic ids agree: a clinic customer needs the same clinic id, and a non-clinic customer needs none |
| Orders.ApplyCustomer | Theranostics-DNA-Backend/controllers/order_controller.go:279-302 | binding keeps every stored customer and yields a valid customer id |
| Orders.CustomerRecordsKept | Theranostics-DNA-Backend/controllers/order_controller.go:273-324 | ordering never rewrites a customer: an existing one leaves the table as it is, and a new one is added only for an email no row holds |
| Orders.PriceOrder | Theranostics-DNA-Backend/controllers/order_controller.go:342-356 | the stored base price plus GST is the request price, and the total is the discounted base plus GST, times the quantity |
| Orders.NewOrderIsPending | Theranostics-DNA-Backend/controllers/order_controller.go:328-394 | a new order and its payment are Pending, the order's history has the single Pending entry, and the payment copies the order's total, GST and discount |
| Orders.InvoiceTotal | Theranostics-DNA-Backend/controllers/order_controller.go:674-690 | the invoice total is item subtotal plus GST minus the discount on the subtotal |
| Orders.TotalsAgree | Theranostics-DNA-Backend/controllers/order_controller.go:342-356 | without cent rounding, the invoice total and the PayPal breakdown total both equal the stored order total |
| Orders.ApprovalURL | Theranostics-DNA-Backend/controllers/order_controller.go:417-424 | a non-empty approval URL is the href of an "approve" link; when some link is "approve", the URL is the href of the first one; without such a link the URL is empty |
| Orders.OrderNumbers | Theranostics-DNA-Backend/controllers/order_controller.go:358 | every stored order's number is among the numbers checked for reuse |
| Orders.PlaceOrder | Theranostics-DNA-Backend/controllers/order_controller.go:100-142 | a successful placement needs an accepted customer binding and a PayPal checkout order |
| Orders.PlaceOrderAppends | Theranostics-DNA-Backend/controllers/order_controller.go:113-132 | placing an order appends one Pending order and one Pending payment, and adds at most one customer. The order has a number no earlier order holds and belongs to a customer with the request's email. The payment carries the order total and the PayPal order id. Stored rows are kept |
| Orders.PlaceOrderKeepsNumbersUnique | Theranostics-DNA-Backend/controllers/order_controller.go:358 | order creation keeps order numbers unique |
| Orders.PlaceValidOrder | Theranostics-DNA-Backend/controllers/order_controller.go:100-142 | the tables change to exactly what the placement computes and the approval URL is returned; on any failure no table changes |
| Orders.CreateOrder | Theranostics-DNA-Backend/controllers/order_controller.go:64-142 | an order is created exactly when the trimmed request is valid and the placement succeeds. An invalid request is refused as invalid, and a failure leaves the tables as they were |
| Orders.UpdatePaymentAndOrderStatus | Theranostics-DNA-Backend/controllers/order_controller.go:526-570 | the update succeeds exactly when the payment and its order are both present; a missing payment or order is reported. Otherwise the payment and order take the payment status, and the order's status and history change only when the target status is not Pending |
| Orders.StatusUpdateEffect | Theranostics-DNA-Backend/controllers/order_controller.go:526-570 | a Pending target leaves the order's status and history alone; any other target sets the status and appends exactly one history entry |
| Orders.InvoiceIds | Theranostics-DNA-Backend/models/invoice.go:20 | every stored invoice's id is among the ids checked for reuse |
| Orders.FreshInvoiceKeepsUnique | Theranostics-DNA-Backend/models/invoice.go:20 | appending an invoice whose id is unused keeps invoice ids distinct |
| Orders.InvoiceIdAsWrittenCanRepeat | Theranostics-DNA-Backend/controllers/order_controller.go:598 | when the first draw equals an earlier invoice id that no order holds, the generator as called hands out that invoice id again |
| Orders.PostPaymentProcessing | Theranostics-DNA-Backend/controllers/order_controller.go:580-664 | a missing payment, order or customer is an error. Otherwise the outcome is fixed by the id draw, then the PDF, then the e-mails, then the notification: the first that fails is the error, and when none fails exactly one invoice is appended. It carries the drawn id, which no invoice holds, the payment's amounts and the invoice link. Distinct invoice ids stay distinct |
| Orders.HandlePaymentSuccess | Theranostics-DNA-Backend/controllers/order_controller.go:430-524 | missing query values are refused. A rejected capture fails. Success marks the payment Completed with the order left Pending and adds one invoice; cancel marks both Cancelled; any other action marks both Failed. A success appends exactly the invoice of the drawn id and the payment's amounts, and needs the PDF, e-mails and notification to succeed. Conversely, a found capture that succeeds, with all three records present, a successful draw and all sends succeeding, gives success. Every error leaves the tables unchanged, and invoice ids stay distinct. For cancel and any other non-empty action, valid query values with the payment and its order present give success |
| Orders.CompletePayment | Theranostics-DNA-Backend/controllers/order_controller.go:501-516 | a missing or failed capture is a verification failure; a success has completed the payment, left the order Pending, passed every send and appended exactly the invoice of a fresh drawn id; conversely a successful capture, present records, a successful draw and successful sends give success; every error leaves the tables unchanged |
| Orders.SetPaymentStatus | Theranostics-DNA-Backend/controllers/order_controller.go:518-524 | the cancel and failure branches succeed exactly when the status update does, and then hold its tables; an error is the update's error and leaves the tables unchanged |
| ManageOrders.NonEmptyTrimmed | Theranostics-DNA-Backend/controllers/manage_orders_controller.go:410-414 | the codes kept are non-empty, have no white space at either end, and are no more than the pieces |
| ManageOrders.KeepNonEmpty | Theranostics-DNA-Backend/controllers/manage_orders_controller.go:406-414 | the parsing loop keeps exactly the trimmed non-empty pieces, in input order |
| ManageOrders.FirstBadFrom | Theranostics-DNA-Backend/controllers/manage_orders_controller.go:421-436 | the position found is that of the first code without the 30-character alphanumeric format; none is found exactly when every code has it |
| ManageOrders.ValidateBarcodes | Theranostics-DNA-Backend/controllers/manage_orders_controller.go:421-436 | the validation loop reports an error exactly when some code is malformed, and the error concerns the first malformed code |
| ManageOrders.BarcodeNumbers | Theranostics-DNA-Backend/controllers/manage_orders_controller.go:499-506 | every stored barcode number is among the numbers checked for reuse |
| ManageOrders.FirstTakenFrom | Theranostics-DNA-Backend/controllers/manage_orders_controller.go:499-506 | the position found is that of the first code some barcode row already holds; none is found exactly when no code is taken |
| ManageOrders.FindAssigned | Theranostics-DNA-Backend/controllers/manage_orders_controller.go:498-511 | the conflict loop reports the first code of the batch that is already stored, if any |
| ManageOrders.NewBarcodes | Theranostics-DNA-Backend/controllers/manage_orders_controller.go:522-526 | the batch inserts one live row per code, in order, all bound to the order |
| ManageOrders.NumbersAfterInsert | Theranostics-DNA-Backend/controllers/manage_orders_controller.go:521-532 | after the insert, the stored numbers are the old ones and the batch |
| ManageOrders.InsertBatch | Theranostics-DNA-Backend/controllers/manage_orders_controller.go:521-532 | the insert loop succeeds exactly when the batch has no repeated code and no code is already stored, and then appends the batch's rows |
| ManageOrders.CountFor | Theranostics-DNA-Backend/controllers/manage_orders_controller.go:483-489 | an order's barcode count never exceeds the number of rows |
| ManageOrders.CountForAppend | Theranostics-DNA-Backend/controllers/manage_orders_controller.go:483-535 | inserting a batch for an order raises its count by exactly the batch size |
| ManageOrders.HasBarcodeIffCounted | Theranostics-DNA-Backend/controllers/manage_orders_controller.go:719-722 | an order has a barcode exactly when its count is positive |
| ManageOrders.AssignBatch | Theranostics-DNA-Backend/controllers/manage_orders_controller.go:389-627 | the handler from the parsed batch on makes exactly the change the assignment specification computes and returns the batch size. Every error is the specification's error and leaves barcodes and orders unchanged |
| ManageOrders.AssignKit | Theranostics-DNA-Backend/controllers/manage_orders_controller.go:389-627 | the handler on the raw text and path id splits, trims and drops empty pieces, then behaves like the batch assignment |
| Numeric.ParseUint | Theranostics-DNA-Backend/controllers/manage_orders_controller.go:514 | the unsigned parse accepts exactly a non-empty run of decimal digits whose value is within the bound, and yields that value |
| Numeric.AtoiOfUnsigned | Theranostics-DNA-Backend/controllers/manage_orders_controller.go:514 | text the unsigned parse accepts within the 64-bit range reads as the same number through the signed parse |
| ManageOrders.SignedOrderIdRefused | Theranostics-DNA-Backend/controllers/manage_orders_controller.go:514-518 | a path id with a sign, such as "+5", is refused by the unsigned parse even when the lookup found the order |
| ManageOrders.AssignGuards | Theranostics-DNA-Backend/controllers/manage_orders_controller.go:415-532 | a batch is accepted only for an existing, live, paid order, from an authenticated user, with a non-empty set of distinct, well-formed codes no row holds yet. The path id then reads as an unsigned 32-bit number equal to the order's id |
| ManageOrders.AssignWithinQuantity | Theranostics-DNA-Backend/controllers/manage_orders_controller.go:483-496 | after an accepted batch the order holds its old barcodes plus the batch, never more than its quantity |
| ManageOrders.AssignKeepsNumbersUnique | Theranostics-DNA-Backend/controllers/manage_orders_controller.go:498-532 | accepted batches keep barcode numbers unique across all orders |
| ManageOrders.AssignProcessingOnLastBatch | Theranostics-DNA-Backend/controllers/manage_orders_controller.go:534-565 | only the batch that fills the order changes it: the order becomes Processing with exactly one new history entry, and other orders are kept. Any other batch leaves the orders as they were |
| ManageOrders.FullOrderRefusesBatches | Theranostics-DNA-Backend/controllers/manage_orders_controller.go:491-496 | once an order holds its full quantity every further batch is refused, so Processing is appended at most once |
| ManageOrders.TakenCodeRefused | Theranostics-DNA-Backend/controllers/manage_orders_controller.go:498-506 | a code already stored for any order makes the whole batch fail |
| ManageOrders.RepeatedCodeRefused | Theranostics-DNA-Backend/controllers/manage_orders_controller.go:521-532 | a batch repeating a code fails on insert, so nothing is stored |
| ManageOrders.Title | Theranostics-DNA-Backend/controllers/manage_orders_controller.go:648 | a character at the start or after a separator is upper-cased, every other character is kept, and the length is kept |
| ManageOrders.ToLowerSlice | Theranostics-DNA-Backend/controllers/manage_orders_controller.go:825-831 | every status of the list is lower-cased, in place and in order |
| ManageOrders.LowerTitle | Theranostics-DNA-Backend/controllers/manage_orders_controller.go:648-652 | title-casing changes only case, so the lower-cased status is unaffected |
| ManageOrders.TitleLowerOfCapitalised | Theranostics-DNA-Backend/controllers/manage_orders_controller.go:648 | title-casing the lower-cased form of a capitalised word gives the word back |
| ManageOrders.TitleOfLowerCapitalised | Theranostics-DNA-Backend/controllers/manage_orders_controller.go:647-648 | a capitalised word is its own normal form |
| ManageOrders.AllowedStatusesCapitalised | Theranostics-DNA-Backend/controllers/manage_orders_controller.go:636-652 | each allowed status is its own normal form |
| ManageOrders.NormalizedStatusIsCanonical | Theranostics-DNA-Backend/controllers/manage_orders_controller.go:647-652 | a status is accepted exactly when, trimmed, it equals an allowed status up to case, and the stored status is then that allowed status in its own spelling |
| ManageOrders.StatusUpdate | Theranostics-DNA-Backend/controllers/manage_orders_controller.go:630-822 | an accepted update writes exactly the one order named, with the new status, its history entry and the tracking id |
| ManageOrders.ApplyStatusUpdate | Theranostics-DNA-Backend/controllers/manage_orders_controller.go:652-822 | the handler from the normalised status on makes exactly the change the update specification computes; every error is the specification's error and leaves the orders unchanged |
| ManageOrders.UpdateOrderStatus | Theranostics-DNA-Backend/controllers/manage_orders_controller.go:630-822 | the handler on the raw inputs normalises the status and trims the tracking id, then behaves like the update specification |
| ManageOrders.StatusUpdateEffect | Theranostics-DNA-Backend/controllers/manage_orders_controller.go:630-822 | an accepted update stores an allowed status different, up to case, from the old one, and appends exactly that status to the history. It stores the trimmed tracking id of at most 50 characters, needs a paid order with a barcode, and touches no other order |
| ManageOrders.AnyOtherStatusAccepted | Theranostics-DNA-Backend/controllers/manage_orders_controller.go:704-728 | there is no transition table: any allowed status other than the current one is accepted for a paid order with a barcode |
| ManageOrders.LastCountOfGrouping | Theranostics-DNA-Backend/controllers/manage_orders_controller.go:914-925 | over groups with distinct statuses, the count kept for a status is that of its group, or 0 when none has it |
| ManageOrders.GroupingCount | Theranostics-DNA-Backend/controllers/manage_orders_controller.go:881-925 | over a grouping of the paid, live orders, the count kept for a status is the number of such orders with that status |
| ManageOrders.GetOrderCounts | Theranostics-DNA-Backend/controllers/manage_orders_controller.go:871-929 | the four counts are the numbers of paid, live orders that are Dispatched, Processing, Pending and Shipped, and the total is the sum of their quantities |
| Registration.MatchCountPositive | Theranostics-DNA-Backend/services/kit_registration_services.go:79-88 | the duplicate count is positive exactly when a live registration exists for the barcode, order and customer |
| Registration.IsKitRegistrationExists | Theranostics-DNA-Backend/services/kit_registration_services.go:79-88 | the counting loop reports a duplicate exactly when a live registration exists for the barcode, order and customer |
| Registration.FirstDispatched | Theranostics-DNA-Backend/controllers/kit_registration_controller.go:128-170 | the row found is the first live barcode with the number whose order is live and Dispatched and has a customer; none is found exactly when no row qualifies |
| Registration.LookupBarcode | Theranostics-DNA-Backend/controllers/kit_registration_controller.go:128-186 | the database part of the verification returns exactly the lookup specification's outcome |
| Registration.VerifyBarcode | Theranostics-DNA-Backend/controllers/kit_registration_controller.go:75-196 | the handler returns exactly the verification specification's outcome for the submitted text |
| Registration.VerifiedKitIsDispatched | Theranostics-DNA-Backend/controllers/kit_registration_controller.go:88-186 | a verified barcode is a live row holding the trimmed 30-character alphanumeric number. Its order is live and Dispatched, and the barcode, order and customer triple is not yet registered |
| Registration.NotFoundMeansNoDispatchedRow | Theranostics-DNA-Backend/controllers/kit_registration_controller.go:157-172 | a well-formed code is reported not found exactly when no row passes the join |
| Registration.WellFormedCodeIsLookedUp | Theranostics-DNA-Backend/controllers/kit_registration_controller.go:88-110 | a non-empty text whose trimmed form is a well-formed barcode reaches the database lookup |
| Registration.VerifiedRowIsUnique | Theranostics-DNA-Backend/controllers/kit_registration_controller.go:157-172 | with unique barcode numbers, the verified row is the only row holding the number |
| Registration.ValidatePatientRequest | Theranostics-DNA-Backend/services/kit_registration_services.go:32-52 | the patient passes exactly when the first name, last name and e-mail are valid, the lower-cased gender is allowed and the age is at least 18 |
| Registration.PatientErrorOrder | Theranostics-DNA-Backend/services/kit_registration_services.go:32-52 | each error is reported only when every earlier check passed |
| Registration.TrimSpaceChars | Theranostics-DNA-Backend/controllers/kit_registration_controller.go:242-245 | every character of a trimmed text comes from the text |
| Registration.TrimmedLowerIsLower | Theranostics-DNA-Backend/controllers/kit_registration_controller.go:244 | trimming a lower-cased gender keeps it lower-case |
| Registration.DecodedPatientIsTrimmed | Theranostics-DNA-Backend/controllers/kit_registration_controller.go:220-245 | the decoded patient has trimmed names and e-mail and a lower-case, trimmed gender |
| Registration.DecodingNeedsUsableKeys | Theranostics-DNA-Backend/controllers/kit_registration_controller.go:227-234 | patient data is decoded only when both keys are usable |
| Registration.FirstBarcodeFor | Theranostics-DNA-Backend/services/kit_registration_services.go:54-61 | the barcode found is a live row with that number on that order, and none is found exactly when no live row matches |
| Registration.NewRegistrationFailsOnlyOnKeys | Theranostics-DNA-Backend/services/kit_registration_services.go:90-137 | the insert's encryptions fail exactly when one of the two keys is unusable, whatever the patient's values |
| Registration.NewRegistrationFields | Theranostics-DNA-Backend/services/kit_registration_services.go:90-137 | the new row has the request's keys, status Not-Received and no lab, reason or report. Given sound primitives, each stored patient field decrypts to the patient's value |
| Registration.EmailPlan | Theranostics-DNA-Backend/services/kit_registration_services.go:139-279 | the admin is always mailed first and the patient last; the clinic customer is mailed exactly when it is to be informed |
| Registration.FirstUndelivered | Theranostics-DNA-Backend/services/kit_registration_services.go:201-276 | the send found is the first one that fails; none is found exactly when all are delivered |
| Registration.SendKitRegistrationNotificationEmails | Theranostics-DNA-Backend/services/kit_registration_services.go:139-279 | the sends are attempted in plan order, stopping at the first failure, which is reported |
| Registration.EmailFanOut | Theranostics-DNA-Backend/services/kit_registration_services.go:139-279 | the admin is tried first, the customer only when asked, and the sends stop at the first failure. The fan-out succeeds exactly when every planned send is delivered |
| Registration.CheckPatient | Theranostics-DNA-Backend/controllers/kit_registration_controller.go:248-285 | the checks in handler order return exactly what the check specification gives, including the counting loop for duplicates |
| Registration.InsertRegistration | Theranostics-DNA-Backend/controllers/kit_registration_controller.go:287-331 | the row is stored only after every e-mail is delivered; otherwise the registrations are unchanged and the failure is reported |
| Registration.RegisterDecoded | Theranostics-DNA-Backend/controllers/kit_registration_controller.go:248-340 | from the decoded patient on, the handler appends exactly the specification's row or leaves the registrations unchanged with its error |
| Registration.KitRegister | Theranostics-DNA-Backend/controllers/kit_registration_controller.go:198-340 | a missing, undecryptable or malformed patient text is refused with nothing sent and nothing stored; otherwise the handler behaves like the registration specification |
| Registration.ChecksPassed | Theranostics-DNA-Backend/controllers/kit_registration_controller.go:248-285 | the checks pass only for a valid patient, a live barcode with the sent number on the sent order, a live customer and order, and no duplicate |
| Registration.NewRegistrationShape | Theranostics-DNA-Backend/services/kit_registration_services.go:114-128 | the new row's keys and initial state do not depend on the encryption |
| Registration.RegistrationAccepted | Theranostics-DNA-Backend/controllers/kit_registration_controller.go:198-340 | an accepted registration passed every check and had every e-mail delivered; its row is the Not-Received row for the triple |
| Registration.RegisteringTwiceRefused | Theranostics-DNA-Backend/controllers/kit_registration_controller.go:279-285 | once a registration is stored, the same request is refused as a duplicate |
| Registration.RegistrationIgnoresOrderStatus | Theranostics-DNA-Backend/controllers/kit_registration_controller.go:271-277 | registration does not re-check Dispatched: the outcome does not depend on the order's status |
| Registration.UsableKeysNeverFailToEncrypt | Theranostics-DNA-Backend/services/kit_registration_services.go:90-137 | with two usable keys the five encryptions of the insert cannot fail |
| Registration.DecodedDataNeverFailsToEncrypt | Theranostics-DNA-Backend/controllers/kit_registration_controller.go:227-293 | a registration whose patient data decrypted never fails at the insert |
| PostOrders.ValidatePaginationParams | Theranostics-DNA-Backend/services/manage-post-orders_services.go:53-75 | the page and page size are at least 1 and default to 1 and 10; each error is reported exactly when its text is present and not a positive number, the page first |
| PostOrders.PaginationRoundTrip | Theranostics-DNA-Backend/services/manage-post-orders_services.go:53-75 | any page and page size the list can answer with are read back unchanged from their decimal text |
| PostOrders.ValidateSortParams | Theranostics-DNA-Backend/services/manage-post-orders_services.go:78-99 | the direction and column accepted are lower-case members of the allowed lists and default to desc and created_at; each error is reported exactly when its text is not allowed |
| PostOrders.SortParamsIgnoreCase | Theranostics-DNA-Backend/services/manage-post-orders_services.go:81-90 | two queries whose sort texts agree up to ASCII case are answered alike |
| PostOrders.ValidateStatusParam | Theranostics-DNA-Backend/services/manage-post-orders_services.go:102-114 | the filter is accepted exactly when it is a stored status spelling or all, and empty means all |
| PostOrders.StatusFilterIsCaseSensitive | Theranostics-DNA-Backend/services/manage-post-orders_services.go:102-114 | the list filter compares exactly: send is refused while Send is accepted |
| PostOrders.TotalPages | Theranostics-DNA-Backend/controllers/manage-post-orders.go:139 | the page count is the least number of pages of that size covering the total, and zero only for no rows |
| PostOrders.PageOf | Theranostics-DNA-Backend/services/manage-post-orders_services.go:192-194 | a page holds at most the page size of consecutive rows starting at the offset, and is full whenever enough rows remain |
| PostOrders.RowOnItsPage | Theranostics-DNA-Backend/services/manage-post-orders_services.go:192-194 | every row appears on the page its position gives, and that page is within the page count |
| PostOrders.PagesPastTheEndAreEmpty | Theranostics-DNA-Backend/services/manage-post-orders_services.go:192-194 | a page past the page count is empty |
| PostOrders.ParseListQuery | Theranostics-DNA-Backend/controllers/manage-post-orders.go:77-108 | unknown query keys are refused first; an accepted query carries exactly the pagination, sort and status results of the three validators and the trimmed search text |
| PostOrders.Selected | Theranostics-DNA-Backend/services/manage-post-orders_services.go:117-191 | a row is selected exactly when it is live, matches the status filter and matches the search |
| PostOrders.FetchKitRegistrations | Theranostics-DNA-Backend/services/manage-post-orders_services.go:117-226 | the fetch fails exactly when a non-empty search text does not encrypt. Otherwise the count is that of all selected rows, taken before paging, and the records are the requested page of the ordered selection, at most a page full |
| PostOrders.CountIgnoresPaging | Theranostics-DNA-Backend/services/manage-post-orders_services.go:166-169 | the count is the same for every page and every page size |
| PostOrders.KitList | Theranostics-DNA-Backend/controllers/manage-post-orders.go:74-156 | a rejected query is that query error and an unknown parameter is refused. A failed fetch is its error. Otherwise the response echoes the parsed parameters with the fetched count and page, and the page count covers the count |
| PostOrders.GetPatientRegisterKitList | Theranostics-DNA-Backend/controllers/manage-post-orders.go:74-156 | the handler returns exactly the list specification's response or error |
| PostOrders.ListedRecordsQualify | Theranostics-DNA-Backend/controllers/manage-post-orders.go:74-156 | every listed record is a live row with the requested status, at most a page of them is listed, and the page count covers the total |
| PostOrders.ValidateStatusTransition | Theranostics-DNA-Backend/services/manage-post-orders_services.go:248-277 | a move is allowed exactly when the workflow permits it on lower-cased statuses. Reject and Send are final, nothing moves back to Not-Received, a move to reject from Not-Received needs a reason, and an unknown current status is refused |
| PostOrders.ValidateSendStatus | Theranostics-DNA-Backend/services/manage-post-orders_services.go:279-323 | the send details pass exactly when an old lab names an id or a new lab's trimmed name, address and NHI number are valid. The type is checked first and the name before the address and the NHI number |
| PostOrders.FirstLab | Theranostics-DNA-Backend/services/manage-post-orders_services.go:371-383 | the lab found is the first live lab with exactly these details; none is found exactly when no such lab exists |
| PostOrders.LabChoice | Theranostics-DNA-Backend/services/manage-post-orders_services.go:325-360 | an old lab is used only when it is live and leaves the labs unchanged; a new lab's details are found or added once, and only when no lab has them |
| PostOrders.ProcessLabInformation | Theranostics-DNA-Backend/services/manage-post-orders_services.go:325-360 | the lab stage returns and stores exactly what the lab choice gives |
| PostOrders.NewLabCreatedOnce | Theranostics-DNA-Backend/services/manage-post-orders_services.go:325-383 | a second send to the same new lab finds the lab the first one created and adds nothing |
| PostOrders.CanonicalStatus | Theranostics-DNA-Backend/services/manage-post-orders_services.go:461-470 | the status stored is one of the four spellings and agrees with the request up to case; anything else is stored as Reject |
| PostOrders.FirstDecryptError | Theranostics-DNA-Backend/services/manage-post-orders_services.go:420-452 | the error found is that of a field that does not decrypt; none is found exactly when all decrypt |
| PostOrders.StatusChange | Theranostics-DNA-Backend/services/manage-post-orders_services.go:402-500 | the update succeeds exactly when the row exists, its five patient columns decrypt, and its customer, order and barcode rows exist. The new row differs only in status, reason and lab, and keeps its lab when none is given |
| PostOrders.UpdatePatientStatus | Theranostics-DNA-Backend/services/manage-post-orders_services.go:402-505 | the row is saved exactly when the update succeeds; otherwise the table is unchanged and the error is returned |
| PostOrders.ParseUint | Theranostics-DNA-Backend/controllers/manage-post-orders.go:160 | an id is read exactly when the text is a non-empty string of decimal digits of at most 2^64 - 1, and has their value |
| PostOrders.NormalizeRequest | Theranostics-DNA-Backend/controllers/manage-post-orders.go:185-202 | the status is lower-cased and, for a send, the type is lower-cased and trimmed and the lab fields are trimmed |
| PostOrders.RequestChecks | Theranostics-DNA-Backend/controllers/manage-post-orders.go:186-227 | the request passes exactly when it is acceptable; an unknown status is refused first |
| PostOrders.StatusChecks | Theranostics-DNA-Backend/controllers/manage-post-orders.go:158-227 | an accepted request has a valid id naming a row and a decoded body, normalised. It passed the request checks against the row's current status |
| PostOrders.StatusChecksAccepted | Theranostics-DNA-Backend/controllers/manage-post-orders.go:158-227 | an accepted request names a valid status, valid send details, a new status and an allowed move |
| PostOrders.StatusChecksPassRequestChecks | Theranostics-DNA-Backend/controllers/manage-post-orders.go:186-227 | an accepted request passes the request checks against the current status of its row |
| PostOrders.CheckStatusRequest | Theranostics-DNA-Backend/controllers/manage-post-orders.go:158-227 | the checks as the handler runs them give exactly the check specification's result on the table |
| PostOrders.StatusChecksOfFoundKit | Theranostics-DNA-Backend/controllers/manage-post-orders.go:178-227 | once the id names a row and the body decodes, the outcome is that of the request checks on the normalised body |
| PostOrders.CheckRequest | Theranostics-DNA-Backend/controllers/manage-post-orders.go:186-227 | the request checks as the handler runs them, returning at the first failure, give exactly the request check specification |
| PostOrders.ApplyStatusRequest | Theranostics-DNA-Backend/controllers/manage-post-orders.go:229-250 | the lab stage and the update store exactly what the apply specification gives |
| PostOrders.UpdateKitStatus | Theranostics-DNA-Backend/controllers/manage-post-orders.go:158-251 | the handler stores and returns exactly what the status update specification gives |
| PostOrders.ApplyStatusAccepted | Theranostics-DNA-Backend/controllers/manage-post-orders.go:229-250 | an accepted application went through the lab stage and the update and saved the updated row |
| PostOrders.StatusUpdateAccepted | Theranostics-DNA-Backend/controllers/manage-post-orders.go:158-251 | an accepted status update passed the checks and was then applied |
| PostOrders.SentKitHasLab | Theranostics-DNA-Backend/controllers/manage-post-orders.go:198-250 | a kit is saved as Send only together with a live lab |
| PostOrders.FinalStatusesStay | Theranostics-DNA-Backend/services/manage-post-orders_services.go:248-277 | a rejected or sent kit is never changed again: every request fails and nothing is written |
| PostOrders.NotReceivedNeverRestored | Theranostics-DNA-Backend/controllers/manage-post-orders.go:217-250 | no accepted update stores Not-Received, and no other row changes |
| PostOrders.LabsOnlyGrow | Theranostics-DNA-Backend/controllers/manage-post-orders.go:229-240 | the labs table is unchanged or gains exactly one live lab with the request's trimmed details |
| PostOrders.ApplyStatusLabs | Theranostics-DNA-Backend/controllers/manage-post-orders.go:229-240 | applying a checked request leaves the labs as the lab stage left them, growing only for a send |
| PostOrders.Ext | Theranostics-DNA-Backend/controllers/manage-post-orders.go:274 | the extension is a suffix of the path. It is empty or starts at the last dot, and contains no slash; it is empty only when every dot lies before a slash |
| PostOrders.ReportFileName | Theranostics-DNA-Backend/services/manage-post-orders_services.go:688-690 | the stored name is the date in eight digits, an underscore, the four-digit unique id and the extension |
| PostOrders.Upload | Theranostics-DNA-Backend/services/manage-post-orders_services.go:665-803 | the new name is saved only for a row whose status is exactly Send, once the file is created and copied; every other failure leaves the table unchanged. A missing row or a status other than Send is reported as not sent; conversely a Send row whose file is created and copied gets the report name saved and the committed result |
| PostOrders.SaveReport | Theranostics-DNA-Backend/services/manage-post-orders_services.go:716-720 | only the row's file path changes |
| PostOrders.AfterCommit | Theranostics-DNA-Backend/services/manage-post-orders_services.go:727-752 | after the commit a missing or deleted customer ends quietly; the call fails exactly when the patient's names or e-mail do not decrypt |
| PostOrders.HandleFileUpload | Theranostics-DNA-Backend/services/manage-post-orders_services.go:665-803 | the service stores and returns exactly what the upload specification gives |
| PostOrders.FileUpload | Theranostics-DNA-Backend/controllers/manage-post-orders.go:254-295 | the handler stores and returns exactly what the upload handler specification gives |
| PostOrders.ReportOnlyForSentKits | Theranostics-DNA-Backend/controllers/manage-post-orders.go:254-295 | a saved report belongs to a sent kit and came as a PDF or XML file of at most 10 MB. It is stored under the dated name with the lower-cased extension, and nothing else changes |
| PostOrders.FailedReportStillSaved | Theranostics-DNA-Backend/services/manage-post-orders_services.go:724-752 | an upload reported as failed because a patient column did not decrypt has still saved the new file name |
| Inventory.Truncate | Theranostics-DNA-Backend/controllers/manage_inventory_controller.go:230-231 | converting a JSON number to an integer truncates toward zero |
| Inventory.ParseQuantity | Theranostics-DNA-Backend/controllers/manage_inventory_controller.go:219-237 | an empty text, a text that is not a decimal integer and a non-numeric value are refused with their own errors. A decimal text gives its value, an integer itself, and a JSON number its truncation |
| Inventory.QuantityInRange | Theranostics-DNA-Backend/controllers/manage_inventory_controller.go:266-276 | a quantity passes exactly when it parses and lies between 0 and 999999 |
| Inventory.QuantityTextRoundTrip | Theranostics-DNA-Backend/controllers/manage_inventory_controller.go:219-276 | every quantity in range written in decimal is accepted as that quantity |
| Inventory.KitRequestError | Theranostics-DNA-Backend/controllers/manage_inventory_controller.go:240-278 | a new kit request passes exactly when its type is blood or saliva, the supplier name is valid, the optional contact number and address are valid and the quantity is in range. Two missing required fields are reported first |
| Inventory.ValidateKitRequest | Theranostics-DNA-Backend/controllers/manage_inventory_controller.go:240-278 | the checks as the handler runs them report exactly the first error of the rule |
| Inventory.CreateKitModel | Theranostics-DNA-Backend/controllers/manage_inventory_controller.go:165-178 | the new kit is active, not deleted, owned by the caller and carries the request's fields and quantity |
| Inventory.ParsedKitRequest | Theranostics-DNA-Backend/controllers/manage_inventory_controller.go:136-162 | an accepted body is the trimmed request, satisfies the rule and carries its parsed quantity, which is in range |
| Inventory.CreateKitOutcome | Theranostics-DNA-Backend/controllers/manage_inventory_controller.go:72-133 | only a live signed-in user with a valid body adds a kit, and exactly the one built from the trimmed request; every failure leaves the kits unchanged |
| Inventory.CreateKitHandler | Theranostics-DNA-Backend/controllers/manage_inventory_controller.go:72-133 | the handler stores and returns exactly what the create specification gives |
| Inventory.TrimKitUpdate | Theranostics-DNA-Backend/controllers/manage_inventory_controller.go:634-647 | trimming keeps which fields were supplied, the quantity and the status, and trims each supplied text |
| Inventory.KitUpdateError | Theranostics-DNA-Backend/controllers/manage_inventory_controller.go:484-534 | an update passes exactly when it satisfies the update rule; an empty supplied type is refused and an update supplying nothing passes |
| Inventory.ValidateKitUpdateRequest | Theranostics-DNA-Backend/controllers/manage_inventory_controller.go:484-534 | the checks as the handler runs them report exactly the first error of the update rule |
| Inventory.StoredQuantity | Theranostics-DNA-Backend/controllers/manage_inventory_controller.go:652-656 | the stored quantity is the current one when none is supplied and the parsed one when it parses |
| Inventory.UpdateKitFields | Theranostics-DNA-Backend/controllers/manage_inventory_controller.go:649-673 | each supplied field replaces the kit's and every other field is kept, including the owner, the deletion flag and the times |
| Inventory.EmptyUpdateChangesNothing | Theranostics-DNA-Backend/controllers/manage_inventory_controller.go:649-673 | an update supplying nothing leaves the kit unchanged |
| Inventory.UpdateIdempotent | Theranostics-DNA-Backend/controllers/manage_inventory_controller.go:649-673 | applying the same update twice is the same as applying it once |
| Inventory.GetKitChanges | Theranostics-DNA-Backend/controllers/manage_inventory_controller.go:717-740 | at most one sentence for each of the six compared columns |
| Inventory.NoChangesIffSame | Theranostics-DNA-Backend/controllers/manage_inventory_controller.go:717-740 | the change list is empty exactly when none of the six columns changed |
| Inventory.ChangeCount | Theranostics-DNA-Backend/controllers/manage_inventory_controller.go:717-740 | the change list has exactly one sentence per changed column |
| Inventory.UpdateKitOutcome | Theranostics-DNA-Backend/controllers/manage_inventory_controller.go:537-631 | an accepted update names a live kit by a valid id and carries a valid trimmed body. It replaces only that kit, by the supplied fields and a new update time, and reports the change list; every failure leaves the kits unchanged |
| Inventory.UpdateKitHandler | Theranostics-DNA-Backend/controllers/manage_inventory_controller.go:537-631 | the handler stores and returns exactly what the update specification gives |
| Inventory.UpdateKeepsIdentity | Theranostics-DNA-Backend/controllers/manage_inventory_controller.go:537-631 | an accepted update keeps the kit's owner, creation time and live flag, leaves a supplied quantity in range and touches no other kit |
| Inventory.DeleteKitOutcome | Theranostics-DNA-Backend/controllers/manage_inventory_controller.go:743-818 | a delete succeeds exactly for a live signed-in user and a valid id naming a live kit. That kit alone is flagged deleted and inactive; a failure changes nothing |
| Inventory.DeleteKitHandler | Theranostics-DNA-Backend/controllers/manage_inventory_controller.go:743-818 | the handler stores and returns exactly what the delete specification gives |
| Inventory.DeleteTwiceNotFound | Theranostics-DNA-Backend/controllers/manage_inventory_controller.go:743-818 | a second delete of the same kit fails and changes nothing |
| Inventory.DeletedKitCannotBeUpdated | Theranostics-DNA-Backend/controllers/manage_inventory_controller.go:537-631 | a deleted kit can no longer be updated |
| Inventory.TypeTotalOfAbsentType | Theranostics-DNA-Backend/controllers/manage_inventory_controller.go:888-906 | a type no live kit has totals zero |
| Inventory.GetKitsQuantitySummary | Theranostics-DNA-Backend/controllers/manage_inventory_controller.go:859-924 | the loop over the grouped rows yields the live blood and saliva totals, ignores other types, and the combined figure is their sum |
| FrontValidation.TrimStart | Theronostics-DNA/src/utils/validation/validationUtils.ts:21-36 | the result is a suffix of the text that does not start with white space, and only white space was removed |
| FrontValidation.TrimEnd | Theronostics-DNA/src/utils/validation/validationUtils.ts:21-36 | the result is a prefix of the text that does not end with white space, and only white space was removed |
| FrontValidation.Trim | Theronostics-DNA/src/utils/validation/validationUtils.ts:21-36 | a trimmed text has no white space at either end, and a text without any is its own trim |
| FrontValidation.StateValue | Theronostics-DNA/src/utils/validation/validationUtils.ts:295-311 | a field missing from the form state reads as the empty text |
| FrontValidation.NameWithSpaceShapeHasNoOuterSpace | Theronostics-DNA/src/utils/validation/validationUtils.ts:21-36 | a value matching the name pattern has no white space at either end and no two spaces in a row |
| FrontValidation.NameWithSpaceCheckIff | Theronostics-DNA/src/utils/validation/validationUtils.ts:21-36 | the name-with-space check passes exactly when the untrimmed value is one letter word, or two joined by one white-space character |
| FrontValidation.NhiShapeHasNoSpace | Theronostics-DNA/src/utils/validation/validationUtils.ts:275-290 | a value of letters, digits and dashes has nothing to trim and no double space |
| FrontValidation.NhiNumberCheckIff | Theronostics-DNA/src/utils/validation/validationUtils.ts:275-290 | the NHI check passes exactly when the value is non-empty letters, digits and dashes |
| FrontValidation.AlnumWithSpaceCheckIff | Theronostics-DNA/src/utils/validation/validationUtils.ts:241-256 | the check passes exactly when the value is letters, digits and white space with none at either end and no two spaces in a row |
| FrontValidation.PasswordCheckIff | Theronostics-DNA/src/utils/validation/validationUtils.ts:63-104 | the password check passes exactly when the strength rule holds, a new password differs from the old one and a confirmation equals the new one |
| FrontValidation.FrontPasswordMeetsServerRule | Theronostics-DNA/src/utils/validation/validationUtils.ts:63-92 | every password the form accepts also meets the server's password rule of Theranostics-DNA-Backend/utils/validation.go:84-110 |
| FrontValidation.ServerPasswordNotAlwaysFrontPassword | Theronostics-DNA/src/utils/validation/validationUtils.ts:84-92 | the converse fails: the server counts a dash as special and the form does not |
| FrontValidation.ServerTakesDash | Theranostics-DNA-Backend/utils/validation.go:84-110 | the server accepts a password whose only special character is a dash |
| FrontValidation.NhiCharsAreNotFrontSpecials | Theronostics-DNA/src/utils/validation/validationUtils.ts:84-92 | none of the form's special characters is a letter, a digit or a dash |
| FrontValidation.EmailHasOneAt | Theronostics-DNA/src/utils/validation/validationUtils.ts:55-60 | a value matching the e-mail pattern has exactly one at sign |
| FrontValidation.RequiredComesFirst | Theronostics-DNA/src/utils/validation/validationUtils.ts:9-11 | an empty required field reports the label's required message, whatever else it declares |
| FrontValidation.SelectMessageShadowed | Theronostics-DNA/src/utils/validation/validationUtils.ts:9-18 | the select message can never be shown, because the required check fires first on the same input |
| FrontValidation.RuleChecksDecide | Theronostics-DNA/src/utils/validation/validationUtils.ts:3-293 | on a non-empty value of a field with only a rule name, the rule checks alone decide the message |
| FrontValidation.LateRuleDecides | Theronostics-DNA/src/utils/validation/validationUtils.ts:138-290 | a rule that the early checks do not know is decided by the later rule checks alone |
| FrontValidation.EarlyRuleDecides | Theronostics-DNA/src/utils/validation/validationUtils.ts:21-104 | a rule that the later checks do not know is decided by the early rule checks alone |
| FrontValidation.NameWithSpaceIff | Theronostics-DNA/src/utils/validation/validationUtils.ts:21-36 | a name-with-space field passes exactly when the value is one or two letter words joined by one white-space character |
| FrontValidation.NameWithoutSpaceIff | Theronostics-DNA/src/utils/validation/validationUtils.ts:38-53 | a name-without-space field passes exactly when the trimmed value is non-empty letters and the value has no plain space |
| FrontValidation.NameWithoutSpaceLetsTabThrough | Theronostics-DNA/src/utils/validation/validationUtils.ts:38-53 | a tab before a letter-only name passes the name-without-space check |
| FrontValidation.TabAnnLetters | Theronostics-DNA/src/utils/validation/validationUtils.ts:38-53 | the sample name is letters only and the sample value holds no plain space |
| FrontValidation.TabAnnTrimmed | Theronostics-DNA/src/utils/validation/validationUtils.ts:38-53 | trimming the sample value removes the tab |
| FrontValidation.EmailIff | Theronostics-DNA/src/utils/validation/validationUtils.ts:55-60 | an e-mail field passes exactly when the value matches the e-mail pattern |
| FrontValidation.PasswordIff | Theronostics-DNA/src/utils/validation/validationUtils.ts:63-104 | a password field passes exactly when the strength rule holds, a new password differs from the old one and a confirmation equals the new one |
| FrontValidation.AmountIff | Theronostics-DNA/src/utils/validation/validationUtils.ts:138-175 | a number field passes exactly when the value parses to a number from 1 to 99999 |
| FrontValidation.AgeIff | Theronostics-DNA/src/utils/validation/validationUtils.ts:179-201 | an age field passes exactly when the value parses to a number from 18 to 99999 |
| FrontValidation.ClinicOrderQuantityIff | Theronostics-DNA/src/utils/validation/validationUtils.ts:203-224 | a clinic order quantity passes exactly when the value parses to a number from 25 to 99999 |
| FrontValidation.PhoneNumberMatchesServer | Theronostics-DNA/src/utils/validation/validationUtils.ts:227-239 | a phone field passes exactly when the server's contact-number rule of Theranostics-DNA-Backend/utils/validation.go:137-143 accepts the value |
| FrontValidation.AlnumWithSpaceIff | Theronostics-DNA/src/utils/validation/validationUtils.ts:241-256 | an alphanumeric-with-space field passes exactly when the value is letters, digits and single inner white space |
| FrontValidation.NhiNumberIff | Theronostics-DNA/src/utils/validation/validationUtils.ts:275-290 | an NHI field passes exactly when the value is letters, digits and dashes |
| FrontValidation.RuleLengthsIff | Theronostics-DNA/src/utils/validation/validationUtils.ts:106-120 | a field with only length rules passes exactly when the value is within them, and an over-long value reports the maximum first |
| FrontValidation.TextareaMinLengthOnEmpty | Theronostics-DNA/src/utils/validation/validationUtils.ts:123-135 | a textarea's own minimum length is enforced even on the empty value of an optional field |
| FrontValidation.TextareaBlankIsMissing | Theronostics-DNA/src/utils/validation/validationUtils.ts:123-135 | a required textarea holding only white space is reported as missing |
| FrontValidation.CollectKeys | Theronostics-DNA/src/utils/validation/validationUtils.ts:295-311 | a key is in the errors exactly when some entry of it has a message, and no stored message is empty |
| FrontValidation.CollectDistinct | Theronostics-DNA/src/utils/validation/validationUtils.ts:295-311 | with distinct keys each entry's key is present exactly when its message is non-empty, with that message |
| FrontValidation.Entries | Theronostics-DNA/src/utils/validation/validationUtils.ts:295-311 | one entry per field, in field order, holding the field's name and its message for the value in the form state |
| FrontValidation.ValidateFieldFirstMessage | Theronostics-DNA/src/utils/validation/validationUtils.ts:3-293 | a field passes exactly when every check passes. Otherwise the message is that of the first check that fires: required, then select, then the rule, length and textarea checks in code order |
| FrontValidation.ValidateForm | Theronostics-DNA/src/utils/validation/validationUtils.ts:295-311 | the loop over the fields builds exactly the form's error map |
| FrontValidation.FormErrorsKeys | Theronostics-DNA/src/utils/validation/validationUtils.ts:295-311 | a field name is a key of the errors exactly when some field of that name has a message, and no stored message is empty |
| FrontValidation.FormErrorsOfDistinct | Theronostics-DNA/src/utils/validation/validationUtils.ts:295-311 | with distinct names each field's entry is its own message, present exactly when that message is non-empty |
| FrontValidation.EmptyFormReportsRequired | Theronostics-DNA/src/utils/validation/validationUtils.ts:9-11 | on an empty form every required field reports its required message |

## Left out

- Database failures other than a missing row are not modelled: a query, insert, save or commit that fails for another reason is an I/O outcome of the database server. The exception is the count query of the id generators, whose outcome per attempt is a parameter.
- Floating point: prices, GST and discounts are exact reals. The cent rounding with `math.Round` in Theranostics-DNA-Backend/utils/paypal.go:119-134 and in `verifyAmountBreakdown` (Theranostics-DNA-Backend/utils/paypal.go:100-110), the invoice totals of Theranostics-DNA-Backend/controllers/order_controller.go:674-690 and every `%.2f` rendering are therefore not modelled.
- `IsValidPrice` (Theranostics-DNA-Backend/utils/validation.go:196-215) is not modelled, because it is a float parse and a float comparison.
- The browser's `parseFloat` is a parameter of the front-end rules: JavaScript number parsing is not modelled.
- Strings are ASCII text: Go byte lengths, JavaScript UTF-16 lengths and Dafny sequence lengths coincide only for ASCII, and the letter classes are the ASCII ones.
- AES-CBC and base64 are the `Primitives` parameter of the encryption model; their round trips are hypotheses of the lemmas that need them, not proved.
- bcrypt (`HashPassword`, Theranostics-DNA-Backend/utils/password.go:13-16) is not modelled: it is a foreign cryptographic primitive.
- JSON and form decoding, `mapFormToStruct` (Theranostics-DNA-Backend/utils/utils.go:111-137) and the gin request context are not modelled; handlers receive decoded values, with decoding failure as an absent body.
- SQL detail is a parameter: the list handler's `LIKE` search and `ORDER BY` are the `Search` and `Ordering` parameters, and only the row selection, the count and the paging are modelled.
- PostOrders.GetPatientRegisterKitList: the listed records are the stored rows. The mapping of each row to its response record (Theranostics-DNA-Backend/services/manage-post-orders_services.go:198-223) is not modelled, because it only decrypts columns and capitalises the customer name for display.
- E-mail, in-app notifications and the invoice PDF are outcome parameters: their content and the HTML builders are not modelled, only which sends are attempted and whether each succeeded.
- The goroutines that send after a commit are not modelled, because their failures are only logged and never change stored state. This covers the status-update e-mails (Theranostics-DNA-Backend/services/manage-post-orders_services.go:513-650), the report-upload e-mails (Theranostics-DNA-Backend/services/manage-post-orders_services.go:764-801) and the kit notifications (`sendKitNotifications`, `sendKitUpdateNotifications`, `sendKitDeleteNotifications` in Theranostics-DNA-Backend/controllers/manage_inventory_controller.go).
- Races between concurrent requests are not modelled: every handler is one atomic step on the tables.
- Clock and randomness are parameters: the current date and time, the random draws of the id generators and the password generator's random bytes.
- The PayPal HTTP calls (`GetPayPalAccessToken`, the order-creation request and the capture request) are not modelled; their answers are parameters. The capture rule is modelled on the status code and the parsed status.
- Writing the uploaded report file is not modelled; whether creating and copying the file succeeded are parameters.
- `FindUserByEmail` (Theranostics-DNA-Backend/utils/common.go:16-24) is a single ORM lookup and is not modelled.
- `GetKitsListHandler` (Theranostics-DNA-Backend/controllers/manage_inventory_controller.go:281-481) is not modelled, because it is SQL filtering and paging of the kits table.
- `CreatePermissionMiddleware` (Theranostics-DNA-Backend/middlewares/permission_middleware.go:220-241) is not modelled: it only reads the role from the request context and calls the permission check.
- Route patterns are matched as literal text with their `:id` segments; no other regular-expression metacharacter is interpreted.
- `validateOrderQuantity` (Theranostics-DNA-Backend/controllers/order_controller.go:145-173) is not modelled, because its stock comparison is commented out and it never rejects an order.
- The gorm timestamps are the `now` parameter.
- PayPal.AmountBreakdown: states the breakdown over exact reals, without the rounding to cents the code applies.
- Tables.RowKey: the database's own reading of a key text is not modelled; the model reads it as decimal text and lets any other text name no row. Two cases differ from the code. First, `tx.First(&payment, paymentID)` (Theranostics-DNA-Backend/controllers/order_controller.go:528 and 588) hands a non-numeric string to gorm as a raw SQL condition, so text such as `1=1` loads the first payment where the model reports the payment missing. Second, the `id = ?` lookups (Theranostics-DNA-Backend/services/manage-post-orders_services.go:681, Theranostics-DNA-Backend/controllers/manage_orders_controller.go:465 and 693) let PostgreSQL cast the text, which accepts white space around the digits, so `" 5"` names row 5 there; for the kit assignment the code then fails at the unsigned parse with an invalid order id rather than an order not found.
- Orders.PostPaymentProcessing and Orders.HandlePaymentSuccess: both draw the invoice id against the invoice ids, as `GenerateUniqueInvoiceID` (Theranostics-DNA-Backend/utils/common.go:67-94) does. Theranostics-DNA-Backend/controllers/order_controller.go:598 calls `GenerateUniqueOrderID`, which checks against the order numbers instead. That draw is modelled separately as Orders.InvoiceIdAsWritten, and Orders.InvoiceIdAsWrittenCanRepeat shows where it repeats an invoice id (see Findings).
- Encryption.Decrypt: a ciphertext that is not a whole number of AES blocks yields the error `NotFullBlocks`. In Theranostics-DNA-Backend/utils/encryption.go:126 and 156, `CryptBlocks` panics on such input instead of returning an error; the panic, and gin's recovery from it, are not modelled.
- Inventory.Truncate: Go's `int(v)` on a float64 is truncation toward zero only within the 64-bit range; the result for a value beyond it is implementation-defined and is not modelled.

## Behaviour kept as the code has it

These behaviours of the code are modelled as they are, although a reader might expect otherwise:

- A reason is required only for the move from Not-Received to Reject. A kit that is Received can be rejected with an empty reason.
- Kit registration sends its three e-mails inside the insert's transaction. A failed send rolls the registration back; it is not best-effort after the commit.
- The list filter on kit status compares exactly (Send, not send), while the status update lower-cases.
- A lab created for a send is committed by the lab stage. It stays in the labs table when the following status update fails.
- The report upload commits the new file name before it decrypts the patient's details. A decryption failure there is reported as an error although the name is already saved.
- The front end's select message can never be shown, because its required check fires first on the same input.
- The front end's name-without-space rule looks for the plain space only, so a leading tab passes.

## Findings

| source | as written | input that shows it | evidently intended | confidence | as-written member | corrected member |
|---|---|---|---|---|---|---|
| Theranostics-DNA-Backend/controllers/order_controller.go:598 | the invoice id is drawn with GenerateUniqueOrderID and checked against the order numbers, while Theranostics-DNA-Backend/models/invoice.go:20 declares invoice_id unique | an earlier invoice id equal to the first draw's candidate that no order holds: the candidate passes the check and the invoice insert then violates the unique column | GenerateUniqueInvoiceID (Theranostics-DNA-Backend/utils/common.go:67-94), which checks the candidate against the invoice ids | not executed | Orders.InvoiceIdAsWrittenCanRepeat | Orders.PostPaymentProcessing |
