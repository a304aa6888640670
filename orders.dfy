/**
 * Order creation and the payment callback: request validation, the customer/clinic binding rule,
 * pricing, the Pending order and payment rows, the status update a callback makes, and the
 * post-payment invoice. Each handler works on copies of the tables inside its transaction and writes
 * them back only at commit, so every failure leaves the database as it was.
 */
module Orders {
  import opened Wrappers
  import opened Chars
  import Validation
  import Common
  import Discount
  import PayPal
  import opened Tables

  /** Status values written by the order and payment code. */
  const Pending := "Pending"
  const PaymentStatusCompleted := "Completed"
  const PaymentStatusFailed := "Failed"
  const PaymentStatusCancelled := "Cancelled"
  const OrderStatusFailed := "Failed"
  const OrderStatusCancelled := "Cancelled"

  const MaxDescriptionLength := 1000
  const MaxClinicIdLength := 100
  const MinClinicQuantity := 25

  // ---------------------------------------------------------------- the request

  datatype OrderRequest = OrderRequest(
    orderType: string, firstName: string, lastName: string, email: string, phoneNumber: string,
    country: string, streetAddress: string, townCity: string, region: string, postcode: string,
    shippingCountry: string, shippingAddress: string, shippingTownCity: string, shippingRegion: string,
    shippingPostcode: string, productName: string, productDescription: string, productImage: string,
    productPrice: real, productGstPrice: real, quantity: int, clinicId: string)

  /** `OrderCreateHandler` trims every text field; the type is lower-cased first. */
  function TrimRequest(req: OrderRequest): (t: OrderRequest)
    ensures t.orderType == TrimSpace(Lower(req.orderType)) && t.email == TrimSpace(req.email)
    ensures t.clinicId == TrimSpace(req.clinicId) && t.quantity == req.quantity
    ensures t.productPrice == req.productPrice && t.productGstPrice == req.productGstPrice
  {
    req.(orderType := TrimSpace(Lower(req.orderType)), firstName := TrimSpace(req.firstName),
         lastName := TrimSpace(req.lastName), email := TrimSpace(req.email),
         phoneNumber := TrimSpace(req.phoneNumber), country := TrimSpace(req.country),
         streetAddress := TrimSpace(req.streetAddress), townCity := TrimSpace(req.townCity),
         region := TrimSpace(req.region), postcode := TrimSpace(req.postcode),
         shippingCountry := TrimSpace(req.shippingCountry), shippingAddress := TrimSpace(req.shippingAddress),
         shippingTownCity := TrimSpace(req.shippingTownCity), shippingRegion := TrimSpace(req.shippingRegion),
         shippingPostcode := TrimSpace(req.shippingPostcode), productName := TrimSpace(req.productName),
         productDescription := TrimSpace(req.productDescription), productImage := TrimSpace(req.productImage),
         clinicId := TrimSpace(req.clinicId))
  }

  datatype OrderError =
    | InvalidFirstName | InvalidLastName | InvalidEmail | InvalidPhoneNumber | InvalidCountry
    | InvalidStreetAddress | InvalidTownCity | InvalidRegion | InvalidPostcode
    | InvalidShippingCountry | InvalidShippingAddress | InvalidShippingTownCity | InvalidShippingRegion
    | InvalidShippingPostcode | InvalidProductName | DescriptionTooLong | InvalidProductImage
    | InvalidProductPrice | InvalidProductGstPrice | InvalidQuantity | InvalidCustomerType
    | ClinicIdRequired | ClinicIdTooLong | CustomerNotMoreThanOne | ClinicInvalidQuantity

  /** The customer detail rules of `validateOrderRequest`: names, email and phone number. */
  predicate CustomerValid(req: OrderRequest) {
    Validation.IsValidFirstName(req.firstName) &&
    (req.lastName == [] || Validation.IsValidLastName(req.lastName)) &&
    Validation.IsValidEmail(req.email) &&
    Validation.IsValidContactNumber(req.phoneNumber)
  }

  /** The billing address rules of `validateOrderRequest`. */
  predicate BillingValid(req: OrderRequest) {
    Validation.IsValidCountry(req.country) &&
    Validation.IsValidStreetAddress(req.streetAddress) &&
    Validation.IsValidTownCity(req.townCity) &&
    Validation.IsValidRegion(req.region) &&
    Validation.IsValidPostcode(req.postcode)
  }

  /** The shipping address rules of `validateOrderRequest`. */
  predicate ShippingValid(req: OrderRequest) {
    Validation.IsValidCountry(req.shippingCountry) &&
    Validation.IsValidStreetAddress(req.shippingAddress) &&
    Validation.IsValidTownCity(req.shippingTownCity) &&
    Validation.IsValidRegion(req.shippingRegion) &&
    Validation.IsValidPostcode(req.shippingPostcode)
  }

  /** The product rules: the name, the optional description's length and the optional image. */
  predicate ProductValid(req: OrderRequest) {
    Validation.IsValidProductName(req.productName) &&
    |req.productDescription| <= MaxDescriptionLength &&
    (req.productImage == [] || Validation.IsValidBase64Image(req.productImage) || Validation.ImageURLRule(req.productImage))
  }

  /** The per-field rules, in the order `validateOrderRequest` applies them. */
  predicate FieldsValid(req: OrderRequest) {
    CustomerValid(req) && BillingValid(req) && ShippingValid(req) && ProductValid(req)
  }

  /** The price, quantity and customer-type rules that follow the field rules. */
  predicate ShapeValid(req: OrderRequest) {
    req.productPrice > 0.0 && req.productGstPrice > 0.0 && req.quantity > 0 &&
    (req.orderType == "clinic" || req.orderType == "customer") &&
    (req.orderType == "clinic" ==> req.clinicId != [] && |req.clinicId| <= MaxClinicIdLength) &&
    (req.orderType == "customer" ==> req.quantity <= 1) &&
    (req.orderType == "clinic" ==> req.quantity >= MinClinicQuantity)
  }

  /** The errors of the price, quantity and customer-type rules. */
  predicate ShapeError(e: OrderError) {
    e in {InvalidProductPrice, InvalidProductGstPrice, InvalidQuantity, InvalidCustomerType,
          ClinicIdRequired, ClinicIdTooLong, CustomerNotMoreThanOne, ClinicInvalidQuantity}
  }

  // ---------------------------------------------------------------- the check list

  /**
   * The checks of `validateOrderRequest` as an ordered list: each says whether the request passes it and
   * which error it reports otherwise.
   */
  datatype Checks = Done | Check(passes: bool, error: OrderError, rest: Checks)

  /** The customer detail checks, in the order `validateOrderRequest` makes them. */
  function CustomerChecks(req: OrderRequest): Checks {
    Check(Validation.IsValidFirstName(req.firstName), InvalidFirstName,
    Check(req.lastName == [] || Validation.IsValidLastName(req.lastName), InvalidLastName,
    Check(Validation.IsValidEmail(req.email), InvalidEmail,
    Check(Validation.IsValidContactNumber(req.phoneNumber), InvalidPhoneNumber,
    Done))))
  }

  /** The billing address checks, in the order `validateOrderRequest` makes them. */
  function BillingChecks(req: OrderRequest): Checks {
    Check(Validation.IsValidCountry(req.country), InvalidCountry,
    Check(Validation.IsValidStreetAddress(req.streetAddress), InvalidStreetAddress,
    Check(Validation.IsValidTownCity(req.townCity), InvalidTownCity,
    Check(Validation.IsValidRegion(req.region), InvalidRegion,
    Check(Validation.IsValidPostcode(req.postcode), InvalidPostcode,
    Done)))))
  }

  /** The shipping address checks, in the order `validateOrderRequest` makes them. */
  function ShippingChecks(req: OrderRequest): Checks {
    Check(Validation.IsValidCountry(req.shippingCountry), InvalidShippingCountry,
    Check(Validation.IsValidStreetAddress(req.shippingAddress), InvalidShippingAddress,
    Check(Validation.IsValidTownCity(req.shippingTownCity), InvalidShippingTownCity,
    Check(Validation.IsValidRegion(req.shippingRegion), InvalidShippingRegion,
    Check(Validation.IsValidPostcode(req.shippingPostcode), InvalidShippingPostcode,
    Done)))))
  }

  /** The product checks: the name, then the description length and the image, each only when given. */
  function ProductChecks(req: OrderRequest): Checks {
    Check(Validation.IsValidProductName(req.productName), InvalidProductName,
    Check(req.productDescription == [] || |req.productDescription| <= MaxDescriptionLength, DescriptionTooLong,
    Check(req.productImage == [] || Validation.IsValidBase64Image(req.productImage) ||
          Validation.ImageURLRule(req.productImage), InvalidProductImage,
    Done)))
  }

  /** The price, quantity and customer-type checks; the clinic id checks apply to clinic orders only. */
  function ShapeChecks(req: OrderRequest): Checks {
    var clinic := req.orderType == "clinic";
    var customer := req.orderType == "customer";
    Check(req.productPrice > 0.0, InvalidProductPrice,
    Check(req.productGstPrice > 0.0, InvalidProductGstPrice,
    Check(req.quantity > 0, InvalidQuantity,
    Check(clinic || customer, InvalidCustomerType,
    Check(!clinic || req.clinicId != [], ClinicIdRequired,
    Check(!clinic || |req.clinicId| <= MaxClinicIdLength, ClinicIdTooLong,
    Check(!customer || req.quantity <= 1, CustomerNotMoreThanOne,
    Check(!clinic || req.quantity >= MinClinicQuantity, ClinicInvalidQuantity,
    Done))))))))
  }

  /** The checks of `a` followed by those of `b`. */
  function Then(a: Checks, b: Checks): Checks {
    match a
    case Done => b
    case Check(p, e, rest) => Check(p, e, Then(rest, b))
  }

  /** Every check of `validateOrderRequest`, in its order. */
  function OrderChecks(req: OrderRequest): Checks {
    Then(CustomerChecks(req), Then(BillingChecks(req), Then(ShippingChecks(req), Then(ProductChecks(req), ShapeChecks(req)))))
  }

  /** Every check in the list passes. */
  predicate AllPass(c: Checks) {
    match c
    case Done => true
    case Check(p, _, rest) => p && AllPass(rest)
  }

  /** `error` is reported by a check that fails after every earlier check passed. */
  predicate FailsFirstWith(c: Checks, error: OrderError) {
    match c
    case Done => false
    case Check(p, e, rest) => if p then FailsFirstWith(rest, error) else e == error
  }

  /** The error of the first check that fails; `None` when every check passes. */
  function FirstFailing(c: Checks): (r: Option<OrderError>)
    ensures r.None? <==> AllPass(c)
    ensures r.Some? ==> FailsFirstWith(c, r.value)
  {
    match c
    case Done => None
    case Check(p, e, rest) => if !p then Some(e) else FirstFailing(rest)
  }

  /** A check that passes does not decide the outcome: the rest of the list does. */
  lemma Advance(c: Checks) returns (next: Checks)
    requires c.Check? && c.passes
    ensures next == c.rest && FirstFailing(c) == FirstFailing(next)
  {
    next := c.rest;
  }

  /** Checking two lists in a row: the first decides when one of its checks fails, the second otherwise. */
  lemma {:induction false} FirstFailingThen(a: Checks, b: Checks)
    ensures FirstFailing(Then(a, b)) == if FirstFailing(a).Some? then FirstFailing(a) else FirstFailing(b)
  {
    match a
    case Done =>
    case Check(p, e, rest) => FirstFailingThen(rest, b);
  }

  // ---------------------------------------------------------------- validateOrderRequest

  /** The customer detail section of `validateOrderRequest`. */
  method CheckCustomer(req: OrderRequest) returns (r: Option<OrderError>)
    ensures r == FirstFailing(CustomerChecks(req))
    ensures r.None? <==> CustomerValid(req)
    ensures !Validation.IsValidFirstName(req.firstName) ==> r == Some(InvalidFirstName)
    ensures r.Some? ==> !ShapeError(r.value)
  {
    // `rest` holds the checks still to make; each `Advance` drops one that passed.
    ghost var rest := CustomerChecks(req);
    if !Validation.IsValidFirstName(req.firstName) { return Some(InvalidFirstName); }
    rest := Advance(rest);
    if req.lastName != [] && !Validation.IsValidLastName(req.lastName) { return Some(InvalidLastName); }
    rest := Advance(rest);
    if !Validation.IsValidEmail(req.email) { return Some(InvalidEmail); }
    rest := Advance(rest);
    if !Validation.IsValidContactNumber(req.phoneNumber) { return Some(InvalidPhoneNumber); }
    rest := Advance(rest);
    return None;
  }

  /** The billing address section of `validateOrderRequest`. */
  method CheckBilling(req: OrderRequest) returns (r: Option<OrderError>)
    ensures r == FirstFailing(BillingChecks(req))
    ensures r.None? <==> BillingValid(req)
    ensures r.Some? ==> !ShapeError(r.value)
  {
    ghost var rest := BillingChecks(req);
    if !Validation.IsValidCountry(req.country) { return Some(InvalidCountry); }
    rest := Advance(rest);
    if !Validation.IsValidStreetAddress(req.streetAddress) { return Some(InvalidStreetAddress); }
    rest := Advance(rest);
    if !Validation.IsValidTownCity(req.townCity) { return Some(InvalidTownCity); }
    rest := Advance(rest);
    if !Validation.IsValidRegion(req.region) { return Some(InvalidRegion); }
    rest := Advance(rest);
    if !Validation.IsValidPostcode(req.postcode) { return Some(InvalidPostcode); }
    rest := Advance(rest);
    return None;
  }

  /** The shipping section of `validateOrderRequest`. */
  method CheckShipping(req: OrderRequest) returns (r: Option<OrderError>)
    ensures r == FirstFailing(ShippingChecks(req))
    ensures r.None? <==> ShippingValid(req)
    ensures r.Some? ==> !ShapeError(r.value)
  {
    ghost var rest := ShippingChecks(req);
    if !Validation.IsValidCountry(req.shippingCountry) { return Some(InvalidShippingCountry); }
    rest := Advance(rest);
    if !Validation.IsValidStreetAddress(req.shippingAddress) { return Some(InvalidShippingAddress); }
    rest := Advance(rest);
    if !Validation.IsValidTownCity(req.shippingTownCity) { return Some(InvalidShippingTownCity); }
    rest := Advance(rest);
    if !Validation.IsValidRegion(req.shippingRegion) { return Some(InvalidShippingRegion); }
    rest := Advance(rest);
    if !Validation.IsValidPostcode(req.shippingPostcode) { return Some(InvalidShippingPostcode); }
    rest := Advance(rest);
    return None;
  }

  /** The product section of `validateOrderRequest`; the image URL test runs only when the base64 test fails. */
  method CheckProduct(req: OrderRequest) returns (r: Option<OrderError>)
    ensures r == FirstFailing(ProductChecks(req))
    ensures r.None? <==> ProductValid(req)
    ensures r.Some? ==> !ShapeError(r.value)
  {
    ghost var rest := ProductChecks(req);
    if !Validation.IsValidProductName(req.productName) { return Some(InvalidProductName); }
    rest := Advance(rest);
    if req.productDescription != [] && |req.productDescription| > MaxDescriptionLength { return Some(DescriptionTooLong); }
    rest := Advance(rest);
    if req.productImage != [] && !Validation.IsValidBase64Image(req.productImage) {
      var isUrl := Validation.IsValidImageURL(req.productImage);
      if !isUrl { return Some(InvalidProductImage); }
    }
    rest := Advance(rest);
    return None;
  }

  /** The price, quantity and customer-type section of `validateOrderRequest`. */
  method CheckShape(req: OrderRequest) returns (r: Option<OrderError>)
    ensures r == FirstFailing(ShapeChecks(req))
    ensures r.None? <==> ShapeValid(req)
    ensures r.Some? ==> ShapeError(r.value)
    ensures (req.productPrice > 0.0 && req.productGstPrice > 0.0 && req.quantity > 0 &&
             req.orderType != "clinic" && req.orderType != "customer") ==> r == Some(InvalidCustomerType)
  {
    ghost var rest := ShapeChecks(req);
    if req.productPrice <= 0.0 { return Some(InvalidProductPrice); }
    rest := Advance(rest);
    if req.productGstPrice <= 0.0 { return Some(InvalidProductGstPrice); }
    rest := Advance(rest);
    if req.quantity <= 0 { return Some(InvalidQuantity); }
    rest := Advance(rest);
    if req.orderType != "clinic" && req.orderType != "customer" { return Some(InvalidCustomerType); }
    rest := Advance(rest);
    if req.orderType == "clinic" {
      if req.clinicId == [] { return Some(ClinicIdRequired); }
      rest := Advance(rest);
      if |req.clinicId| > MaxClinicIdLength { return Some(ClinicIdTooLong); }
      rest := Advance(rest);
    } else {
      rest := Advance(rest);
      rest := Advance(rest);
    }
    if req.orderType == "customer" && req.quantity > 1 { return Some(CustomerNotMoreThanOne); }
    rest := Advance(rest);
    if req.orderType == "clinic" && req.quantity < MinClinicQuantity { return Some(ClinicInvalidQuantity); }
    rest := Advance(rest);
    return None;
  }

  /** `validateOrderRequest`: the checks run in order and the first one that fails decides the error. */
  method ValidateOrderRequest(req: OrderRequest) returns (r: Option<OrderError>)
    ensures r == FirstFailing(OrderChecks(req))
    ensures r.None? <==> FieldsValid(req) && ShapeValid(req)
    ensures !Validation.IsValidFirstName(req.firstName) ==> r == Some(InvalidFirstName)
    ensures r.Some? && ShapeError(r.value) ==> FieldsValid(req)
    ensures (FieldsValid(req) && req.productPrice > 0.0 && req.productGstPrice > 0.0 && req.quantity > 0 &&
             req.orderType != "clinic" && req.orderType != "customer") ==> r == Some(InvalidCustomerType)
  {
    FirstFailingThen(ProductChecks(req), ShapeChecks(req));
    FirstFailingThen(ShippingChecks(req), Then(ProductChecks(req), ShapeChecks(req)));
    FirstFailingThen(BillingChecks(req), Then(ShippingChecks(req), Then(ProductChecks(req), ShapeChecks(req))));
    FirstFailingThen(CustomerChecks(req), Then(BillingChecks(req), Then(ShippingChecks(req), Then(ProductChecks(req), ShapeChecks(req)))));
    r := CheckCustomer(req);
    if r.Some? {
      return;
    }
    r := CheckBilling(req);
    if r.Some? {
      return;
    }
    r := CheckShipping(req);
    if r.Some? {
      return;
    }
    r := CheckProduct(req);
    if r.Some? {
      return;
    }
    r := CheckShape(req);
  }

  /** An accepted order is a single-unit customer order or a clinic order of at least 25 with a clinic id. */
  lemma AcceptedOrderShape(req: OrderRequest)
    requires ShapeValid(req)
    ensures (req.orderType == "customer" && req.quantity == 1) ||
            (req.orderType == "clinic" && req.quantity >= 25 && 1 <= |req.clinicId| <= 100)
  {
  }

  // ---------------------------------------------------------------- processCustomer

  datatype CustomerError = ClinicIdNeeded | DifferentClinic | EmailNotForClinic

  /** Use the stored customer with this id, or insert this new record. */
  datatype CustomerChoice = Existing(id: nat) | Create(customer: Customer)

  /** Primary key of the first customer row with this email (`First` orders by primary key). */
  function FirstWithEmail(customers: seq<Customer>, email: string): (r: Option<nat>)
    ensures r.None? <==> forall k :: 0 <= k < |customers| ==> customers[k].email != email
    ensures r.Some? ==> 1 <= r.value <= |customers| && customers[r.value - 1].email == email &&
                        forall k :: 0 <= k < r.value - 1 ==> customers[k].email != email
  {
    if customers == [] then None
    else if customers[0].email == email then Some(1)
    else match FirstWithEmail(customers[1..], email)
      case None => None
      case Some(i) => Some(i + 1)
  }

  /** The customer row `processCustomer` inserts for an unknown email. */
  function NewCustomer(req: OrderRequest): Customer {
    Customer(req.orderType, req.firstName, req.lastName, req.email, req.phoneNumber, req.country,
             req.streetAddress, req.townCity, req.region, req.postcode, req.shippingCountry,
             req.shippingAddress, req.shippingTownCity, req.shippingRegion, req.shippingPostcode,
             req.clinicId, false)
  }

  /**
   * `processCustomer`: an unknown email creates a customer; a known clinic-bound email needs the same
   * non-empty clinic id; a known email without a clinic needs an empty clinic id.
   */
  function ResolveCustomer(customers: seq<Customer>, req: OrderRequest): (r: Result<CustomerChoice, CustomerError>)
    ensures FirstWithEmail(customers, req.email).None? ==> r == Ok(Create(NewCustomer(req)))
    ensures FirstWithEmail(customers, req.email).Some? ==>
              var id := FirstWithEmail(customers, req.email).value;
              var stored := customers[id - 1];
              (r.Ok? ==> r.value == Existing(id)) &&
              (stored.clinicId != [] ==> (r.Ok? <==> req.clinicId == stored.clinicId)) &&
              (stored.clinicId == [] ==> (r.Ok? <==> req.clinicId == []))
  {
    match FirstWithEmail(customers, req.email)
    case None => Ok(Create(NewCustomer(req)))
    case Some(id) =>
      var stored := customers[id - 1];
      if stored.clinicId != [] then
        if req.clinicId == [] then Err(ClinicIdNeeded)
        else if stored.clinicId != req.clinicId then Err(DifferentClinic)
        else Ok(Existing(id))
      else if req.clinicId != [] then Err(EmailNotForClinic)
      else Ok(Existing(id))
  }

  /** The customer table after the choice, and the id the order is bound to. */
  function ApplyCustomer(customers: seq<Customer>, choice: CustomerChoice): (r: (seq<Customer>, nat))
    requires choice.Existing? ==> 1 <= choice.id <= |customers|
    ensures 1 <= r.1 <= |r.0| && |customers| <= |r.0| && r.0[..|customers|] == customers
  {
    match choice
    case Existing(id) => (customers, id)
    case Create(c) => (customers + [c], |customers| + 1)
  }

  /** An order never rewrites a stored customer: the table only grows, and only with an unknown email. */
  lemma CustomerRecordsKept(customers: seq<Customer>, req: OrderRequest)
    requires ResolveCustomer(customers, req).Ok?
    ensures var choice := ResolveCustomer(customers, req).value;
            (choice.Existing? ==> 1 <= choice.id <= |customers| && ApplyCustomer(customers, choice).0 == customers) &&
            (choice.Create? ==> req.email !in (set k | 0 <= k < |customers| :: customers[k].email))
  {
  }

  // ---------------------------------------------------------------- pricing

  datatype Pricing = Pricing(basePrice: real, discountPct: real, totalPrice: real)

  /** `processOrderDetails`: the base price excludes GST; the discount applies to the base only. */
  function PriceOrder(price: real, gst: real, pct: real, quantity: int): (p: Pricing)
    ensures p.basePrice + gst == price && p.discountPct == pct
    ensures p.totalPrice == (p.basePrice * (1.0 - pct / 100.0) + gst) * quantity as real
  {
    var base := price - gst;
    var productDiscount := (base * pct) / 100.0;
    Pricing(base, pct, ((base - productDiscount) + gst) * quantity as real)
  }

  /** The order row `processOrderDetails` inserts. */
  function NewOrder(customerId: nat, req: OrderRequest, p: Pricing, orderNumber: string, now: int): Order {
    Order(customerId, req.productName, req.productDescription, req.productImage, p.basePrice,
          req.productGstPrice, p.discountPct, req.quantity, orderNumber, p.totalPrice, Pending, Pending,
          [StatusEntry(Pending, now)], "", false)
  }

  /** The payment row `initializePayPalPayment` inserts, with the transaction id saved after PayPal answers. */
  function NewPayment(orderId: nat, o: Order, transactionId: string): Payment {
    Payment(orderId, Pending, transactionId, o.totalPrice, o.productGstPrice, o.productDiscount, false)
  }

  /** A new order and its payment are Pending, with one history entry, and the payment copies the order's amounts. */
  lemma NewOrderIsPending(customerId: nat, req: OrderRequest, p: Pricing, orderNumber: string, now: int, orderId: nat, tid: string)
    ensures var o := NewOrder(customerId, req, p, orderNumber, now);
            var pay := NewPayment(orderId, o, tid);
            o.paymentStatus == "Pending" && o.orderStatus == "Pending" && |o.statusHistory| == 1 &&
            o.statusHistory[0].status == "Pending" && pay.paymentStatus == "Pending" &&
            pay.amount == o.totalPrice && pay.productGstPrice == o.productGstPrice &&
            pay.productDiscount == o.productDiscount && pay.orderId == orderId
  {
  }

  /** The invoice total, without the cent rounding: item subtotal plus GST minus the discount on the subtotal. */
  function InvoiceTotal(o: Order): (total: real)
    ensures total == o.productPrice * o.quantity as real + o.productGstPrice * o.quantity as real
                     - o.productPrice * o.quantity as real * (o.productDiscount / 100.0)
  {
    var subtotal := o.productPrice * o.quantity as real;
    var discountAmount := subtotal * (o.productDiscount / 100.0);
    var totalGst := o.productGstPrice * o.quantity as real;
    subtotal + totalGst - discountAmount
  }

  lemma {:induction false} DistributeQuantity(base: real, pct: real, gst: real, q: real)
    ensures ((base - (base * pct) / 100.0) + gst) * q == base * q + gst * q - base * q * (pct / 100.0)
  {
    calc {
      ((base - (base * pct) / 100.0) + gst) * q;
      base * q - ((base * pct) / 100.0) * q + gst * q;
      { assert ((base * pct) / 100.0) * q == base * q * (pct / 100.0); }
      base * q + gst * q - base * q * (pct / 100.0);
    }
  }

  /** In exact arithmetic the invoice total and the PayPal breakdown total both equal the stored order total. */
  lemma TotalsAgree(customerId: nat, req: OrderRequest, pct: real, orderNumber: string, now: int)
    ensures var o := NewOrder(customerId, req, PriceOrder(req.productPrice, req.productGstPrice, pct, req.quantity), orderNumber, now);
            InvoiceTotal(o) == o.totalPrice &&
            PayPal.AmountBreakdown(o.productPrice, o.productGstPrice, o.quantity, o.productDiscount).total == o.totalPrice
  {
    var base := req.productPrice - req.productGstPrice;
    DistributeQuantity(base, pct, req.productGstPrice, req.quantity as real);
  }

  // ---------------------------------------------------------------- order creation

  /** What PayPal returned for a created checkout order: its id and its links as (rel, href). */
  datatype PayPalOrder = PayPalOrder(id: string, links: seq<(string, string)>)

  /** The href of the first link whose rel is "approve", or "". */
  function ApprovalURL(links: seq<(string, string)>): (url: string)
    ensures url != [] ==> exists k :: 0 <= k < |links| && links[k].0 == "approve" && links[k].1 == url
    ensures (forall k :: 0 <= k < |links| ==> links[k].0 != "approve") ==> url == []
    ensures (exists k :: 0 <= k < |links| && links[k].0 == "approve") ==>
              exists k :: 0 <= k < |links| && links[k].0 == "approve" && links[k].1 == url &&
                          forall j :: 0 <= j < k ==> links[j].0 != "approve"
  {
    if links == [] then []
    else if links[0].0 == "approve" then links[0].1
    else ApprovalURL(links[1..])
  }

  function OrderNumbers(orders: seq<Order>): (s: set<string>)
    ensures forall k :: 0 <= k < |orders| ==> orders[k].orderNumber in s
  {
    set k | 0 <= k < |orders| :: orders[k].orderNumber
  }

  predicate OrderNumbersUnique(orders: seq<Order>) {
    forall i, j :: 0 <= i < j < |orders| ==> orders[i].orderNumber != orders[j].orderNumber
  }

  datatype CreateError =
    | InvalidRequest(reason: OrderError)
    | CustomerRejected(why: CustomerError)
    | OrderNumberFailed(cause: Common.IdError)
    | PaymentInitFailed

  /** The customer, order and payment tables after a successful order creation. */
  datatype Placed = Placed(customers: seq<Customer>, orders: seq<Order>, payments: seq<Payment>)

  /**
   * The rows one order creation adds to the tables for a request that passed validation: `None` when the
   * customer binding, the order number or the PayPal checkout order fails.
   */
  function PlaceOrder(customers: seq<Customer>, orders: seq<Order>, payments: seq<Payment>, tiers: seq<Discount.Tier>,
                      req: OrderRequest, today: Common.Date, now: int, draws: seq<nat>, queryFails: seq<bool>,
                      paypal: Option<PayPalOrder>): (r: Option<Placed>)
    requires Common.ValidDate(today) && |draws| >= Common.MaxAttempts && |queryFails| >= Common.MaxAttempts
    ensures r.Some? ==> paypal.Some? && ResolveCustomer(customers, req).Ok?
  {
    match ResolveCustomer(customers, req)
      case Err(_) => None
      case Ok(choice) =>
        var (customers', customerId) := ApplyCustomer(customers, choice);
        var pricing := PriceOrder(req.productPrice, req.productGstPrice,
                                  Discount.GetProductDiscount(tiers, req.quantity), req.quantity);
        match Common.FirstFree(today, draws, queryFails, OrderNumbers(orders), 0)
        case Err(_) => None
        case Ok(number) =>
          if paypal.None? then None
          else
            var order := NewOrder(customerId, req, pricing, number, now);
            Some(Placed(customers', orders + [order], payments + [NewPayment(|orders| + 1, order, paypal.value.id)]))
  }

  /**
   * A successful creation appends one Pending order with a number no earlier order holds, bound to a
   * customer with the request's email, and one Pending payment for it carrying the order total and the
   * PayPal order id; stored rows are not changed and at most one customer is added.
   */
  lemma PlaceOrderAppends(customers: seq<Customer>, orders: seq<Order>, payments: seq<Payment>,
                          tiers: seq<Discount.Tier>, req: OrderRequest, today: Common.Date, now: int,
                          draws: seq<nat>, queryFails: seq<bool>, paypal: Option<PayPalOrder>)
    requires Common.ValidDate(today) && |draws| >= Common.MaxAttempts && |queryFails| >= Common.MaxAttempts
    requires PlaceOrder(customers, orders, payments, tiers, req, today, now, draws, queryFails, paypal).Some?
    ensures var r := PlaceOrder(customers, orders, payments, tiers, req, today, now, draws, queryFails, paypal).value;
            |r.orders| == |orders| + 1 && r.orders[..|orders|] == orders &&
            |r.payments| == |payments| + 1 && r.payments[..|payments|] == payments &&
            |customers| <= |r.customers| <= |customers| + 1 && r.customers[..|customers|] == customers
    ensures var r := PlaceOrder(customers, orders, payments, tiers, req, today, now, draws, queryFails, paypal).value;
            var o := r.orders[|orders|];
            var p := r.payments[|payments|];
            o.paymentStatus == Pending && o.orderStatus == Pending && o.orderNumber !in OrderNumbers(orders) &&
            1 <= o.customerId <= |r.customers| && r.customers[o.customerId - 1].email == req.email &&
            p.orderId == |orders| + 1 && p.paymentStatus == Pending && p.amount == o.totalPrice &&
            p.transactionId == paypal.value.id
  {
  }

  /** Order creation keeps order numbers unique. */
  lemma PlaceOrderKeepsNumbersUnique(customers: seq<Customer>, orders: seq<Order>, payments: seq<Payment>,
                                     tiers: seq<Discount.Tier>, req: OrderRequest, today: Common.Date, now: int,
                                     draws: seq<nat>, queryFails: seq<bool>, paypal: Option<PayPalOrder>)
    requires Common.ValidDate(today) && |draws| >= Common.MaxAttempts && |queryFails| >= Common.MaxAttempts
    requires OrderNumbersUnique(orders)
    requires PlaceOrder(customers, orders, payments, tiers, req, today, now, draws, queryFails, paypal).Some?
    ensures OrderNumbersUnique(PlaceOrder(customers, orders, payments, tiers, req, today, now, draws, queryFails, paypal).value.orders)
  {
    PlaceOrderAppends(customers, orders, payments, tiers, req, today, now, draws, queryFails, paypal);
    var orders' := PlaceOrder(customers, orders, payments, tiers, req, today, now, draws, queryFails, paypal).value.orders;
    forall i, j | 0 <= i < j < |orders'| ensures orders'[i].orderNumber != orders'[j].orderNumber {
      assert orders'[i] == orders[i];
      if j < |orders| { assert orders'[j] == orders[j]; }
    }
  }

  /** The steps of `OrderCreateHandler` after validation, committed only when all of them succeed. */
  method PlaceValidOrder(db: Db, req: OrderRequest, today: Common.Date, now: int, draws: seq<nat>, queryFails: seq<bool>,
                         paypal: Option<PayPalOrder>)
    returns (r: Result<string, CreateError>)
    requires Common.ValidDate(today) && |draws| >= Common.MaxAttempts && |queryFails| >= Common.MaxAttempts
    modifies db`customers, db`orders, db`payments
    ensures var placed := PlaceOrder(old(db.customers), old(db.orders), old(db.payments), old(db.tiers), req,
                                     today, now, draws, queryFails, paypal);
            (r.Ok? <==> placed.Some?) &&
            (r.Ok? ==> Placed(db.customers, db.orders, db.payments) == placed.value && r.value == ApprovalURL(paypal.value.links)) &&
            (r.Err? ==> db.customers == old(db.customers) && db.orders == old(db.orders) && db.payments == old(db.payments))
  {
    var choice := ResolveCustomer(db.customers, req);
    if choice.Err? {
      return Err(CustomerRejected(choice.error));
    }
    var customers, customerId := ApplyCustomer(db.customers, choice.value).0, ApplyCustomer(db.customers, choice.value).1;
    var pct := Discount.GetProductDiscount(db.tiers, req.quantity);
    var pricing := PriceOrder(req.productPrice, req.productGstPrice, pct, req.quantity);
    var number := Common.GenerateUniqueOrderID(today, draws, queryFails, OrderNumbers(db.orders));
    if number.Err? {
      return Err(OrderNumberFailed(number.error));
    }
    var order := NewOrder(customerId, req, pricing, number.value, now);
    if paypal.None? {
      return Err(PaymentInitFailed);
    }
    var payment := NewPayment(|db.orders| + 1, order, paypal.value.id);
    db.customers, db.orders, db.payments := customers, db.orders + [order], db.payments + [payment];
    return Ok(ApprovalURL(paypal.value.links));
  }

  /**
   * `OrderCreateHandler` after body decoding: trim, validate, bind the customer, price and insert the
   * order, insert the payment, ask PayPal for a checkout order (`paypal` is `None` when the token or the
   * order call fails), save its id and return the approval URL. The stock check is a no-op and is omitted.
   */
  method CreateOrder(db: Db, raw: OrderRequest, today: Common.Date, now: int, draws: seq<nat>, queryFails: seq<bool>,
                     paypal: Option<PayPalOrder>)
    returns (r: Result<string, CreateError>)
    requires Common.ValidDate(today) && |draws| >= Common.MaxAttempts && |queryFails| >= Common.MaxAttempts
    modifies db`customers, db`orders, db`payments
    ensures var placed := PlaceOrder(old(db.customers), old(db.orders), old(db.payments), old(db.tiers), TrimRequest(raw),
                                     today, now, draws, queryFails, paypal);
            (r.Ok? <==> FieldsValid(TrimRequest(raw)) && ShapeValid(TrimRequest(raw)) && placed.Some?) &&
            (r.Ok? ==> Placed(db.customers, db.orders, db.payments) == placed.value && r.value == ApprovalURL(paypal.value.links)) &&
            (r.Err? ==> db.customers == old(db.customers) && db.orders == old(db.orders) && db.payments == old(db.payments))
    ensures !(FieldsValid(TrimRequest(raw)) && ShapeValid(TrimRequest(raw))) ==> r.Err? && r.error.InvalidRequest?
  {
    var req := TrimRequest(raw);
    var invalid := ValidateOrderRequest(req);
    if invalid.Some? {
      assert !(FieldsValid(req) && ShapeValid(req));
      return Err(InvalidRequest(invalid.value));
    }
    assert FieldsValid(req) && ShapeValid(req);
    r := PlaceValidOrder(db, req, today, now, draws, queryFails, paypal);
  }

  // ---------------------------------------------------------------- payment callback

  datatype PaymentError =
    | MissingPaymentInformation
    | PaymentNotFound
    | OrderNotFound
    | VerificationFailed
    | PostPaymentFailed(step: PostPaymentStep)

  datatype PostPaymentStep = RecordMissing | InvoiceIdFailed(cause: Common.IdError) | InvoicePdfFailed | EmailFailed | NotificationFailed

  /**
   * `updatePaymentAndOrderStatus`: the payment and its order take the payment status; the order's status
   * and history change, by exactly one appended entry, only when the target order status is not Pending.
   */
  /** The payment and its order are both present. */
  predicate PaymentAndOrderPresent(payments: seq<Payment>, orders: seq<Order>, paymentId: nat) {
    Find(payments, paymentId).Some? && Find(orders, payments[paymentId - 1].orderId).Some?
  }

  function UpdatePaymentAndOrderStatus(payments: seq<Payment>, orders: seq<Order>, paymentId: nat,
                                       paymentStatus: string, orderStatus: string, now: int)
    : (r: Result<(seq<Payment>, seq<Order>), PaymentError>)
    ensures Find(payments, paymentId).None? ==> r == Err(PaymentNotFound)
    ensures Find(payments, paymentId).Some? && Find(orders, payments[paymentId - 1].orderId).None? ==> r == Err(OrderNotFound)
    ensures r.Ok? <==> PaymentAndOrderPresent(payments, orders, paymentId)
    ensures r.Ok? ==>
      var p := payments[paymentId - 1];
      var o := orders[p.orderId - 1];
      Find(payments, paymentId).Some? && Find(orders, p.orderId).Some? &&
      r.value.0 == Put(payments, paymentId, p.(paymentStatus := paymentStatus)) &&
      r.value.1 == Put(orders, p.orderId,
                       if orderStatus != Pending
                       then o.(paymentStatus := paymentStatus, orderStatus := orderStatus,
                               statusHistory := o.statusHistory + [StatusEntry(orderStatus, now)])
                       else o.(paymentStatus := paymentStatus))
  {
    match Find(payments, paymentId)
    case None => Err(PaymentNotFound)
    case Some(p) =>
      var payments' := Put(payments, paymentId, p.(paymentStatus := paymentStatus));
      match Find(orders, p.orderId)
      case None => Err(OrderNotFound)
      case Some(o) =>
        var history := o.statusHistory + [StatusEntry(orderStatus, now)];
        var o' := if orderStatus != Pending
                  then o.(paymentStatus := paymentStatus, orderStatus := orderStatus, statusHistory := history)
                  else o.(paymentStatus := paymentStatus);
        Ok((payments', Put(orders, p.orderId, o')))
  }

  /** A target of Pending leaves the order's status and history alone; any other target appends exactly one entry. */
  lemma StatusUpdateEffect(payments: seq<Payment>, orders: seq<Order>, paymentId: nat, ps: string, os: string, now: int)
    requires UpdatePaymentAndOrderStatus(payments, orders, paymentId, ps, os, now).Ok?
    ensures var (payments', orders') := UpdatePaymentAndOrderStatus(payments, orders, paymentId, ps, os, now).value;
            var oid := payments[paymentId - 1].orderId;
            payments'[paymentId - 1].paymentStatus == ps && orders'[oid - 1].paymentStatus == ps &&
            (os == Pending ==> orders'[oid - 1].orderStatus == orders[oid - 1].orderStatus &&
                               orders'[oid - 1].statusHistory == orders[oid - 1].statusHistory) &&
            (os != Pending ==> orders'[oid - 1].orderStatus == os &&
                               orders'[oid - 1].statusHistory == orders[oid - 1].statusHistory + [StatusEntry(os, now)]) &&
            |orders'| == |orders| && |payments'| == |payments|
  {
  }

  function InvoiceIds(invoices: seq<Invoice>): (s: set<string>)
    ensures forall k :: 0 <= k < |invoices| ==> invoices[k].invoiceId in s
  {
    set k | 0 <= k < |invoices| :: invoices[k].invoiceId
  }

  predicate InvoiceIdsUnique(invoices: seq<Invoice>) {
    forall i, j :: 0 <= i < j < |invoices| ==> invoices[i].invoiceId != invoices[j].invoiceId
  }

  /** Appending an invoice whose id is not yet used keeps the invoice ids distinct. */
  lemma FreshInvoiceKeepsUnique(invoices: seq<Invoice>, invoice: Invoice)
    requires InvoiceIdsUnique(invoices) && invoice.invoiceId !in InvoiceIds(invoices)
    ensures InvoiceIdsUnique(invoices + [invoice])
  {
    var all := invoices + [invoice];
    forall i, j | 0 <= i < j < |all| ensures all[i].invoiceId != all[j].invoiceId {
      assert all[i] == invoices[i];
      if j < |invoices| {
        assert all[j] == invoices[j];
      }
    }
  }

  /** Outcomes of the effects after capture: the invoice PDF, the confirmation emails and the staff notifications. */
  datatype PostPaymentEnv = PostPaymentEnv(today: Common.Date, draws: seq<nat>, queryFails: seq<bool>,
                                           pdfOk: bool, emailsOk: bool, notifyOk: bool)

  predicate EnvValid(env: PostPaymentEnv) {
    Common.ValidDate(env.today) && |env.draws| >= Common.MaxAttempts && |env.queryFails| >= Common.MaxAttempts
  }

  /** `invoice_<id>.pdf` under `files/`. */
  function InvoiceLink(invoiceId: string): string { "files/invoice_" + invoiceId + ".pdf" }

  /**
   * The invoice id as the handler draws it: from the order-number generator, so it is checked against
   * order numbers rather than against existing invoice ids.
   */
  function InvoiceIdAsWritten(env: PostPaymentEnv, orders: seq<Order>): Result<string, Common.IdError>
    requires EnvValid(env)
  {
    Common.FirstFree(env.today, env.draws, env.queryFails, OrderNumbers(orders), 0)
  }

  /** With an earlier invoice holding a code no order holds, the first draw can hand out that invoice id again. */
  lemma InvoiceIdAsWrittenCanRepeat(env: PostPaymentEnv, orders: seq<Order>, invoices: seq<Invoice>)
    requires EnvValid(env) && !env.queryFails[0]
    requires Common.OrderNumber(env.today, env.draws[0]) in InvoiceIds(invoices)
    requires Common.OrderNumber(env.today, env.draws[0]) !in OrderNumbers(orders)
    ensures InvoiceIdAsWritten(env, orders).Ok? && InvoiceIdAsWritten(env, orders).value in InvoiceIds(invoices)
  {
  }

  /** The payment, its order and that order's customer are all present. */
  predicate RecordsPresent(payments: seq<Payment>, orders: seq<Order>, customers: seq<Customer>, paymentId: nat) {
    Find(payments, paymentId).Some? && Find(orders, payments[paymentId - 1].orderId).Some? &&
    Find(customers, orders[payments[paymentId - 1].orderId - 1].customerId).Some?
  }

  /** The invoice row written for a payment: its amounts, the PDF link and the drawn id. */
  function PaymentInvoice(paymentId: nat, p: Payment, invoiceId: string): Invoice {
    Invoice(paymentId, InvoiceLink(invoiceId), p.amount, p.productGstPrice, p.productDiscount, invoiceId, false)
  }

  /**
   * `handlePostPaymentProcessing`, with the invoice id drawn against the invoice ids: read the payment,
   * its order and customer, create the invoice row, then the emails and notifications. The first step
   * that fails names the error.
   */
  method PostPaymentProcessing(payments: seq<Payment>, orders: seq<Order>, customers: seq<Customer>,
                               invoices: seq<Invoice>, paymentId: nat, env: PostPaymentEnv)
    returns (r: Result<seq<Invoice>, PostPaymentStep>)
    requires EnvValid(env)
    ensures r.Ok? ==>
      var id := Common.FirstFree(env.today, env.draws, env.queryFails, InvoiceIds(invoices), 0);
      Find(payments, paymentId).Some? && id.Ok? && id.value !in InvoiceIds(invoices) &&
      env.pdfOk && env.emailsOk && env.notifyOk &&
      var p := payments[paymentId - 1];
      r.value == invoices + [Invoice(paymentId, InvoiceLink(id.value), p.amount, p.productGstPrice, p.productDiscount, id.value, false)]
    ensures !RecordsPresent(payments, orders, customers, paymentId) ==> r == Err(RecordMissing)
    ensures RecordsPresent(payments, orders, customers, paymentId) ==>
      var id := Common.FirstFree(env.today, env.draws, env.queryFails, InvoiceIds(invoices), 0);
      r == if id.Err? then Err(InvoiceIdFailed(id.error))
           else if !env.pdfOk then Err(InvoicePdfFailed)
           else if !env.emailsOk then Err(EmailFailed)
           else if !env.notifyOk then Err(NotificationFailed)
           else Ok(invoices + [PaymentInvoice(paymentId, payments[paymentId - 1], id.value)])
    ensures r.Ok? && InvoiceIdsUnique(invoices) ==> InvoiceIdsUnique(r.value)
  {
    if Find(payments, paymentId).None? {
      return Err(RecordMissing);
    }
    var payment := payments[paymentId - 1];
    if Find(orders, payment.orderId).None? || Find(customers, orders[payment.orderId - 1].customerId).None? {
      return Err(RecordMissing);
    }
    var id := Common.GenerateUniqueInvoiceID(env.today, env.draws, env.queryFails, InvoiceIds(invoices));
    if id.Err? {
      return Err(InvoiceIdFailed(id.error));
    }
    if !env.pdfOk {
      return Err(InvoicePdfFailed);
    }
    var invoice := PaymentInvoice(paymentId, payment, id.value);
    if !env.emailsOk {
      return Err(EmailFailed);
    }
    if !env.notifyOk {
      return Err(NotificationFailed);
    }
    if InvoiceIdsUnique(invoices) {
      FreshInvoiceKeepsUnique(invoices, invoice);
    }
    return Ok(invoices + [invoice]);
  }

  /**
   * `HandlePaymentSuccess`: `action` selects success, cancel or (anything else) failure. On success the
   * capture must be accepted, then the payment becomes Completed with the order left Pending, and the
   * invoice is created. Every error returns before commit, so the deferred rollback discards all writes,
   * including the Failed status written after a failed capture. `capture` is `None` when no access token
   * could be obtained. The second result is the status text of the response.
   */
  method HandlePaymentSuccess(db: Db, paymentIdParam: string, paypalOrderId: string, action: string,
                              capture: Option<PayPal.CaptureResponse>, env: PostPaymentEnv, now: int)
    returns (r: Result<(), PaymentError>, status: string)
    requires EnvValid(env)
    modifies db`orders, db`payments, db`invoices
    ensures paymentIdParam == [] || paypalOrderId == [] || action == [] ==> r == Err(MissingPaymentInformation)
    ensures r.Err? ==> db.orders == old(db.orders) && db.payments == old(db.payments) && db.invoices == old(db.invoices)
    ensures action == "success" && (capture.None? || PayPal.CaptureOutcome(capture.value).Err?) ==> r.Err?
    ensures r.Ok? && action == "success" ==>
      status == "completed" &&
      PaymentCompleted(old(db.payments), old(db.orders), old(db.invoices), RowKey(paymentIdParam), env, now,
                       db.payments, db.orders, db.invoices)
    ensures r.Ok? && action == "cancel" ==>
      var u := UpdatePaymentAndOrderStatus(old(db.payments), old(db.orders), RowKey(paymentIdParam),
                                           PaymentStatusCancelled, OrderStatusCancelled, now);
      u.Ok? && db.payments == u.value.0 && db.orders == u.value.1 && db.invoices == old(db.invoices) && status == "cancelled"
    ensures r.Ok? && action != "success" && action != "cancel" ==>
      var u := UpdatePaymentAndOrderStatus(old(db.payments), old(db.orders), RowKey(paymentIdParam),
                                           PaymentStatusFailed, OrderStatusFailed, now);
      u.Ok? && db.payments == u.value.0 && db.orders == u.value.1 && db.invoices == old(db.invoices) && status == "failed"
    ensures action == "success" && !(env.pdfOk && env.emailsOk && env.notifyOk) ==> r.Err?
    ensures (action == "success" && paymentIdParam != [] && paypalOrderId != [] && capture.Some? &&
             PayPal.CaptureOutcome(capture.value).Ok? &&
             RecordsPresent(old(db.payments), old(db.orders), old(db.customers), RowKey(paymentIdParam)) &&
             Common.FirstFree(env.today, env.draws, env.queryFails, InvoiceIds(old(db.invoices)), 0).Ok? &&
             env.pdfOk && env.emailsOk && env.notifyOk) ==> r.Ok?
    ensures (action != "success" && paymentIdParam != [] && paypalOrderId != [] && action != [] &&
             PaymentAndOrderPresent(old(db.payments), old(db.orders), RowKey(paymentIdParam))) ==> r.Ok?
    ensures InvoiceIdsUnique(old(db.invoices)) ==> InvoiceIdsUnique(db.invoices)
  {
    if paymentIdParam == [] || paypalOrderId == [] || action == [] {
      return Err(MissingPaymentInformation), "";
    }
    var key := RowKey(paymentIdParam);
    if action == "success" {
      r := CompletePayment(db, key, capture, env, now);
      status := if r.Ok? then "completed" else "failed";
    } else if action == "cancel" {
      r := SetPaymentStatus(db, key, PaymentStatusCancelled, OrderStatusCancelled, now);
      status := "cancelled";
    } else {
      r := SetPaymentStatus(db, key, PaymentStatusFailed, OrderStatusFailed, now);
      status := "failed";
    }
  }

  /**
   * The tables after a completed payment: the payment Completed and its order updated as for a Pending
   * target, every send succeeded, and exactly the invoice of the drawn id, which no invoice held, appended.
   */
  predicate PaymentCompleted(payments: seq<Payment>, orders: seq<Order>, invoices: seq<Invoice>, key: nat,
                             env: PostPaymentEnv, now: int,
                             payments': seq<Payment>, orders': seq<Order>, invoices': seq<Invoice>)
    requires EnvValid(env)
  {
    var u := UpdatePaymentAndOrderStatus(payments, orders, key, PaymentStatusCompleted, Pending, now);
    var id := Common.FirstFree(env.today, env.draws, env.queryFails, InvoiceIds(invoices), 0);
    u.Ok? && payments' == u.value.0 && orders' == u.value.1 &&
    env.pdfOk && env.emailsOk && env.notifyOk && id.Ok? && id.value !in InvoiceIds(invoices) &&
    invoices' == invoices + [PaymentInvoice(key, payments[key - 1], id.value)]
  }

  /**
   * The success branch of `HandlePaymentSuccess`: verify the capture, mark the payment Completed, then
   * write the invoice; every error leaves the tables as they were.
   */
  method CompletePayment(db: Db, key: nat, capture: Option<PayPal.CaptureResponse>, env: PostPaymentEnv, now: int)
    returns (r: Result<(), PaymentError>)
    requires EnvValid(env)
    modifies db`orders, db`payments, db`invoices
    ensures capture.None? || PayPal.CaptureOutcome(capture.value).Err? ==> r == Err(VerificationFailed)
    ensures r.Err? ==> db.orders == old(db.orders) && db.payments == old(db.payments) && db.invoices == old(db.invoices)
    ensures r.Ok? ==> PaymentCompleted(old(db.payments), old(db.orders), old(db.invoices), key, env, now,
                                       db.payments, db.orders, db.invoices)
    ensures !(env.pdfOk && env.emailsOk && env.notifyOk) ==> r.Err?
    ensures (capture.Some? && PayPal.CaptureOutcome(capture.value).Ok? &&
             RecordsPresent(old(db.payments), old(db.orders), old(db.customers), key) &&
             Common.FirstFree(env.today, env.draws, env.queryFails, InvoiceIds(old(db.invoices)), 0).Ok? &&
             env.pdfOk && env.emailsOk && env.notifyOk) ==> r.Ok?
    ensures InvoiceIdsUnique(old(db.invoices)) ==> InvoiceIdsUnique(db.invoices)
  {
    if capture.None? || PayPal.CaptureOutcome(capture.value).Err? {
      return Err(VerificationFailed);
    }
    var u := UpdatePaymentAndOrderStatus(db.payments, db.orders, key, PaymentStatusCompleted, Pending, now);
    if u.Err? {
      return Err(u.error);
    }
    var post := PostPaymentProcessing(u.value.0, u.value.1, db.customers, db.invoices, key, env);
    if post.Err? {
      return Err(PostPaymentFailed(post.error));
    }
    assert post.value[..|db.invoices|] == db.invoices;
    db.payments, db.orders, db.invoices := u.value.0, u.value.1, post.value;
    return Ok(());
  }

  /** The cancel and failure branches of `HandlePaymentSuccess`: both statuses are written, or nothing on error. */
  method SetPaymentStatus(db: Db, key: nat, paymentStatus: string, orderStatus: string, now: int)
    returns (r: Result<(), PaymentError>)
    modifies db`orders, db`payments
    ensures var u := UpdatePaymentAndOrderStatus(old(db.payments), old(db.orders), key, paymentStatus, orderStatus, now);
            (r.Ok? <==> u.Ok?) &&
            (r.Ok? ==> db.payments == u.value.0 && db.orders == u.value.1) &&
            (r.Err? ==> r.error == u.error && db.payments == old(db.payments) && db.orders == old(db.orders))
  {
    var u := UpdatePaymentAndOrderStatus(db.payments, db.orders, key, paymentStatus, orderStatus, now);
    if u.Err? {
      return Err(u.error);
    }
    db.payments, db.orders := u.value.0, u.value.1;
    return Ok(());
  }
}
