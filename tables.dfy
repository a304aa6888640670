/**
 * The database rows the handlers read and write, and the `Db` object holding one table per row type.
 * A table is a sequence in insertion order; a row's primary key is its position plus one (rows are
 * never physically removed, only flagged `isDeleted`). Timestamps are plain integers supplied by the caller.
 */
module Tables {
  import opened Wrappers
  import Discount
  import Numeric

  /** One entry of an order's status history. */
  datatype StatusEntry = StatusEntry(status: string, timestamp: int)

  datatype Customer = Customer(
    customerType: string, firstName: string, lastName: string, email: string, phoneNumber: string,
    country: string, streetAddress: string, townCity: string, region: string, postcode: string,
    shippingCountry: string, shippingAddress: string, shippingTownCity: string, shippingRegion: string,
    shippingPostcode: string, clinicId: string, isDeleted: bool)

  datatype Order = Order(
    customerId: nat, productName: string, productDescription: string, productImage: string,
    productPrice: real, productGstPrice: real, productDiscount: real, quantity: int,
    orderNumber: string, totalPrice: real, paymentStatus: string, orderStatus: string,
    statusHistory: seq<StatusEntry>, trackingId: string, isDeleted: bool)

  datatype Payment = Payment(
    orderId: nat, paymentStatus: string, transactionId: string, amount: real,
    productGstPrice: real, productDiscount: real, isDeleted: bool)

  datatype Invoice = Invoice(
    paymentId: nat, invoiceLink: string, price: real, productGstPrice: real, productDiscount: real,
    invoiceId: string, isDeleted: bool)

  datatype Barcode = Barcode(barcodeNumber: string, orderId: nat, isDeleted: bool)

  datatype KitRegistration = KitRegistration(
    customerId: nat, orderId: nat, barcodeId: nat,
    patientFirstName: string, patientLastName: string, patientEmail: string, patientGender: string,
    patientAge: string, kitStatus: string, reason: string, filePath: string, labId: nat,
    isClinicInform: bool, isDeleted: bool)

  datatype Lab = Lab(labName: string, labAddress: string, nhiNumber: string, isDeleted: bool)

  datatype Kit = Kit(
    kitType: string, quantity: int, supplierName: string, supplierContactNumber: string,
    supplierAddress: string, createdBy: nat, status: bool, isDeleted: bool, createdAt: int, updatedAt: int)

  /** The row with primary key `id`, if there is one. */
  function Find<T>(table: seq<T>, id: nat): (r: Option<T>)
    ensures r.Some? <==> 1 <= id <= |table|
    ensures r.Some? ==> r.value == table[id - 1]
  {
    if 1 <= id <= |table| then Some(table[id - 1]) else None
  }

  /**
   * The row a path or query parameter names, read as decimal text the way `strconv.Atoi` reads it; in this
   * model text that does not read as a positive number names no row.
   */
  function RowKey(param: string): (k: nat)
    ensures k != 0 ==> Numeric.Atoi(param) == Some(k as int)
    ensures k == 0 ==> Numeric.Atoi(param).None? || Numeric.Atoi(param).value <= 0
  {
    match Numeric.Atoi(param)
    case Some(n) => if n >= 1 then n else 0
    case None => 0
  }

  /** Replaces the row with primary key `id`. */
  function Put<T>(table: seq<T>, id: nat, row: T): (r: seq<T>)
    requires 1 <= id <= |table|
    ensures |r| == |table| && r[id - 1] == row
    ensures forall k :: 0 <= k < |table| && k != id - 1 ==> r[k] == table[k]
  {
    table[id - 1 := row]
  }

  class Db {
    var customers: seq<Customer>
    var orders: seq<Order>
    var payments: seq<Payment>
    var invoices: seq<Invoice>
    var barcodes: seq<Barcode>
    var registrations: seq<KitRegistration>
    var labs: seq<Lab>
    var kits: seq<Kit>
    var tiers: seq<Discount.Tier>

    constructor ()
      ensures customers == [] && orders == [] && payments == [] && invoices == []
      ensures barcodes == [] && registrations == [] && labs == [] && kits == [] && tiers == []
    {
      customers, orders, payments, invoices := [], [], [], [];
      barcodes, registrations, labs, kits, tiers := [], [], [], [], [];
    }
  }
}
