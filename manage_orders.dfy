/**
 * Staff order management: assigning a batch of kit barcodes to a paid order, the admin status
 * update, and the dashboard counts. Both handlers run in one transaction and commit only at the end,
 * so every failure leaves the tables unchanged.
 */
module ManageOrders {
  import opened Wrappers
  import opened Chars
  import Common
  import Numeric
  import opened Tables

  const Completed := "Completed"
  const Processing := "Processing"
  const BarcodeLength := 30
  const MaxTrackingIdLength := 50
  /** `strconv.ParseUint(orderID, 10, 32)` accepts at most this value. */
  const MaxUint32 := 0xFFFF_FFFF

  // ---------------------------------------------------------------- the barcode batch

  /** A code as the parser leaves it: non-empty, without white space at either end. */
  predicate TrimmedCode(c: string) { c != [] && !IsSpace(c[0]) && !IsSpace(c[|c| - 1]) }

  /** The trimmed pieces that are not empty, in input order. */
  function NonEmptyTrimmed(pieces: seq<string>): (r: seq<string>)
    ensures |r| <= |pieces|
    ensures forall i :: 0 <= i < |r| ==> TrimmedCode(r[i])
  {
    if pieces == [] then []
    else
      var t := TrimSpace(pieces[|pieces| - 1]);
      var front := NonEmptyTrimmed(pieces[..|pieces| - 1]);
      if t == [] then front else front + [t]
  }

  /** The codes of a request: the trimmed input split on ',', each piece trimmed, empty pieces dropped. */
  function BarcodeList(input: string): seq<string> {
    NonEmptyTrimmed(Split(TrimSpace(input), ','))
  }

  /** One more piece adds its trimmed text when that is not empty. */
  lemma NonEmptyTrimmedStep(pieces: seq<string>, k: nat)
    requires k < |pieces|
    ensures var t := TrimSpace(pieces[k]);
            NonEmptyTrimmed(pieces[..k + 1]) == if t == [] then NonEmptyTrimmed(pieces[..k]) else NonEmptyTrimmed(pieces[..k]) + [t]
  {
    assert pieces[..k + 1][..k] == pieces[..k];
  }

  /** `AssignKit`'s parsing loop over the pieces of the split input. */
  method KeepNonEmpty(pieces: seq<string>) returns (codes: seq<string>)
    ensures codes == NonEmptyTrimmed(pieces)
  {
    codes := [];
    var k := 0;
    while k < |pieces|
      invariant 0 <= k <= |pieces|
      invariant codes == NonEmptyTrimmed(pieces[..k])
    {
      NonEmptyTrimmedStep(pieces, k);
      var trimmed := TrimSpace(pieces[k]);
      if trimmed != [] {
        codes := codes + [trimmed];
      }
      k := k + 1;
    }
    assert pieces[..k] == pieces;
  }

  /** Exactly 30 characters matching `^[a-zA-Z0-9]+$` (the alternative `^\d+$` adds nothing). */
  predicate BarcodeFormat(code: string) { |code| == BarcodeLength && AllAlnum(code) }

  datatype BarcodeError = BadLength(code: string) | BadFormat(code: string)

  /** The position of the first code from `k` on that fails the format. */
  function FirstBadFrom(codes: seq<string>, k: nat): (r: Option<nat>)
    requires k <= |codes|
    ensures r.None? <==> forall j :: k <= j < |codes| ==> BarcodeFormat(codes[j])
    ensures r.Some? ==> k <= r.value < |codes| && !BarcodeFormat(codes[r.value]) &&
                        forall i :: k <= i < r.value ==> BarcodeFormat(codes[i])
    decreases |codes| - k
  {
    if k == |codes| then None
    else if !BarcodeFormat(codes[k]) then Some(k)
    else FirstBadFrom(codes, k + 1)
  }

  /** The error reported for a bad code: its length is checked before its characters. */
  function BadCode(code: string): BarcodeError {
    if |code| != BarcodeLength then BadLength(code) else BadFormat(code)
  }

  /** `AssignKit`'s validation loop: the first bad code ends the request. */
  method ValidateBarcodes(codes: seq<string>) returns (r: Option<BarcodeError>)
    ensures r.None? <==> FirstBadFrom(codes, 0).None?
    ensures r.Some? ==> FirstBadFrom(codes, 0).Some? && r.value == BadCode(codes[FirstBadFrom(codes, 0).value])
  {
    var k := 0;
    while k < |codes|
      invariant 0 <= k <= |codes|
      invariant FirstBadFrom(codes, k) == FirstBadFrom(codes, 0)
    {
      if |codes[k]| != BarcodeLength {
        return Some(BadLength(codes[k]));
      }
      if !AllAlnum(codes[k]) {
        return Some(BadFormat(codes[k]));
      }
      k := k + 1;
    }
    return None;
  }

  function BarcodeNumbers(barcodes: seq<Barcode>): (s: set<string>)
    ensures forall k :: 0 <= k < |barcodes| ==> barcodes[k].barcodeNumber in s
  {
    set k | 0 <= k < |barcodes| :: barcodes[k].barcodeNumber
  }

  /** No two barcode rows hold the same number (the column is unique). */
  predicate NumbersUnique(barcodes: seq<Barcode>) {
    forall i, j :: 0 <= i < j < |barcodes| ==> barcodes[i].barcodeNumber != barcodes[j].barcodeNumber
  }

  predicate Distinct(codes: seq<string>) {
    forall i, j :: 0 <= i < j < |codes| ==> codes[i] != codes[j]
  }

  /** The position of the first code from `k` on that some barcode row already holds. */
  function FirstTakenFrom(codes: seq<string>, taken: set<string>, k: nat): (r: Option<nat>)
    requires k <= |codes|
    ensures r.None? <==> forall j :: k <= j < |codes| ==> codes[j] !in taken
    ensures r.Some? ==> k <= r.value < |codes| && codes[r.value] in taken &&
                        forall i :: k <= i < r.value ==> codes[i] !in taken
    decreases |codes| - k
  {
    if k == |codes| then None
    else if codes[k] in taken then Some(k)
    else FirstTakenFrom(codes, taken, k + 1)
  }

  /** `AssignKit`'s conflict loop: one lookup per code, in batch order, over every barcode row. */
  method FindAssigned(codes: seq<string>, barcodes: seq<Barcode>) returns (r: Option<string>)
    ensures r.None? <==> FirstTakenFrom(codes, BarcodeNumbers(barcodes), 0).None?
    ensures r.Some? ==> FirstTakenFrom(codes, BarcodeNumbers(barcodes), 0).Some? &&
                        r.value == codes[FirstTakenFrom(codes, BarcodeNumbers(barcodes), 0).value]
  {
    var k := 0;
    while k < |codes|
      invariant 0 <= k <= |codes|
      invariant FirstTakenFrom(codes, BarcodeNumbers(barcodes), k) == FirstTakenFrom(codes, BarcodeNumbers(barcodes), 0)
    {
      if codes[k] in BarcodeNumbers(barcodes) {
        return Some(codes[k]);
      }
      k := k + 1;
    }
    return None;
  }

  /** The rows one batch inserts for order `orderId`. */
  function NewBarcodes(codes: seq<string>, orderId: nat): (r: seq<Barcode>)
    ensures |r| == |codes|
    ensures forall i :: 0 <= i < |codes| ==> r[i] == Barcode(codes[i], orderId, false)
  {
    seq(|codes|, i requires 0 <= i < |codes| => Barcode(codes[i], orderId, false))
  }

  lemma NumbersAfterInsert(barcodes: seq<Barcode>, codes: seq<string>, orderId: nat)
    ensures forall c :: c in BarcodeNumbers(barcodes + NewBarcodes(codes, orderId)) <==> c in BarcodeNumbers(barcodes) || c in codes
  {
    var added := NewBarcodes(codes, orderId);
    var t := barcodes + added;
    forall c | c in BarcodeNumbers(t) ensures c in BarcodeNumbers(barcodes) || c in codes {
      var k :| 0 <= k < |t| && t[k].barcodeNumber == c;
      if k >= |barcodes| {
        assert t[k] == added[k - |barcodes|];
        assert codes[k - |barcodes|] == c;
      } else {
        assert t[k] == barcodes[k];
      }
    }
    forall c | c in BarcodeNumbers(barcodes) || c in codes ensures c in BarcodeNumbers(t) {
      if c in codes {
        var i :| 0 <= i < |codes| && codes[i] == c;
        assert t[|barcodes| + i] == added[i];
      } else {
        var k :| 0 <= k < |barcodes| && barcodes[k].barcodeNumber == c;
        assert t[k] == barcodes[k];
      }
    }
  }

  /**
   * The insert loop: each `Create` fails on the unique barcode number when the number is already
   * stored, including by an earlier insert of the same batch; a failure discards the batch.
   */
  method InsertBatch(barcodes: seq<Barcode>, codes: seq<string>, orderId: nat) returns (r: Option<seq<Barcode>>)
    ensures r.Some? <==> Distinct(codes) && forall j :: 0 <= j < |codes| ==> codes[j] !in BarcodeNumbers(barcodes)
    ensures r.Some? ==> r.value == barcodes + NewBarcodes(codes, orderId)
  {
    var table := barcodes;
    var k := 0;
    while k < |codes|
      invariant 0 <= k <= |codes|
      invariant table == barcodes + NewBarcodes(codes[..k], orderId)
      invariant Distinct(codes[..k]) && forall j :: 0 <= j < k ==> codes[j] !in BarcodeNumbers(barcodes)
    {
      NumbersAfterInsert(barcodes, codes[..k], orderId);
      if codes[k] in BarcodeNumbers(table) {
        if codes[k] !in BarcodeNumbers(barcodes) {
          var i :| 0 <= i < k && codes[..k][i] == codes[k];
          assert codes[i] == codes[k];
        }
        return None;
      }
      assert codes[..k + 1] == codes[..k] + [codes[k]];
      assert NewBarcodes(codes[..k + 1], orderId) == NewBarcodes(codes[..k], orderId) + [Barcode(codes[k], orderId, false)];
      table := table + [Barcode(codes[k], orderId, false)];
      k := k + 1;
    }
    assert codes[..k] == codes;
    return Some(table);
  }

  /** Barcode rows referring to order `orderId` (the count query does not filter deleted rows). */
  function CountFor(barcodes: seq<Barcode>, orderId: nat): (n: nat)
    ensures n <= |barcodes|
  {
    if barcodes == [] then 0
    else CountFor(barcodes[..|barcodes| - 1], orderId) + (if barcodes[|barcodes| - 1].orderId == orderId then 1 else 0)
  }

  lemma {:induction false} CountForAppend(barcodes: seq<Barcode>, codes: seq<string>, orderId: nat)
    ensures CountFor(barcodes + NewBarcodes(codes, orderId), orderId) == CountFor(barcodes, orderId) + |codes|
    decreases |codes|
  {
    if codes == [] {
      assert barcodes + NewBarcodes(codes, orderId) == barcodes;
    } else {
      var front := codes[..|codes| - 1];
      var t := barcodes + NewBarcodes(codes, orderId);
      assert t[..|t| - 1] == barcodes + NewBarcodes(front, orderId);
      CountForAppend(barcodes, front, orderId);
    }
  }

  /** Some barcode row refers to order `orderId`. */
  predicate HasBarcode(barcodes: seq<Barcode>, orderId: nat) {
    exists k :: 0 <= k < |barcodes| && barcodes[k].orderId == orderId
  }

  lemma {:induction false} HasBarcodeIffCounted(barcodes: seq<Barcode>, orderId: nat)
    ensures HasBarcode(barcodes, orderId) <==> CountFor(barcodes, orderId) > 0
    decreases |barcodes|
  {
    if barcodes != [] {
      var front := barcodes[..|barcodes| - 1];
      HasBarcodeIffCounted(front, orderId);
      if HasBarcode(barcodes, orderId) && barcodes[|barcodes| - 1].orderId != orderId {
        var k :| 0 <= k < |barcodes| && barcodes[k].orderId == orderId;
        assert front[k].orderId == orderId;
      }
      if HasBarcode(front, orderId) {
        var k :| 0 <= k < |front| && front[k].orderId == orderId;
        assert barcodes[k].orderId == orderId;
      }
    }
  }

  // ---------------------------------------------------------------- AssignKit

  datatype AssignError =
    | NoBarcodes
    | InvalidBarcode(bad: BarcodeError)
    | AssignUnauthenticated
    | AssignOrderNotFound
    | AssignPaymentNotCompleted
    | ExceedsQuantity
    | AlreadyAssigned(code: string)
    | InvalidOrderId
    | InsertFailed
    | AssignCustomerNotFound
    | AssignEmailFailed

  /** The order with its status set to Processing and one Processing entry appended to its history. */
  function MarkProcessing(o: Order, now: int): Order {
    o.(orderStatus := Processing, statusHistory := o.statusHistory + [StatusEntry(Processing, now)])
  }

  /**
   * The barcode and order tables after `AssignKit` for the parsed batch `codes` and the `:id` path text
   * `idText`. The order is looked up by the row key of that text; only after the conflict checks is the
   * text parsed as an unsigned 32-bit number, and the new barcodes carry the parsed value. `userOk` says the caller's user row exists; `emailOk` is the outcome of the status
   * email sent when the batch completes the order.
   */
  function Assign(barcodes: seq<Barcode>, orders: seq<Order>, customers: seq<Customer>, codes: seq<string>,
                  idText: string, userOk: bool, emailOk: bool, now: int)
    : Result<(seq<Barcode>, seq<Order>), AssignError>
  {
    var id := RowKey(idText);
    // The parsed value equals `id` whenever the order was found (`AssignGuards`), so the new rows use `id`.
    if codes == [] then Err(NoBarcodes)
    else if FirstBadFrom(codes, 0).Some? then Err(InvalidBarcode(BadCode(codes[FirstBadFrom(codes, 0).value])))
    else if !userOk then Err(AssignUnauthenticated)
    else if Find(orders, id).None? || orders[id - 1].isDeleted then Err(AssignOrderNotFound)
    else
      var o := orders[id - 1];
      var count := CountFor(barcodes, id);
      if o.paymentStatus != Completed then Err(AssignPaymentNotCompleted)
      else if count + |codes| > o.quantity then Err(ExceedsQuantity)
      else if FirstTakenFrom(codes, BarcodeNumbers(barcodes), 0).Some? then
        Err(AlreadyAssigned(codes[FirstTakenFrom(codes, BarcodeNumbers(barcodes), 0).value]))
      else if Numeric.ParseUint(idText, MaxUint32).None? then Err(InvalidOrderId)
      else if !Distinct(codes) then Err(InsertFailed)
      else if count + |codes| == o.quantity then
        if Find(customers, o.customerId).None? then Err(AssignCustomerNotFound)
        else if !emailOk then Err(AssignEmailFailed)
        else Ok((barcodes + NewBarcodes(codes, id), Put(orders, id, MarkProcessing(o, now))))
      else Ok((barcodes + NewBarcodes(codes, id), orders))
  }

  /** `AssignKit` from the parsed batch on: the success result is the number of barcodes assigned. */
  method AssignBatch(db: Db, codes: seq<string>, idText: string, userOk: bool, emailOk: bool, now: int)
    returns (r: Result<nat, AssignError>)
    modifies db`barcodes, db`orders
    ensures var a := Assign(old(db.barcodes), old(db.orders), db.customers, codes, idText, userOk, emailOk, now);
            (r.Ok? <==> a.Ok?) &&
            (r.Ok? ==> (db.barcodes, db.orders) == a.value && r.value == |codes|) &&
            (r.Err? ==> r.error == a.error && db.barcodes == old(db.barcodes) && db.orders == old(db.orders))
  {
    if |codes| == 0 {
      return Err(NoBarcodes);
    }
    var bad := ValidateBarcodes(codes);
    if bad.Some? {
      return Err(InvalidBarcode(bad.value));
    }
    if !userOk {
      return Err(AssignUnauthenticated);
    }
    var id := RowKey(idText);
    if !(1 <= id <= |db.orders|) || db.orders[id - 1].isDeleted {
      return Err(AssignOrderNotFound);
    }
    var order := db.orders[id - 1];
    if order.paymentStatus != Completed {
      return Err(AssignPaymentNotCompleted);
    }
    var count := CountFor(db.barcodes, id);
    if count + |codes| > order.quantity {
      return Err(ExceedsQuantity);
    }
    var taken := FindAssigned(codes, db.barcodes);
    if taken.Some? {
      return Err(AlreadyAssigned(taken.value));
    }
    var orderId := Numeric.ParseUint(idText, MaxUint32);
    if orderId.None? {
      return Err(InvalidOrderId);
    }
    Numeric.AtoiOfUnsigned(idText, MaxUint32);
    var inserted := InsertBatch(db.barcodes, codes, orderId.value);
    if inserted.None? {
      return Err(InsertFailed);
    }
    var orders := db.orders;
    if count + |codes| == order.quantity {
      if !(1 <= order.customerId <= |db.customers|) {
        return Err(AssignCustomerNotFound);
      }
      if !emailOk {
        return Err(AssignEmailFailed);
      }
      orders := Put(orders, id, MarkProcessing(order, now));
    }
    db.barcodes, db.orders := inserted.value, orders;
    return Ok(|codes|);
  }

  /** `AssignKit` for the raw `barcode_numbers` text and the `:id` path parameter. */
  method AssignKit(db: Db, input: string, orderIdParam: string, userOk: bool, emailOk: bool, now: int)
    returns (r: Result<nat, AssignError>)
    modifies db`barcodes, db`orders
    ensures var a := Assign(old(db.barcodes), old(db.orders), db.customers, BarcodeList(input), orderIdParam,
                            userOk, emailOk, now);
            (r.Ok? <==> a.Ok?) &&
            (r.Ok? ==> (db.barcodes, db.orders) == a.value && r.value == |BarcodeList(input)|) &&
            (r.Err? ==> r.error == a.error && db.barcodes == old(db.barcodes) && db.orders == old(db.orders))
  {
    var codes := KeepNonEmpty(Split(TrimSpace(input), ','));
    r := AssignBatch(db, codes, orderIdParam, userOk, emailOk, now);
  }

  /** A batch is accepted only for an existing, non-deleted, paid order and only with valid, fresh, distinct codes. */
  lemma AssignGuards(barcodes: seq<Barcode>, orders: seq<Order>, customers: seq<Customer>, codes: seq<string>,
                     idText: string, userOk: bool, emailOk: bool, now: int)
    requires Assign(barcodes, orders, customers, codes, idText, userOk, emailOk, now).Ok?
    ensures var id := RowKey(idText);
            1 <= id <= |orders| && !orders[id - 1].isDeleted && orders[id - 1].paymentStatus == "Completed" &&
            Numeric.ParseUint(idText, MaxUint32) == Some(id) &&
            codes != [] && Distinct(codes) && userOk &&
            (forall j :: 0 <= j < |codes| ==> codes[j] !in BarcodeNumbers(barcodes) && |codes[j]| == 30 && AllAlnum(codes[j]))
  {
    Numeric.AtoiOfUnsigned(idText, MaxUint32);
  }

  /** After an accepted batch the order holds its old barcodes plus the batch, and never more than its quantity. */
  lemma AssignWithinQuantity(barcodes: seq<Barcode>, orders: seq<Order>, customers: seq<Customer>, codes: seq<string>,
                             idText: string, userOk: bool, emailOk: bool, now: int)
    requires Assign(barcodes, orders, customers, codes, idText, userOk, emailOk, now).Ok?
    ensures var barcodes' := Assign(barcodes, orders, customers, codes, idText, userOk, emailOk, now).value.0;
            var id := RowKey(idText);
            1 <= id <= |orders| &&
            CountFor(barcodes', id) == CountFor(barcodes, id) + |codes| &&
            CountFor(barcodes', id) <= orders[id - 1].quantity
  {
    CountForAppend(barcodes, codes, RowKey(idText));
  }

  /** Accepted batches keep barcode numbers unique across all orders. */
  lemma AssignKeepsNumbersUnique(barcodes: seq<Barcode>, orders: seq<Order>, customers: seq<Customer>, codes: seq<string>,
                                 idText: string, userOk: bool, emailOk: bool, now: int)
    requires NumbersUnique(barcodes)
    requires Assign(barcodes, orders, customers, codes, idText, userOk, emailOk, now).Ok?
    ensures NumbersUnique(Assign(barcodes, orders, customers, codes, idText, userOk, emailOk, now).value.0)
  {
    var t := barcodes + NewBarcodes(codes, RowKey(idText));
    forall i, j | 0 <= i < j < |t| ensures t[i].barcodeNumber != t[j].barcodeNumber {
      if j >= |barcodes| {
        assert t[j].barcodeNumber == codes[j - |barcodes|];
        if i >= |barcodes| {
          assert t[i].barcodeNumber == codes[i - |barcodes|];
        } else {
          assert t[i].barcodeNumber in BarcodeNumbers(barcodes);
        }
      }
    }
  }

  /**
   * The order changes only on the batch that brings its barcode count to its quantity: then it becomes
   * Processing with exactly one new history entry; any other accepted batch leaves every order as it was.
   */
  lemma AssignProcessingOnLastBatch(barcodes: seq<Barcode>, orders: seq<Order>, customers: seq<Customer>, codes: seq<string>,
                                    idText: string, userOk: bool, emailOk: bool, now: int)
    requires Assign(barcodes, orders, customers, codes, idText, userOk, emailOk, now).Ok?
    ensures var (barcodes', orders') := Assign(barcodes, orders, customers, codes, idText, userOk, emailOk, now).value;
            var id := RowKey(idText);
            1 <= id <= |orders| && |orders'| == |orders| &&
            (CountFor(barcodes', id) == orders[id - 1].quantity ==>
               orders'[id - 1].orderStatus == "Processing" &&
               orders'[id - 1].statusHistory == orders[id - 1].statusHistory + [StatusEntry("Processing", now)] &&
               forall k :: 0 <= k < |orders| && k != id - 1 ==> orders'[k] == orders[k]) &&
            (CountFor(barcodes', id) < orders[id - 1].quantity ==> orders' == orders)
  {
    CountForAppend(barcodes, codes, RowKey(idText));
  }

  /** Once an order holds its full quantity of barcodes every further batch is refused, so Processing is appended at most once. */
  lemma FullOrderRefusesBatches(barcodes: seq<Barcode>, orders: seq<Order>, customers: seq<Customer>, codes: seq<string>,
                                idText: string, userOk: bool, emailOk: bool, now: int)
    requires 1 <= RowKey(idText) <= |orders|
    requires CountFor(barcodes, RowKey(idText)) >= orders[RowKey(idText) - 1].quantity
    ensures Assign(barcodes, orders, customers, codes, idText, userOk, emailOk, now).Err?
  {
  }

  /** A signed `:id` such as "+5" never gets a batch assigned: the unsigned parse refuses it even where the lookup finds the order. */
  lemma SignedOrderIdRefused(barcodes: seq<Barcode>, orders: seq<Order>, customers: seq<Customer>, codes: seq<string>,
                             idText: string, userOk: bool, emailOk: bool, now: int)
    requires idText != [] && (idText[0] == '+' || idText[0] == '-')
    ensures Assign(barcodes, orders, customers, codes, idText, userOk, emailOk, now).Err?
  {
    assert !AllDigits(idText) by { assert !IsDigit(idText[0]); }
  }

  /** A code already stored for any order makes the whole batch fail. */
  lemma TakenCodeRefused(barcodes: seq<Barcode>, orders: seq<Order>, customers: seq<Customer>, codes: seq<string>,
                         idText: string, userOk: bool, emailOk: bool, now: int, k: nat)
    requires k < |codes| && codes[k] in BarcodeNumbers(barcodes)
    ensures Assign(barcodes, orders, customers, codes, idText, userOk, emailOk, now).Err?
  {
  }

  /** A batch that repeats a code passes the pre-checks but fails on insert. */
  lemma RepeatedCodeRefused(barcodes: seq<Barcode>, orders: seq<Order>, customers: seq<Customer>, codes: seq<string>,
                            idText: string, userOk: bool, emailOk: bool, now: int, i: nat, j: nat)
    requires i < j < |codes| && codes[i] == codes[j]
    ensures Assign(barcodes, orders, customers, codes, idText, userOk, emailOk, now).Err?
  {
  }

  // ---------------------------------------------------------------- UpdateOrderStatus

  const AllowedStatuses: seq<string> := ["Pending", "Processing", "Shipped", "Delivered", "Cancelled", "Dispatched"]

  /** Go's `strings.Title` separators on ASCII: everything except letters, digits and '_'. */
  predicate TitleSeparator(c: char) { !(IsAlnum(c) || c == '_') }

  /** `strings.Title` on ASCII text: a character at the start or after a separator is upper-cased. */
  function Title(s: string): (r: string)
    ensures |r| == |s|
    ensures forall i {:trigger r[i]} :: 0 <= i < |s| ==> r[i] == (if i == 0 || TitleSeparator(s[i - 1]) then ToUpperChar(s[i]) else s[i])
  {
    seq(|s|, i requires 0 <= i < |s| => if i == 0 || TitleSeparator(s[i - 1]) then ToUpperChar(s[i]) else s[i])
  }

  /** The status as `UpdateOrderStatus` stores it: trimmed, lower-cased, then title-cased. */
  function NormalizeStatus(status: string): string { Title(Lower(TrimSpace(status))) }

  /** `toLowerSlice`. */
  method ToLowerSlice(slice: seq<string>) returns (r: seq<string>)
    ensures |r| == |slice| && forall i :: 0 <= i < |slice| ==> r[i] == Lower(slice[i])
  {
    var lowered := [];
    for i := 0 to |slice|
      invariant |lowered| == i && forall k :: 0 <= k < i ==> lowered[k] == Lower(slice[k])
    {
      lowered := lowered + [Lower(slice[i])];
    }
    return lowered;
  }

  /** The validity test: the lower-cased status is one of the lower-cased allowed statuses. */
  predicate StatusAllowed(newStatus: string) {
    exists i :: 0 <= i < |AllowedStatuses| && Lower(newStatus) == Lower(AllowedStatuses[i])
  }

  lemma LowerOfUpper(c: char)
    ensures ToLowerChar(ToUpperChar(c)) == ToLowerChar(c)
  {
  }

  /** Title-casing changes only case. */
  lemma LowerTitle(s: string)
    ensures Lower(Title(s)) == Lower(s)
  {
    var t := Title(s);
    var a, b := Lower(t), Lower(s);
    forall i | 0 <= i < |s| ensures a[i] == b[i] {
      LowerOfUpper(s[i]);
      assert t[i] == ToUpperChar(s[i]) || t[i] == s[i];
    }
  }

  lemma UpperOfLower(c: char)
    requires IsUpper(c)
    ensures ToUpperChar(ToLowerChar(c)) == c
  {
  }

  /** Title-casing the lower-cased form of a capitalised word gives the word back. */
  lemma TitleLowerOfCapitalised(w: string)
    requires |w| > 0 && IsUpper(w[0]) && forall i :: 1 <= i < |w| ==> IsLower(w[i])
    ensures Title(Lower(w)) == w
  {
    var l := Lower(w);
    var t := Title(l);
    UpperOfLower(w[0]);
    forall i | 0 < i < |w| ensures t[i] == w[i] {
      assert IsLetter(l[i - 1]);
    }
  }

  /** A capitalised word (upper-case first letter, the rest lower-case) is its own normal form. */
  lemma TitleOfLowerCapitalised(w: string)
    requires |w| > 0 && IsUpper(w[0]) && forall i :: 1 <= i < |w| ==> IsLower(w[i])
    ensures NormalizeStatus(w) == w
  {
    assert !IsSpace(w[|w| - 1]) by { if |w| > 1 { assert IsLower(w[|w| - 1]); } }
    TrimSpaceOfTrimmed(w);
    TitleLowerOfCapitalised(w);
  }

  lemma AllowedStatusesCapitalised(k: nat)
    requires k < |AllowedStatuses|
    ensures NormalizeStatus(AllowedStatuses[k]) == AllowedStatuses[k]
  {
    var w := AllowedStatuses[k];
    assert |w| > 0 && IsUpper(w[0]) && forall i :: 1 <= i < |w| ==> IsLower(w[i]);
    TitleOfLowerCapitalised(w);
  }

  /**
   * The normalised status passes the test exactly when the trimmed input equals an allowed status up to
   * case, and then it is that allowed status in its canonical spelling.
   */
  lemma NormalizedStatusIsCanonical(status: string)
    ensures StatusAllowed(NormalizeStatus(status)) <==>
            exists i :: 0 <= i < |AllowedStatuses| && Lower(TrimSpace(status)) == Lower(AllowedStatuses[i])
    ensures StatusAllowed(NormalizeStatus(status)) ==> NormalizeStatus(status) in AllowedStatuses
  {
    var t := TrimSpace(status);
    LowerTitle(Lower(t));
    LowerIdempotent(t);
    assert Lower(NormalizeStatus(status)) == Lower(t);
    if StatusAllowed(NormalizeStatus(status)) {
      var i :| 0 <= i < |AllowedStatuses| && Lower(NormalizeStatus(status)) == Lower(AllowedStatuses[i]);
      NormalizedMatchIsAllowed(status, i);
    }
  }

  /** A trimmed input equal to an allowed status up to case normalises to that status. */
  lemma NormalizedMatchIsAllowed(status: string, i: nat)
    requires i < |AllowedStatuses| && Lower(TrimSpace(status)) == Lower(AllowedStatuses[i])
    ensures NormalizeStatus(status) == AllowedStatuses[i]
  {
    var w := AllowedStatuses[i];
    AllowedStatusesCapitalised(i);
    LowerIdempotent(w);
    TrimSpaceOfTrimmed(w);
    assert NormalizeStatus(status) == Title(Lower(w)) == Title(Lower(TrimSpace(w))) == NormalizeStatus(w);
  }

  datatype UpdateError =
    | InvalidOrderStatus
    | TrackingIdTooLong
    | OrderIdRequired
    | UpdateUnauthenticated
    | UpdateOrderNotFound
    | SameStatus
    | UpdatePaymentNotCompleted
    | BarcodeNotAssigned
    | UpdateCustomerNotFound
    | UpdateEmailFailed

  /** The order as `UpdateOrderStatus` writes it back. */
  function WithNewStatus(o: Order, newStatus: string, trackingId: string, now: int): Order {
    o.(orderStatus := newStatus, statusHistory := o.statusHistory + [StatusEntry(newStatus, now)], trackingId := trackingId)
  }

  /**
   * The order table after `UpdateOrderStatus`, from the normalised status, the trimmed tracking id, whether an
   * order id was given and the row it names; `userOk` and `emailOk` as for `Assign`.
   */
  function StatusUpdate(orders: seq<Order>, barcodes: seq<Barcode>, customers: seq<Customer>, newStatus: string,
                        tracking: string, idGiven: bool, id: nat, userOk: bool, emailOk: bool, now: int)
    : (r: Result<seq<Order>, UpdateError>)
    ensures r.Ok? ==> 1 <= id <= |orders| && r.value == Put(orders, id, WithNewStatus(orders[id - 1], newStatus, tracking, now))
  {
    if !StatusAllowed(newStatus) then Err(InvalidOrderStatus)
    else if |tracking| > MaxTrackingIdLength then Err(TrackingIdTooLong)
    else if !idGiven then Err(OrderIdRequired)
    else if !userOk then Err(UpdateUnauthenticated)
    else if Find(orders, id).None? || orders[id - 1].isDeleted then Err(UpdateOrderNotFound)
    else
      var o := orders[id - 1];
      if Lower(newStatus) == Lower(o.orderStatus) then Err(SameStatus)
      else if o.paymentStatus != Completed then Err(UpdatePaymentNotCompleted)
      else if !HasBarcode(barcodes, id) then Err(BarcodeNotAssigned)
      else if Find(customers, o.customerId).None? then Err(UpdateCustomerNotFound)
      else if !emailOk then Err(UpdateEmailFailed)
      else Ok(Put(orders, id, WithNewStatus(o, newStatus, tracking, now)))
  }

  /** `UpdateOrderStatus` from the normalised status on. */
  method ApplyStatusUpdate(db: Db, newStatus: string, tracking: string, idGiven: bool, id: nat, userOk: bool,
                           emailOk: bool, now: int)
    returns (r: Result<(), UpdateError>)
    modifies db`orders
    ensures var u := StatusUpdate(old(db.orders), db.barcodes, db.customers, newStatus, tracking, idGiven, id, userOk, emailOk, now);
            (r.Ok? <==> u.Ok?) &&
            (r.Ok? ==> db.orders == u.value) &&
            (r.Err? ==> r.error == u.error && db.orders == old(db.orders))
  {
    var allowed := ToLowerSlice(AllowedStatuses);
    var valid := Common.StringInSlice(Lower(newStatus), allowed);
    if !valid {
      return Err(InvalidOrderStatus);
    }
    if |tracking| > MaxTrackingIdLength {
      return Err(TrackingIdTooLong);
    }
    if !idGiven {
      return Err(OrderIdRequired);
    }
    if !userOk {
      return Err(UpdateUnauthenticated);
    }
    if !(1 <= id <= |db.orders|) || db.orders[id - 1].isDeleted {
      return Err(UpdateOrderNotFound);
    }
    var order := db.orders[id - 1];
    if Lower(newStatus) == Lower(order.orderStatus) {
      return Err(SameStatus);
    }
    if order.paymentStatus != Completed {
      return Err(UpdatePaymentNotCompleted);
    }
    if !HasBarcode(db.barcodes, id) {
      return Err(BarcodeNotAssigned);
    }
    if !(1 <= order.customerId <= |db.customers|) {
      return Err(UpdateCustomerNotFound);
    }
    if !emailOk {
      return Err(UpdateEmailFailed);
    }
    db.orders := Put(db.orders, id, WithNewStatus(order, newStatus, tracking, now));
    return Ok(());
  }

  /** `UpdateOrderStatus` for the raw `order_status`, `tracking_id` and `:id` inputs. */
  method UpdateOrderStatus(db: Db, status: string, trackingId: string, orderIdParam: string, userOk: bool,
                           emailOk: bool, now: int)
    returns (r: Result<(), UpdateError>)
    modifies db`orders
    ensures var u := StatusUpdate(old(db.orders), db.barcodes, db.customers, NormalizeStatus(status), TrimSpace(trackingId),
                                  orderIdParam != [], RowKey(orderIdParam), userOk, emailOk, now);
            (r.Ok? <==> u.Ok?) &&
            (r.Ok? ==> db.orders == u.value) &&
            (r.Err? ==> r.error == u.error && db.orders == old(db.orders))
  {
    var trimmed := TrimSpace(status);
    var newStatus := Title(Lower(trimmed));
    var tracking := TrimSpace(trackingId);
    r := ApplyStatusUpdate(db, newStatus, tracking, orderIdParam != [], RowKey(orderIdParam), userOk, emailOk, now);
  }

  /**
   * An accepted update stores one of the six allowed statuses, different up to case from the old one,
   * appends exactly that status to the history, stores the trimmed tracking id, and touches no other order.
   */
  lemma StatusUpdateEffect(orders: seq<Order>, barcodes: seq<Barcode>, customers: seq<Customer>, status: string,
                           trackingId: string, idGiven: bool, id: nat, userOk: bool, emailOk: bool, now: int)
    requires StatusUpdate(orders, barcodes, customers, NormalizeStatus(status), TrimSpace(trackingId), idGiven, id, userOk, emailOk, now).Ok?
    ensures var orders' := StatusUpdate(orders, barcodes, customers, NormalizeStatus(status), TrimSpace(trackingId), idGiven, id,
                                        userOk, emailOk, now).value;
            idGiven && userOk && emailOk && 1 <= id <= |orders| && |orders'| == |orders| &&
            orders[id - 1].paymentStatus == "Completed" && CountFor(barcodes, id) > 0 &&
            orders'[id - 1].orderStatus in AllowedStatuses &&
            Lower(orders'[id - 1].orderStatus) != Lower(orders[id - 1].orderStatus) &&
            orders'[id - 1].statusHistory == orders[id - 1].statusHistory + [StatusEntry(orders'[id - 1].orderStatus, now)] &&
            orders'[id - 1].trackingId == TrimSpace(trackingId) && |orders'[id - 1].trackingId| <= 50 &&
            forall k :: 0 <= k < |orders| && k != id - 1 ==> orders'[k] == orders[k]
  {
    NormalizedStatusIsCanonical(status);
    HasBarcodeIffCounted(barcodes, id);
  }

  /** There is no transition table: any allowed status other than the current one may follow it. */
  lemma AnyOtherStatusAccepted(orders: seq<Order>, barcodes: seq<Barcode>, customers: seq<Customer>, k: nat,
                               trackingId: string, id: nat, now: int)
    requires k < |AllowedStatuses| && 1 <= id <= |orders|
    requires var o := orders[id - 1];
             !o.isDeleted && o.paymentStatus == "Completed" && 1 <= o.customerId <= |customers| &&
             Lower(AllowedStatuses[k]) != Lower(o.orderStatus)
    requires CountFor(barcodes, id) > 0 && |TrimSpace(trackingId)| <= 50
    ensures StatusUpdate(orders, barcodes, customers, NormalizeStatus(AllowedStatuses[k]), TrimSpace(trackingId), true, id,
                         true, true, now).Ok?
  {
    AllowedStatusesCapitalised(k);
    HasBarcodeIffCounted(barcodes, id);
  }

  // ---------------------------------------------------------------- GetOrderCounts

  datatype OrderCounts = OrderCounts(dispatched: int, processing: int, pending: int, shipped: int, totalQuantity: int)

  /** The rows both queries range over: paid and not deleted. */
  predicate Counted(o: Order) { o.paymentStatus == Completed && !o.isDeleted }

  function CountStatus(orders: seq<Order>, status: string): nat {
    if orders == [] then 0
    else CountStatus(orders[1..], status) + (if Counted(orders[0]) && orders[0].orderStatus == status then 1 else 0)
  }

  /** `COALESCE(SUM(quantity), 0)` over the counted rows. */
  function TotalQuantity(orders: seq<Order>): int {
    if orders == [] then 0
    else TotalQuantity(orders[1..]) + (if Counted(orders[0]) then orders[0].quantity else 0)
  }

  /** `groups` is a `GROUP BY order_status` result for `orders`, in any row order. */
  ghost predicate IsGrouping(groups: seq<(string, int)>, orders: seq<Order>) {
    (forall i, j :: 0 <= i < j < |groups| ==> groups[i].0 != groups[j].0) &&
    (forall i :: 0 <= i < |groups| ==> groups[i].1 == CountStatus(orders, groups[i].0)) &&
    (forall s :: CountStatus(orders, s) > 0 ==> exists i :: 0 <= i < |groups| && groups[i].0 == s)
  }

  /** What the mapping loop keeps for one status: the count of the last group with that status, else 0. */
  function LastCount(groups: seq<(string, int)>, status: string): int {
    if groups == [] then 0
    else if groups[|groups| - 1].0 == status then groups[|groups| - 1].1
    else LastCount(groups[..|groups| - 1], status)
  }

  lemma {:induction false} LastCountOfGrouping(groups: seq<(string, int)>, status: string)
    requires forall i, j :: 0 <= i < j < |groups| ==> groups[i].0 != groups[j].0
    ensures (forall i :: 0 <= i < |groups| ==> groups[i].0 != status) ==> LastCount(groups, status) == 0
    ensures forall i :: 0 <= i < |groups| && groups[i].0 == status ==> LastCount(groups, status) == groups[i].1
    decreases |groups|
  {
    if groups != [] {
      var front := groups[..|groups| - 1];
      LastCountOfGrouping(front, status);
      forall i | 0 <= i < |groups| && groups[i].0 == status ensures LastCount(groups, status) == groups[i].1 {
        if i < |front| { assert front[i] == groups[i]; }
      }
      if forall i :: 0 <= i < |groups| ==> groups[i].0 != status {
        assert forall i :: 0 <= i < |front| ==> front[i] == groups[i];
      }
    }
  }

  /** Over a grouping, the last count seen for a status is that status's row count. */
  lemma GroupingCount(groups: seq<(string, int)>, orders: seq<Order>, status: string)
    requires IsGrouping(groups, orders)
    ensures LastCount(groups, status) == CountStatus(orders, status)
  {
    LastCountOfGrouping(groups, status);
    if CountStatus(orders, status) > 0 {
      var i :| 0 <= i < |groups| && groups[i].0 == status;
    }
  }

  /** `GetOrderCounts`: the switch over the grouped rows; statuses other than these four are ignored. */
  method GetOrderCounts(orders: seq<Order>, groups: seq<(string, int)>) returns (r: OrderCounts)
    requires IsGrouping(groups, orders)
    ensures r.dispatched == CountStatus(orders, "Dispatched") && r.processing == CountStatus(orders, "Processing")
    ensures r.pending == CountStatus(orders, "Pending") && r.shipped == CountStatus(orders, "Shipped")
    ensures r.totalQuantity == TotalQuantity(orders)
  {
    r := OrderCounts(0, 0, 0, 0, TotalQuantity(orders));
    for k := 0 to |groups|
      invariant r == OrderCounts(LastCount(groups[..k], "Dispatched"), LastCount(groups[..k], "Processing"),
                                 LastCount(groups[..k], "Pending"), LastCount(groups[..k], "Shipped"), TotalQuantity(orders))
    {
      assert groups[..k + 1][..k] == groups[..k];
      var (status, count) := groups[k];
      if status == "Dispatched" {
        r := r.(dispatched := count);
      } else if status == "Processing" {
        r := r.(processing := count);
      } else if status == "Pending" {
        r := r.(pending := count);
      } else if status == "Shipped" {
        r := r.(shipped := count);
      }
    }
    assert groups[..|groups|] == groups;
    GroupingCount(groups, orders, "Dispatched");
    GroupingCount(groups, orders, "Processing");
    GroupingCount(groups, orders, "Pending");
    GroupingCount(groups, orders, "Shipped");
  }
}
