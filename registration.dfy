/**
 * Patient kit registration: verifying a scanned barcode, and registering a patient against it. The patient
 * data arrives encrypted; it is decrypted, decoded, trimmed and validated, the barcode, customer and order
 * are looked up, the five patient fields are encrypted one by one into a new registration row, and the
 * notification emails are sent. The handler commits only after the last email, so any failure leaves the
 * registrations table unchanged.
 */
module Registration {
  import opened Wrappers
  import opened Chars
  import Numeric
  import Validation
  import Encryption
  import ManageOrders
  import opened Tables

  const BarcodeLength := 30
  const Dispatched := "Dispatched"
  /** The default `kit_status` of a new registration row. */
  const NotReceived := "Not-Received"
  const ValidGenders: seq<string> := ["male", "female", "other"]
  const MinAge := 18

  // ---------------------------------------------------------------- duplicate registrations

  /** A live registration row for the (barcode, order, customer) triple. */
  predicate Registered(r: KitRegistration, barcodeId: nat, orderId: nat, customerId: nat) {
    !r.isDeleted && r.barcodeId == barcodeId && r.orderId == orderId && r.customerId == customerId
  }

  predicate RegistrationExists(regs: seq<KitRegistration>, barcodeId: nat, orderId: nat, customerId: nat) {
    exists k :: 0 <= k < |regs| && Registered(regs[k], barcodeId, orderId, customerId)
  }

  /** The `COUNT(*)` of the duplicate query. */
  function MatchCount(regs: seq<KitRegistration>, barcodeId: nat, orderId: nat, customerId: nat): nat {
    if regs == [] then 0
    else MatchCount(regs[..|regs| - 1], barcodeId, orderId, customerId) +
         (if Registered(regs[|regs| - 1], barcodeId, orderId, customerId) then 1 else 0)
  }

  lemma {:induction false} MatchCountPositive(regs: seq<KitRegistration>, barcodeId: nat, orderId: nat, customerId: nat)
    ensures MatchCount(regs, barcodeId, orderId, customerId) > 0 <==> RegistrationExists(regs, barcodeId, orderId, customerId)
  {
    if regs != [] {
      var front := regs[..|regs| - 1];
      MatchCountPositive(front, barcodeId, orderId, customerId);
      if RegistrationExists(front, barcodeId, orderId, customerId) {
        var k :| 0 <= k < |front| && Registered(front[k], barcodeId, orderId, customerId);
        assert regs[k] == front[k];
      }
      if RegistrationExists(regs, barcodeId, orderId, customerId) && !Registered(regs[|regs| - 1], barcodeId, orderId, customerId) {
        var k :| 0 <= k < |regs| && Registered(regs[k], barcodeId, orderId, customerId);
        assert front[k] == regs[k];
      }
    }
  }

  /** `IsKitRegistrationExists`: counts the live rows for the triple. */
  method IsKitRegistrationExists(regs: seq<KitRegistration>, barcodeId: nat, orderId: nat, customerId: nat)
    returns (found: bool)
    ensures found <==> RegistrationExists(regs, barcodeId, orderId, customerId)
  {
    var count := 0;
    for k := 0 to |regs|
      invariant count == MatchCount(regs[..k], barcodeId, orderId, customerId)
    {
      assert regs[..k + 1][..k] == regs[..k];
      if Registered(regs[k], barcodeId, orderId, customerId) {
        count := count + 1;
      }
    }
    assert regs[..|regs|] == regs;
    MatchCountPositive(regs, barcodeId, orderId, customerId);
    found := count > 0;
  }

  // ---------------------------------------------------------------- VerifyBarcode

  datatype VerifyError =
    | BarcodeRequired
    | InvalidBarcodeLength(code: string)
    | InvalidBarcodeFormat(code: string)
    | NoBarcodeFound
    | AlreadyRegistered

  /** The keys of the joined row the verification returns. */
  datatype Verified = Verified(barcodeId: nat, orderId: nat, customerId: nat)

  /** Row `k` passes the verification join: a live barcode numbered `code`, on a live Dispatched order of a customer. */
  predicate DispatchedRow(barcodes: seq<Barcode>, orders: seq<Order>, customers: seq<Customer>, code: string, k: nat)
    requires k < |barcodes|
  {
    var b := barcodes[k];
    !b.isDeleted && b.barcodeNumber == code && 1 <= b.orderId <= |orders| &&
    orders[b.orderId - 1].orderStatus == Dispatched && !orders[b.orderId - 1].isDeleted &&
    1 <= orders[b.orderId - 1].customerId <= |customers|
  }

  /** The position of the first row from `k` on that passes the join. */
  function FirstDispatched(barcodes: seq<Barcode>, orders: seq<Order>, customers: seq<Customer>, code: string, k: nat)
    : (r: Option<nat>)
    requires k <= |barcodes|
    ensures r.Some? ==> k <= r.value < |barcodes| && DispatchedRow(barcodes, orders, customers, code, r.value)
    ensures r.Some? ==> forall j :: k <= j < r.value ==> !DispatchedRow(barcodes, orders, customers, code, j)
    ensures r.None? ==> forall j :: k <= j < |barcodes| ==> !DispatchedRow(barcodes, orders, customers, code, j)
    decreases |barcodes| - k
  {
    if k == |barcodes| then None
    else if DispatchedRow(barcodes, orders, customers, code, k) then Some(k)
    else FirstDispatched(barcodes, orders, customers, code, k + 1)
  }

  /** The join and the duplicate check for a code that passed the format checks. */
  function LookupCode(barcodes: seq<Barcode>, orders: seq<Order>, customers: seq<Customer>, regs: seq<KitRegistration>,
                      code: string): Result<Verified, VerifyError>
  {
    match FirstDispatched(barcodes, orders, customers, code, 0)
    case None => Err(NoBarcodeFound)
    case Some(k) =>
      var v := Verified(k + 1, barcodes[k].orderId, orders[barcodes[k].orderId - 1].customerId);
      if RegistrationExists(regs, v.barcodeId, v.orderId, v.customerId) then Err(AlreadyRegistered) else Ok(v)
  }

  /** The outcome of `VerifyBarcode` for the submitted text. */
  function Verification(barcodes: seq<Barcode>, orders: seq<Order>, customers: seq<Customer>, regs: seq<KitRegistration>,
                        input: string): Result<Verified, VerifyError>
  {
    if input == [] then Err(BarcodeRequired)
    else
      var code := TrimSpace(input);
      if |code| != BarcodeLength then Err(InvalidBarcodeLength(code))
      else if !AllAlnum(code) then Err(InvalidBarcodeFormat(code))
      else LookupCode(barcodes, orders, customers, regs, code)
  }

  /** The database part of `VerifyBarcode`. */
  method LookupBarcode(db: Db, code: string) returns (r: Result<Verified, VerifyError>)
    ensures r == LookupCode(db.barcodes, db.orders, db.customers, db.registrations, code)
  {
    var row := FirstDispatched(db.barcodes, db.orders, db.customers, code, 0);
    if row.None? {
      return Err(NoBarcodeFound);
    }
    var b := db.barcodes[row.value];
    var v := Verified(row.value + 1, b.orderId, db.orders[b.orderId - 1].customerId);
    var duplicate := IsKitRegistrationExists(db.registrations, v.barcodeId, v.orderId, v.customerId);
    if duplicate {
      return Err(AlreadyRegistered);
    }
    return Ok(v);
  }

  /** `VerifyBarcode`: a read-only transaction over the barcode, order, customer and registration tables. */
  method VerifyBarcode(db: Db, input: string) returns (r: Result<Verified, VerifyError>)
    ensures r == Verification(db.barcodes, db.orders, db.customers, db.registrations, input)
  {
    if input == [] {
      return Err(BarcodeRequired);
    }
    var code := TrimSpace(input);
    if |code| != BarcodeLength {
      return Err(InvalidBarcodeLength(code));
    }
    if !AllAlnum(code) {
      return Err(InvalidBarcodeFormat(code));
    }
    r := LookupBarcode(db, code);
  }

  /**
   * A verified barcode is a live row with the trimmed 30-character alphanumeric number, its order is live
   * and Dispatched, and the triple has no live registration yet.
   */
  lemma VerifiedKitIsDispatched(barcodes: seq<Barcode>, orders: seq<Order>, customers: seq<Customer>,
                                regs: seq<KitRegistration>, input: string)
    requires Verification(barcodes, orders, customers, regs, input).Ok?
    ensures var v := Verification(barcodes, orders, customers, regs, input).value;
            var code := TrimSpace(input);
            |code| == 30 && AllAlnum(code) &&
            1 <= v.barcodeId <= |barcodes| && barcodes[v.barcodeId - 1].barcodeNumber == code &&
            !barcodes[v.barcodeId - 1].isDeleted && barcodes[v.barcodeId - 1].orderId == v.orderId &&
            1 <= v.orderId <= |orders| && orders[v.orderId - 1].orderStatus == "Dispatched" &&
            !orders[v.orderId - 1].isDeleted && orders[v.orderId - 1].customerId == v.customerId &&
            !RegistrationExists(regs, v.barcodeId, v.orderId, v.customerId)
  {
  }

  /** A code passing the format checks is reported not found exactly when no row passes the join. */
  lemma NotFoundMeansNoDispatchedRow(barcodes: seq<Barcode>, orders: seq<Order>, customers: seq<Customer>,
                                     regs: seq<KitRegistration>, code: string)
    ensures LookupCode(barcodes, orders, customers, regs, code) == Err(NoBarcodeFound) <==>
            forall k :: 0 <= k < |barcodes| ==> !DispatchedRow(barcodes, orders, customers, code, k)
  {
    var r := FirstDispatched(barcodes, orders, customers, code, 0);
    if r.Some? {
      assert DispatchedRow(barcodes, orders, customers, code, r.value);
    }
  }

  /** A non-empty text whose trimmed form is a well-formed barcode reaches the lookup. */
  lemma WellFormedCodeIsLookedUp(barcodes: seq<Barcode>, orders: seq<Order>, customers: seq<Customer>,
                                 regs: seq<KitRegistration>, input: string)
    requires input != [] && ManageOrders.BarcodeFormat(TrimSpace(input))
    ensures Verification(barcodes, orders, customers, regs, input) == LookupCode(barcodes, orders, customers, regs, TrimSpace(input))
  {
  }

  /** With unique barcode numbers the verified row is the only row holding the number. */
  lemma VerifiedRowIsUnique(barcodes: seq<Barcode>, orders: seq<Order>, customers: seq<Customer>,
                            regs: seq<KitRegistration>, input: string, j: nat)
    requires ManageOrders.NumbersUnique(barcodes)
    requires Verification(barcodes, orders, customers, regs, input).Ok?
    requires j < |barcodes| && barcodes[j].barcodeNumber == TrimSpace(input)
    ensures Verification(barcodes, orders, customers, regs, input).value.barcodeId == j + 1
  {
    var k := FirstDispatched(barcodes, orders, customers, TrimSpace(input), 0).value;
    assert barcodes[k].barcodeNumber == barcodes[j].barcodeNumber;
  }

  // ---------------------------------------------------------------- ValidatePatientRequest

  datatype PatientError = InvalidFirstName | InvalidLastName | InvalidEmail | InvalidGender | InvalidAge

  /** `ValidatePatientRequest`: the checks in order; the first failing one decides the error. */
  function ValidatePatientRequest(firstName: string, lastName: string, gender: string, age: int, email: string)
    : (r: Option<PatientError>)
    ensures r.None? <==> Validation.IsValidFirstName(firstName) && Validation.IsValidLastName(lastName) &&
                         Validation.IsValidEmail(email) && Lower(gender) in ValidGenders && age >= MinAge
  {
    if !Validation.IsValidFirstName(firstName) then Some(InvalidFirstName)
    else if lastName != [] && !Validation.IsValidLastName(lastName) then Some(InvalidLastName)
    else if !Validation.IsValidEmail(email) then Some(InvalidEmail)
    else if Lower(gender) !in ValidGenders then Some(InvalidGender)
    else if age < MinAge then Some(InvalidAge)
    else None
  }

  /** Each error is reported only when every earlier check passed. */
  lemma PatientErrorOrder(firstName: string, lastName: string, gender: string, age: int, email: string)
    ensures var r := ValidatePatientRequest(firstName, lastName, gender, age, email);
            (r == Some(InvalidFirstName) <==> !Validation.IsValidFirstName(firstName)) &&
            (r == Some(InvalidLastName) <==> Validation.IsValidFirstName(firstName) && !Validation.IsValidLastName(lastName)) &&
            (r == Some(InvalidAge) ==> Validation.IsValidEmail(email) && Lower(gender) in ValidGenders && age < 18)
  {
  }

  // ---------------------------------------------------------------- the decrypted request

  /** The JSON object inside `patient_data`. */
  datatype PatientDetail = PatientDetail(
    firstName: string, lastName: string, email: string, gender: string, age: int,
    orderId: nat, customerId: nat, barcodeNumber: string, isClinicInform: bool)

  /** Names and email trimmed; gender lower-cased, then trimmed. The barcode number is left as sent. */
  function TrimPatient(d: PatientDetail): PatientDetail {
    d.(firstName := TrimSpace(d.firstName), lastName := TrimSpace(d.lastName),
       gender := TrimSpace(Lower(d.gender)), email := TrimSpace(d.email))
  }

  datatype RegisterError =
    | PatientDataRequired
    | DecryptFailed(cause: Encryption.CryptoError)
    | InvalidPatientDataFormat
    | InvalidPatient(reason: PatientError)
    | BarcodeOrOrderNotFound
    | CustomerNotFound
    | OrderNotFound
    | KitRegistrationExists
    | InsertFailed(cause: Encryption.CryptoError)
    | NotificationFailed(recipient: Recipient)

  /**
   * The first steps of `KitRegister`: `patient_data` is required, trimmed, decrypted and decoded by
   * `unmarshal` (JSON decoding), then trimmed field by field.
   */
  function DecodePatient(p: Encryption.Primitives, keys: Encryption.Keys, unmarshal: string -> Option<PatientDetail>,
                         patientData: string): Result<PatientDetail, RegisterError>
  {
    if patientData == [] then Err(PatientDataRequired)
    else
      match Encryption.Decrypt(p, keys, TrimSpace(patientData))
      case Err(e) => Err(DecryptFailed(e))
      case Ok(text) =>
        match unmarshal(text)
        case None => Err(InvalidPatientDataFormat)
        case Some(d) => Ok(TrimPatient(d))
  }

  /** Every character of the trimmed form of a string is one of the string's characters. */
  lemma TrimSpaceChars(s: string, i: nat)
    requires i < |TrimSpace(s)|
    ensures exists j :: 0 <= j < |s| && TrimSpace(s)[i] == s[j]
  {
    var l := TrimLeft(s);
    assert TrimSpace(s) == TrimRight(l);
    assert TrimSpace(s)[i] == l[i];
    assert l[i] == s[|s| - |l| + i];
  }

  /** Trimming a lower-cased string keeps it lower-case. */
  lemma TrimmedLowerIsLower(g: string)
    ensures Lower(TrimSpace(Lower(g))) == TrimSpace(Lower(g))
  {
    var t := TrimSpace(Lower(g));
    forall i | 0 <= i < |t| ensures ToLowerChar(t[i]) == t[i] {
      TrimSpaceChars(Lower(g), i);
    }
  }

  /** The decoded patient has trimmed names and email and a lower-case gender. */
  lemma DecodedPatientIsTrimmed(p: Encryption.Primitives, keys: Encryption.Keys, unmarshal: string -> Option<PatientDetail>,
                                patientData: string)
    requires DecodePatient(p, keys, unmarshal, patientData).Ok?
    ensures var d := DecodePatient(p, keys, unmarshal, patientData).value;
            TrimSpace(d.firstName) == d.firstName && TrimSpace(d.lastName) == d.lastName &&
            TrimSpace(d.email) == d.email && Lower(d.gender) == d.gender
  {
    var raw := unmarshal(Encryption.Decrypt(p, keys, TrimSpace(patientData)).value).value;
    TrimSpaceIdempotent(raw.firstName);
    TrimSpaceIdempotent(raw.lastName);
    TrimSpaceIdempotent(raw.email);
    TrimmedLowerIsLower(raw.gender);
  }

  /** Patient data is decoded only with two usable keys. */
  lemma DecodingNeedsUsableKeys(p: Encryption.Primitives, keys: Encryption.Keys, unmarshal: string -> Option<PatientDetail>,
                                patientData: string)
    requires DecodePatient(p, keys, unmarshal, patientData).Ok?
    ensures Encryption.GetCipher(p, keys.key1).Ok? && Encryption.GetCipher(p, keys.key2).Ok?
  {
    assert Encryption.Decrypt(p, keys, TrimSpace(patientData)).Ok?;
  }

  // ---------------------------------------------------------------- lookups

  /** `ValidateBarcodeAndOrder`: the first live barcode row (by primary key) with that number on that order. */
  function FirstBarcodeFor(barcodes: seq<Barcode>, number: string, orderId: nat, k: nat): (r: Option<nat>)
    requires k <= |barcodes|
    ensures r.Some? ==> k <= r.value < |barcodes| && !barcodes[r.value].isDeleted &&
                        barcodes[r.value].barcodeNumber == number && barcodes[r.value].orderId == orderId
    ensures r.None? ==> forall j :: k <= j < |barcodes| ==>
                          barcodes[j].isDeleted || barcodes[j].barcodeNumber != number || barcodes[j].orderId != orderId
    decreases |barcodes| - k
  {
    if k == |barcodes| then None
    else if !barcodes[k].isDeleted && barcodes[k].barcodeNumber == number && barcodes[k].orderId == orderId then Some(k)
    else FirstBarcodeFor(barcodes, number, orderId, k + 1)
  }

  /** `ValidateCustomerID` and `ValidateOrderID`: a row with that key that is not flagged deleted. */
  predicate LiveCustomer(customers: seq<Customer>, id: nat) { 1 <= id <= |customers| && !customers[id - 1].isDeleted }
  predicate LiveOrder(orders: seq<Order>, id: nat) { 1 <= id <= |orders| && !orders[id - 1].isDeleted }

  // ---------------------------------------------------------------- InsertKitRegistration

  /**
   * `InsertKitRegistration`: first name, last name, gender, age in decimal and email are encrypted one
   * at a time, in that order, and the first failure aborts; the row starts as Not-Received.
   */
  function NewRegistration(p: Encryption.Primitives, keys: Encryption.Keys, d: PatientDetail, barcodeId: nat)
    : Result<KitRegistration, Encryption.CryptoError>
  {
    match Encryption.Encrypt(p, keys, d.firstName)
    case Err(e) => Err(e)
    case Ok(first) =>
      match Encryption.Encrypt(p, keys, d.lastName)
      case Err(e) => Err(e)
      case Ok(last) =>
        match Encryption.Encrypt(p, keys, d.gender)
        case Err(e) => Err(e)
        case Ok(gender) =>
          match Encryption.Encrypt(p, keys, Numeric.Itoa(d.age))
          case Err(e) => Err(e)
          case Ok(age) =>
            match Encryption.Encrypt(p, keys, d.email)
            case Err(e) => Err(e)
            case Ok(email) =>
              Ok(KitRegistration(d.customerId, d.orderId, barcodeId, first, last, email, gender, age,
                                 NotReceived, "", "", 0, d.isClinicInform, false))
  }

  /** Encryption fails exactly when one of the two keys is unusable, whatever the field values. */
  lemma NewRegistrationFailsOnlyOnKeys(p: Encryption.Primitives, keys: Encryption.Keys, d: PatientDetail, barcodeId: nat)
    ensures NewRegistration(p, keys, d, barcodeId).Ok? <==>
            Encryption.GetCipher(p, keys.key1).Ok? && Encryption.GetCipher(p, keys.key2).Ok?
  {
  }

  /**
   * The new row holds the request's keys, status Not-Received, no lab, and each patient field encrypted
   * on its own: with sound primitives every stored field decrypts to the patient's value.
   */
  lemma NewRegistrationFields(p: Encryption.Primitives, keys: Encryption.Keys, d: PatientDetail, barcodeId: nat)
    requires Encryption.Sound(p) && NewRegistration(p, keys, d, barcodeId).Ok?
    ensures var row := NewRegistration(p, keys, d, barcodeId).value;
            row.customerId == d.customerId && row.orderId == d.orderId && row.barcodeId == barcodeId &&
            row.kitStatus == "Not-Received" && row.labId == 0 && row.reason == "" && row.filePath == "" &&
            row.isClinicInform == d.isClinicInform && !row.isDeleted &&
            Encryption.Decrypt(p, keys, row.patientFirstName) == Ok(d.firstName) &&
            Encryption.Decrypt(p, keys, row.patientLastName) == Ok(d.lastName) &&
            Encryption.Decrypt(p, keys, row.patientGender) == Ok(d.gender) &&
            Encryption.Decrypt(p, keys, row.patientAge) == Ok(Numeric.Itoa(d.age)) &&
            Encryption.Decrypt(p, keys, row.patientEmail) == Ok(d.email)
  {
    Encryption.DecryptEncrypt(p, keys, d.firstName);
    Encryption.DecryptEncrypt(p, keys, d.lastName);
    Encryption.DecryptEncrypt(p, keys, d.gender);
    Encryption.DecryptEncrypt(p, keys, Numeric.Itoa(d.age));
    Encryption.DecryptEncrypt(p, keys, d.email);
  }

  // ---------------------------------------------------------------- notification emails

  datatype Recipient = AdminRecipient | CustomerRecipient | PatientRecipient

  /** The sends in order: the admin always, the clinic customer only when asked to inform it, the patient always. */
  function EmailPlan(isClinicInform: bool): (r: seq<Recipient>)
    ensures |r| >= 2 && r[0] == AdminRecipient && r[|r| - 1] == PatientRecipient
    ensures CustomerRecipient in r <==> isClinicInform
  {
    [AdminRecipient] + (if isClinicInform then [CustomerRecipient] else []) + [PatientRecipient]
  }

  /** The position of the first send from `k` on that fails. */
  function FirstUndelivered(plan: seq<Recipient>, delivered: Recipient -> bool, k: nat): (r: Option<nat>)
    requires k <= |plan|
    ensures r.Some? ==> k <= r.value < |plan| && !delivered(plan[r.value])
    ensures r.Some? ==> forall j :: k <= j < r.value ==> delivered(plan[j])
    ensures r.None? ==> forall j :: k <= j < |plan| ==> delivered(plan[j])
    decreases |plan| - k
  {
    if k == |plan| then None
    else if !delivered(plan[k]) then Some(k)
    else FirstUndelivered(plan, delivered, k + 1)
  }

  /** The sends attempted, every send up to and including the first failure, and the recipient that failed. */
  function Emails(isClinicInform: bool, delivered: Recipient -> bool): (seq<Recipient>, Option<Recipient>) {
    var plan := EmailPlan(isClinicInform);
    match FirstUndelivered(plan, delivered, 0)
    case None => (plan, None)
    case Some(i) => (plan[..i + 1], Some(plan[i]))
  }

  /** `SendKitRegistrationNotificationEmails`: `delivered` is the outcome of a send to each recipient. */
  method SendKitRegistrationNotificationEmails(isClinicInform: bool, delivered: Recipient -> bool)
    returns (sent: seq<Recipient>, failed: Option<Recipient>)
    ensures (sent, failed) == Emails(isClinicInform, delivered)
  {
    ghost var plan := EmailPlan(isClinicInform);
    sent := [AdminRecipient];
    if !delivered(AdminRecipient) {
      assert FirstUndelivered(plan, delivered, 0) == Some(0);
      assert plan[..1] == sent;
      return sent, Some(AdminRecipient);
    }
    if isClinicInform {
      sent := sent + [CustomerRecipient];
      if !delivered(CustomerRecipient) {
        assert FirstUndelivered(plan, delivered, 0) == Some(1);
        assert plan[..2] == sent;
        return sent, Some(CustomerRecipient);
      }
    }
    sent := sent + [PatientRecipient];
    assert sent == plan;
    if !delivered(PatientRecipient) {
      assert FirstUndelivered(plan, delivered, 0) == Some(|plan| - 1);
      assert plan[..|plan|] == plan;
      return sent, Some(PatientRecipient);
    }
    assert FirstUndelivered(plan, delivered, 0) == None;
    return sent, None;
  }

  /**
   * The admin is tried first and the patient last; the clinic customer is tried only when asked to inform it;
   * the sends stop at the first failure, and the fan-out succeeds exactly when every planned send was delivered.
   */
  lemma EmailFanOut(isClinicInform: bool, delivered: Recipient -> bool)
    ensures var (sent, failed) := Emails(isClinicInform, delivered);
            var plan := EmailPlan(isClinicInform);
            sent != [] && sent[0] == AdminRecipient && (CustomerRecipient in sent ==> isClinicInform) &&
            (!delivered(AdminRecipient) ==> sent == [AdminRecipient]) &&
            (failed.None? <==> forall i :: 0 <= i < |plan| ==> delivered(plan[i])) &&
            (failed.None? ==> sent == plan) &&
            (failed.Some? ==> failed.value == sent[|sent| - 1] && !delivered(failed.value) &&
                              forall i :: 0 <= i < |sent| - 1 ==> delivered(sent[i]))
  {
    var plan := EmailPlan(isClinicInform);
    match FirstUndelivered(plan, delivered, 0)
    case None =>
    case Some(i) =>
      assert CustomerRecipient in plan[..i + 1] ==> CustomerRecipient in plan;
      assert !delivered(plan[i]);
  }

  // ---------------------------------------------------------------- KitRegister

  /** The registration's result and the emails attempted on the way. */
  datatype Outcome = Outcome(result: Result<KitRegistration, RegisterError>, sent: seq<Recipient>)

  /**
   * The checks of `KitRegister` after decoding: validation, the barcode/order, customer and order lookups,
   * and the duplicate check (a failed duplicate query counts as a duplicate). The order's status is not
   * looked at. The result is the barcode row's key.
   */
  function PatientChecks(customers: seq<Customer>, orders: seq<Order>, barcodes: seq<Barcode>, regs: seq<KitRegistration>,
                         d: PatientDetail, lookupFails: bool): Result<nat, RegisterError>
  {
    match ValidatePatientRequest(d.firstName, d.lastName, d.gender, d.age, d.email)
    case Some(e) => Err(InvalidPatient(e))
    case None =>
      match FirstBarcodeFor(barcodes, d.barcodeNumber, d.orderId, 0)
      case None => Err(BarcodeOrOrderNotFound)
      case Some(k) =>
        if !LiveCustomer(customers, d.customerId) then Err(CustomerNotFound)
        else if !LiveOrder(orders, d.orderId) then Err(OrderNotFound)
        else if lookupFails || RegistrationExists(regs, k + 1, d.orderId, d.customerId) then Err(KitRegistrationExists)
        else Ok(k + 1)
  }

  /** The emails after the insert: the row is kept only if every send succeeds. */
  function Notify(row: KitRegistration, isClinicInform: bool, delivered: Recipient -> bool): Outcome {
    var (sent, failed) := Emails(isClinicInform, delivered);
    if failed.Some? then Outcome(Err(NotificationFailed(failed.value)), sent) else Outcome(Ok(row), sent)
  }

  /** The five encryptions, then the emails. */
  function InsertAndNotify(p: Encryption.Primitives, keys: Encryption.Keys, d: PatientDetail, barcodeId: nat,
                           delivered: Recipient -> bool): Outcome
  {
    match NewRegistration(p, keys, d, barcodeId)
    case Err(e) => Outcome(Err(InsertFailed(e)), [])
    case Ok(row) => Notify(row, d.isClinicInform, delivered)
  }

  /** `KitRegister` from the decoded patient on: the checks, the five encryptions, then the emails. */
  function RegisterPatient(customers: seq<Customer>, orders: seq<Order>, barcodes: seq<Barcode>, regs: seq<KitRegistration>,
                           p: Encryption.Primitives, keys: Encryption.Keys, d: PatientDetail, lookupFails: bool,
                           delivered: Recipient -> bool): Outcome
  {
    match PatientChecks(customers, orders, barcodes, regs, d, lookupFails)
    case Err(e) => Outcome(Err(e), [])
    case Ok(barcodeId) => InsertAndNotify(p, keys, d, barcodeId, delivered)
  }

  /** The checks, reading the tables; the duplicate count is the counting loop. */
  method CheckPatient(db: Db, d: PatientDetail, lookupFails: bool) returns (r: Result<nat, RegisterError>)
    ensures r == PatientChecks(db.customers, db.orders, db.barcodes, db.registrations, d, lookupFails)
  {
    var invalid := ValidatePatientRequest(d.firstName, d.lastName, d.gender, d.age, d.email);
    if invalid.Some? {
      return Err(InvalidPatient(invalid.value));
    }
    var barcode := FirstBarcodeFor(db.barcodes, d.barcodeNumber, d.orderId, 0);
    if barcode.None? {
      return Err(BarcodeOrOrderNotFound);
    }
    var barcodeId := barcode.value + 1;
    if !LiveCustomer(db.customers, d.customerId) {
      return Err(CustomerNotFound);
    }
    if !LiveOrder(db.orders, d.orderId) {
      return Err(OrderNotFound);
    }
    var duplicate := IsKitRegistrationExists(db.registrations, barcodeId, d.orderId, d.customerId);
    if lookupFails || duplicate {
      return Err(KitRegistrationExists);
    }
    return Ok(barcodeId);
  }

  /** `InsertKitRegistration` and the emails; the new row is written only after the last email. */
  method InsertRegistration(db: Db, p: Encryption.Primitives, keys: Encryption.Keys, d: PatientDetail, barcodeId: nat,
                            delivered: Recipient -> bool)
    returns (r: Result<(), RegisterError>, sent: seq<Recipient>)
    modifies db`registrations
    ensures var o := InsertAndNotify(p, keys, d, barcodeId, delivered);
            sent == o.sent && (r.Ok? <==> o.result.Ok?) &&
            (r.Ok? ==> db.registrations == old(db.registrations) + [o.result.value]) &&
            (r.Err? ==> r.error == o.result.error && db.registrations == old(db.registrations))
  {
    var row := NewRegistration(p, keys, d, barcodeId);
    if row.Err? {
      return Err(InsertFailed(row.error)), [];
    }
    var failed;
    sent, failed := SendKitRegistrationNotificationEmails(d.isClinicInform, delivered);
    if failed.Some? {
      return Err(NotificationFailed(failed.value)), sent;
    }
    db.registrations := db.registrations + [row.value];
    return Ok(()), sent;
  }

  /** `KitRegister` from the decoded patient on. */
  method RegisterDecoded(db: Db, p: Encryption.Primitives, keys: Encryption.Keys, d: PatientDetail, lookupFails: bool,
                         delivered: Recipient -> bool)
    returns (r: Result<(), RegisterError>, sent: seq<Recipient>)
    modifies db`registrations
    ensures var o := RegisterPatient(db.customers, db.orders, db.barcodes, old(db.registrations), p, keys, d, lookupFails, delivered);
            sent == o.sent && (r.Ok? <==> o.result.Ok?) &&
            (r.Ok? ==> db.registrations == old(db.registrations) + [o.result.value]) &&
            (r.Err? ==> r.error == o.result.error && db.registrations == old(db.registrations))
  {
    var checked := CheckPatient(db, d, lookupFails);
    if checked.Err? {
      return Err(checked.error), [];
    }
    r, sent := InsertRegistration(db, p, keys, d, checked.value, delivered);
  }

  /** `KitRegister` for the raw `patient_data` text. */
  method KitRegister(db: Db, p: Encryption.Primitives, keys: Encryption.Keys, unmarshal: string -> Option<PatientDetail>,
                     patientData: string, lookupFails: bool, delivered: Recipient -> bool)
    returns (r: Result<(), RegisterError>, sent: seq<Recipient>)
    modifies db`registrations
    ensures match DecodePatient(p, keys, unmarshal, patientData)
            case Err(e) => r == Err(e) && sent == [] && db.registrations == old(db.registrations)
            case Ok(d) =>
              var o := RegisterPatient(db.customers, db.orders, db.barcodes, old(db.registrations), p, keys, d, lookupFails, delivered);
              sent == o.sent && (r.Ok? <==> o.result.Ok?) &&
              (r.Ok? ==> db.registrations == old(db.registrations) + [o.result.value]) &&
              (r.Err? ==> r.error == o.result.error && db.registrations == old(db.registrations))
  {
    var decoded := DecodePatient(p, keys, unmarshal, patientData);
    if decoded.Err? {
      return Err(decoded.error), [];
    }
    r, sent := RegisterDecoded(db, p, keys, decoded.value, lookupFails, delivered);
  }

  /** The checks pass only for a valid patient, a live barcode on the sent order, a live customer and order, and no duplicate. */
  lemma ChecksPassed(customers: seq<Customer>, orders: seq<Order>, barcodes: seq<Barcode>, regs: seq<KitRegistration>,
                     d: PatientDetail, lookupFails: bool)
    requires PatientChecks(customers, orders, barcodes, regs, d, lookupFails).Ok?
    ensures var id := PatientChecks(customers, orders, barcodes, regs, d, lookupFails).value;
            ValidatePatientRequest(d.firstName, d.lastName, d.gender, d.age, d.email).None? &&
            1 <= id <= |barcodes| && !barcodes[id - 1].isDeleted &&
            barcodes[id - 1].barcodeNumber == d.barcodeNumber && barcodes[id - 1].orderId == d.orderId &&
            LiveCustomer(customers, d.customerId) && LiveOrder(orders, d.orderId) && !lookupFails &&
            !RegistrationExists(regs, id, d.orderId, d.customerId)
  {
  }

  /** The new row's keys and initial state, whatever the encryption produced. */
  lemma NewRegistrationShape(p: Encryption.Primitives, keys: Encryption.Keys, d: PatientDetail, barcodeId: nat)
    requires NewRegistration(p, keys, d, barcodeId).Ok?
    ensures var row := NewRegistration(p, keys, d, barcodeId).value;
            row.customerId == d.customerId && row.orderId == d.orderId && row.barcodeId == barcodeId &&
            row.kitStatus == "Not-Received" && row.labId == 0 && row.reason == "" && row.filePath == "" &&
            row.isClinicInform == d.isClinicInform && !row.isDeleted
  {
  }

  /**
   * An accepted registration passed every check, every email was delivered, and the row is the
   * Not-Received row for the triple.
   */
  lemma RegistrationAccepted(customers: seq<Customer>, orders: seq<Order>, barcodes: seq<Barcode>, regs: seq<KitRegistration>,
                             p: Encryption.Primitives, keys: Encryption.Keys, d: PatientDetail, lookupFails: bool,
                             delivered: Recipient -> bool)
    requires RegisterPatient(customers, orders, barcodes, regs, p, keys, d, lookupFails, delivered).result.Ok?
    ensures var row := RegisterPatient(customers, orders, barcodes, regs, p, keys, d, lookupFails, delivered).result.value;
            PatientChecks(customers, orders, barcodes, regs, d, lookupFails) == Ok(row.barcodeId) &&
            NewRegistration(p, keys, d, row.barcodeId) == Ok(row) &&
            row.customerId == d.customerId && row.orderId == d.orderId && row.kitStatus == "Not-Received" &&
            forall i :: 0 <= i < |EmailPlan(d.isClinicInform)| ==> delivered(EmailPlan(d.isClinicInform)[i])
  {
    var id := PatientChecks(customers, orders, barcodes, regs, d, lookupFails).value;
    NewRegistrationShape(p, keys, d, id);
    EmailFanOut(d.isClinicInform, delivered);
  }

  /** Once a registration is stored, the same request is refused as a duplicate. */
  lemma RegisteringTwiceRefused(customers: seq<Customer>, orders: seq<Order>, barcodes: seq<Barcode>, regs: seq<KitRegistration>,
                                p: Encryption.Primitives, keys: Encryption.Keys, d: PatientDetail,
                                delivered: Recipient -> bool, lookupFails': bool, delivered': Recipient -> bool)
    requires RegisterPatient(customers, orders, barcodes, regs, p, keys, d, false, delivered).result.Ok?
    ensures var row := RegisterPatient(customers, orders, barcodes, regs, p, keys, d, false, delivered).result.value;
            RegisterPatient(customers, orders, barcodes, regs + [row], p, keys, d, lookupFails', delivered').result ==
            Err(KitRegistrationExists)
  {
    var row := RegisterPatient(customers, orders, barcodes, regs, p, keys, d, false, delivered).result.value;
    var regs' := regs + [row];
    assert Registered(regs'[|regs|], row.barcodeId, d.orderId, d.customerId);
  }

  /** Registration does not re-check Dispatched: the outcome is the same whatever status the order holds. */
  lemma RegistrationIgnoresOrderStatus(customers: seq<Customer>, orders: seq<Order>, barcodes: seq<Barcode>,
                                       regs: seq<KitRegistration>, p: Encryption.Primitives, keys: Encryption.Keys,
                                       d: PatientDetail, lookupFails: bool, delivered: Recipient -> bool, status: string)
    requires 1 <= d.orderId <= |orders|
    ensures var orders' := orders[d.orderId - 1 := orders[d.orderId - 1].(orderStatus := status)];
            RegisterPatient(customers, orders', barcodes, regs, p, keys, d, lookupFails, delivered) ==
            RegisterPatient(customers, orders, barcodes, regs, p, keys, d, lookupFails, delivered)
  {
    var orders' := orders[d.orderId - 1 := orders[d.orderId - 1].(orderStatus := status)];
    assert LiveOrder(orders', d.orderId) == LiveOrder(orders, d.orderId);
  }

  /** With two usable keys the five encryptions of the insert cannot fail. */
  lemma UsableKeysNeverFailToEncrypt(customers: seq<Customer>, orders: seq<Order>, barcodes: seq<Barcode>,
                                     regs: seq<KitRegistration>, p: Encryption.Primitives, keys: Encryption.Keys,
                                     d: PatientDetail, lookupFails: bool, delivered: Recipient -> bool)
    requires Encryption.GetCipher(p, keys.key1).Ok? && Encryption.GetCipher(p, keys.key2).Ok?
    ensures var o := RegisterPatient(customers, orders, barcodes, regs, p, keys, d, lookupFails, delivered);
            o.result.Err? ==> !o.result.error.InsertFailed?
  {
    match PatientChecks(customers, orders, barcodes, regs, d, lookupFails)
    case Err(_) =>
    case Ok(barcodeId) => NewRegistrationFailsOnlyOnKeys(p, keys, d, barcodeId);
  }

  /** So a registration whose patient data decrypted never fails at the insert. */
  lemma DecodedDataNeverFailsToEncrypt(customers: seq<Customer>, orders: seq<Order>, barcodes: seq<Barcode>,
                                       regs: seq<KitRegistration>, p: Encryption.Primitives, keys: Encryption.Keys,
                                       unmarshal: string -> Option<PatientDetail>, patientData: string, lookupFails: bool,
                                       delivered: Recipient -> bool)
    requires DecodePatient(p, keys, unmarshal, patientData).Ok?
    ensures var o := RegisterPatient(customers, orders, barcodes, regs, p, keys, DecodePatient(p, keys, unmarshal, patientData).value,
                                     lookupFails, delivered);
            o.result.Err? ==> !o.result.error.InsertFailed?
  {
    DecodingNeedsUsableKeys(p, keys, unmarshal, patientData);
    UsableKeysNeverFailToEncrypt(customers, orders, barcodes, regs, p, keys, DecodePatient(p, keys, unmarshal, patientData).value,
                                 lookupFails, delivered);
  }
}
