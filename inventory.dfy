/**
 * Kit inventory: the quantity carried by a request, the checks on a new kit and on a partial update, the
 * new row, the update that replaces only the supplied fields, the list of changes its notification
 * reports, the soft delete, and the blood and saliva stock summary.
 */
module Inventory {
  import opened Wrappers
  import opened Chars
  import Numeric
  import Validation
  import opened Tables
  import PostOrders

  // ---------------------------------------------------------------- the quantity

  /**
   * The dynamic value a decoded `quantity` holds: text, a JSON number, a Go `int`, any other JSON value,
   * or nothing (absent or `null`).
   */
  datatype QuantityValue = QText(s: string) | QNumber(x: real) | QInt(n: int) | QOther | QAbsent

  datatype KitError =
    | QuantityEmpty
    | QuantityFormat
    | QuantityType
    | AllFieldsRequired
    | InvalidKitType
    | InvalidSupplierName
    | InvalidContactNumber
    | InvalidAddress
    | QuantityNegative
    | QuantityTooLarge
    | TypeEmpty
    | SupplierNameEmpty

  /** Go's `int(v)` on a float64: truncation toward zero. */
  function Truncate(x: real): (n: int)
    ensures x >= 0.0 ==> n as real <= x < n as real + 1.0
    ensures x < 0.0 ==> n as real - 1.0 < x <= n as real
  {
    if x >= 0.0 then x.Floor else -((-x).Floor)
  }

  /** `parseQuantity`. */
  function ParseQuantity(value: QuantityValue): (r: Result<int, KitError>)
    ensures value == QText("") ==> r == Err(QuantityEmpty)
    ensures value.QText? && value.s != "" ==> (r.Ok? <==> Numeric.Atoi(value.s).Some?)
    ensures value.QText? && r.Ok? ==> Some(r.value) == Numeric.Atoi(value.s)
    ensures value.QText? && value.s != "" && r.Err? ==> r.error == QuantityFormat
    ensures value.QInt? ==> r == Ok(value.n)
    ensures value.QNumber? ==> r.Ok? && (r.value as real <= value.x < r.value as real + 1.0 ||
                                         r.value as real - 1.0 < value.x <= r.value as real)
    ensures value.QOther? || value.QAbsent? ==> r == Err(QuantityType)
  {
    match value
    case QText(s) =>
      if s == "" then Err(QuantityEmpty)
      else if Numeric.Atoi(s).None? then Err(QuantityFormat)
      else Ok(Numeric.Atoi(s).value)
    case QNumber(x) => Ok(Truncate(x))
    case QInt(n) => Ok(n)
    case _ => Err(QuantityType)
  }

  const MaxQuantity: int := 999999

  /** The range check both validators apply to a parsed quantity. */
  function QuantityInRange(value: QuantityValue): (r: Option<KitError>)
    ensures r.None? <==> ParseQuantity(value).Ok? && 0 <= ParseQuantity(value).value <= MaxQuantity
  {
    match ParseQuantity(value)
    case Err(e) => Some(e)
    case Ok(q) => if q < 0 then Some(QuantityNegative) else if q > MaxQuantity then Some(QuantityTooLarge) else None
  }

  /** Every integer in range written in decimal text is accepted as that quantity. */
  lemma QuantityTextRoundTrip(n: int)
    requires 0 <= n <= MaxQuantity
    ensures ParseQuantity(QText(Numeric.Itoa(n))) == Ok(n)
    ensures QuantityInRange(QText(Numeric.Itoa(n))) == None
  {
    Numeric.AtoiOfItoa(n);
  }

  // ---------------------------------------------------------------- a new kit

  datatype KitRequest = KitRequest(
    kitType: string, supplierName: string, supplierContactNumber: string, supplierAddress: string,
    quantity: QuantityValue)

  /** The request with its four text fields trimmed. */
  function TrimKitRequest(req: KitRequest): (r: KitRequest)
  {
    req.(kitType := TrimSpace(req.kitType), supplierName := TrimSpace(req.supplierName),
         supplierContactNumber := TrimSpace(req.supplierContactNumber), supplierAddress := TrimSpace(req.supplierAddress))
  }

  /** An optional address is empty or 5 to 100 bytes long. */
  predicate AddressRule(address: string) { address == "" || 5 <= |address| <= 100 }

  /** What a valid new kit request satisfies. */
  predicate KitRequestRule(req: KitRequest)
  {
    req.kitType in {"blood", "saliva"} && Validation.SupplierNameRule(req.supplierName) &&
    (req.supplierContactNumber == "" || Validation.IsValidContactNumber(req.supplierContactNumber)) &&
    AddressRule(req.supplierAddress) && QuantityInRange(req.quantity).None?
  }

  /** The error `validateKitRequest` reports first, if any. */
  function KitRequestError(req: KitRequest): (r: Option<KitError>)
    ensures r.None? <==> KitRequestRule(req)
    ensures req.kitType == "" || req.supplierName == "" ==> r == Some(AllFieldsRequired)
    ensures r == Some(InvalidContactNumber) || r == Some(InvalidAddress) ==>
              req.kitType in {"blood", "saliva"} && Validation.SupplierNameRule(req.supplierName)
  {
    if req.kitType == "" || req.supplierName == "" then Some(AllFieldsRequired)
    else if !Validation.IsValidKitType(req.kitType) then Some(InvalidKitType)
    else if !Validation.SupplierNameRule(req.supplierName) then Some(InvalidSupplierName)
    else if req.supplierContactNumber != "" && !Validation.IsValidContactNumber(req.supplierContactNumber) then Some(InvalidContactNumber)
    else if req.supplierAddress != "" && (|req.supplierAddress| < 5 || |req.supplierAddress| > 100) then Some(InvalidAddress)
    else QuantityInRange(req.quantity)
  }

  /** `validateKitRequest`: the checks in order; the supplier name goes through the character scan. */
  method ValidateKitRequest(req: KitRequest) returns (r: Option<KitError>)
    ensures r == KitRequestError(req)
  {
    if req.kitType == "" || req.supplierName == "" {
      return Some(AllFieldsRequired);
    }
    if !Validation.IsValidKitType(req.kitType) {
      return Some(InvalidKitType);
    }
    var nameOk := Validation.IsValidSupplierName(req.supplierName);
    if !nameOk {
      return Some(InvalidSupplierName);
    }
    if req.supplierContactNumber != "" && !Validation.IsValidContactNumber(req.supplierContactNumber) {
      return Some(InvalidContactNumber);
    }
    if req.supplierAddress != "" && (|req.supplierAddress| < 5 || |req.supplierAddress| > 100) {
      return Some(InvalidAddress);
    }
    return QuantityInRange(req.quantity);
  }

  /** `createKitModel`: an active, undeleted kit owned by the caller. */
  function CreateKitModel(req: KitRequest, quantity: int, userId: nat, now: int): (k: Kit)
    ensures k.status && !k.isDeleted && k.createdBy == userId && k.quantity == quantity
    ensures k.kitType == req.kitType && k.supplierName == req.supplierName &&
            k.supplierContactNumber == req.supplierContactNumber && k.supplierAddress == req.supplierAddress
  {
    Kit(req.kitType, quantity, req.supplierName, req.supplierContactNumber, req.supplierAddress, userId, true, false, now, now)
  }

  datatype HandlerError = Unauthenticated | InvalidKitId | BadBody | Invalid(e: KitError) | KitNotFound

  /** `parseAndValidateKitRequest` after the body is decoded: trim, validate, parse the quantity. */
  function ParsedKitRequest(body: Option<KitRequest>): (r: Result<(KitRequest, int), HandlerError>)
    ensures r.Ok? ==> body.Some? && r.value.0 == TrimKitRequest(body.value) && KitRequestRule(r.value.0) &&
                      ParseQuantity(body.value.quantity) == Ok(r.value.1) && 0 <= r.value.1 <= MaxQuantity
  {
    if body.None? then Err(BadBody)
    else
      var req := TrimKitRequest(body.value);
      match KitRequestError(req)
      case Some(e) => Err(Invalid(e))
      case None => Ok((req, ParseQuantity(req.quantity).value))
  }

  /** `CreateKitHandler`: the signed-in user must be a live user; the new kit is appended. */
  function CreateKitOutcome(kits: seq<Kit>, user: Option<nat>, userLive: bool, body: Option<KitRequest>, now: int)
    : (r: (Result<(), HandlerError>, seq<Kit>))
    ensures r.0.Err? ==> r.1 == kits
    ensures r.0.Ok? ==> user.Some? && userLive && ParsedKitRequest(body).Ok? &&
                        var (req, q) := ParsedKitRequest(body).value;
                        r.1 == kits + [CreateKitModel(req, q, user.value, now)]
  {
    if user.None? || !userLive then (Err(Unauthenticated), kits)
    else
      match ParsedKitRequest(body)
      case Err(e) => (Err(e), kits)
      case Ok(parsed) => (Ok(()), kits + [CreateKitModel(parsed.0, parsed.1, user.value, now)])
  }

  method CreateKitHandler(db: Db, user: Option<nat>, userLive: bool, body: Option<KitRequest>, now: int)
    returns (r: Result<(), HandlerError>)
    modifies db`kits
    ensures (r, db.kits) == CreateKitOutcome(old(db.kits), user, userLive, body, now)
  {
    if user.None? || !userLive {
      return Err(Unauthenticated);
    }
    if body.None? {
      return Err(BadBody);
    }
    var req := TrimKitRequest(body.value);
    var invalid := ValidateKitRequest(req);
    if invalid.Some? {
      return Err(Invalid(invalid.value));
    }
    var quantity := ParseQuantity(req.quantity);
    db.kits := db.kits + [CreateKitModel(req, quantity.value, user.value, now)];
    return Ok(());
  }

  // ---------------------------------------------------------------- a partial update

  /** `KitUpdateRequest`: every field may be left out. */
  datatype KitUpdate = KitUpdate(
    kitType: Option<string>, supplierName: Option<string>, supplierContactNumber: Option<string>,
    supplierAddress: Option<string>, quantity: QuantityValue, status: Option<bool>)

  function TrimOption(s: Option<string>): Option<string>
  {
    match s
    case None => None
    case Some(t) => Some(TrimSpace(t))
  }

  /** `trimKitUpdateRequestStrings`: each supplied text field trimmed. */
  function TrimKitUpdate(req: KitUpdate): (r: KitUpdate)
    ensures r.quantity == req.quantity && r.status == req.status
    ensures r.kitType.Some? <==> req.kitType.Some?
    ensures r.supplierName.Some? <==> req.supplierName.Some?
    ensures r.supplierContactNumber.Some? <==> req.supplierContactNumber.Some?
    ensures r.supplierAddress.Some? <==> req.supplierAddress.Some?
  {
    req.(kitType := TrimOption(req.kitType), supplierName := TrimOption(req.supplierName),
         supplierContactNumber := TrimOption(req.supplierContactNumber), supplierAddress := TrimOption(req.supplierAddress))
  }

  /** What a valid update satisfies: every supplied field is valid on its own. */
  predicate KitUpdateRule(req: KitUpdate)
  {
    (req.kitType.Some? ==> req.kitType.value in {"blood", "saliva"}) &&
    (req.supplierName.Some? ==> Validation.SupplierNameRule(req.supplierName.value)) &&
    (req.supplierContactNumber.Some? && req.supplierContactNumber.value != "" ==>
       Validation.IsValidContactNumber(req.supplierContactNumber.value)) &&
    (req.supplierAddress.Some? ==> AddressRule(req.supplierAddress.value)) &&
    (!req.quantity.QAbsent? ==> QuantityInRange(req.quantity).None?)
  }

  /** The error `validateKitUpdateRequest` reports first, if any. */
  function KitUpdateError(req: KitUpdate): (r: Option<KitError>)
    ensures r.None? <==> KitUpdateRule(req)
    ensures req.kitType == Some("") ==> r == Some(TypeEmpty)
    ensures req == KitUpdate(None, None, None, None, QAbsent, req.status) ==> r.None?
  {
    if req.kitType.Some? && req.kitType.value == "" then Some(TypeEmpty)
    else if req.kitType.Some? && !Validation.IsValidKitType(req.kitType.value) then Some(InvalidKitType)
    else if req.supplierName.Some? && req.supplierName.value == "" then Some(SupplierNameEmpty)
    else if req.supplierName.Some? && !Validation.SupplierNameRule(req.supplierName.value) then Some(InvalidSupplierName)
    else if req.supplierContactNumber.Some? && req.supplierContactNumber.value != "" &&
            !Validation.IsValidContactNumber(req.supplierContactNumber.value) then Some(InvalidContactNumber)
    else if req.supplierAddress.Some? && req.supplierAddress.value != "" &&
            (|req.supplierAddress.value| < 5 || |req.supplierAddress.value| > 100) then Some(InvalidAddress)
    else if !req.quantity.QAbsent? then QuantityInRange(req.quantity)
    else None
  }

  /** `validateKitUpdateRequest`. */
  method ValidateKitUpdateRequest(req: KitUpdate) returns (r: Option<KitError>)
    ensures r == KitUpdateError(req)
  {
    if req.kitType.Some? {
      if req.kitType.value == "" {
        return Some(TypeEmpty);
      }
      if !Validation.IsValidKitType(req.kitType.value) {
        return Some(InvalidKitType);
      }
    }
    if req.supplierName.Some? {
      if req.supplierName.value == "" {
        return Some(SupplierNameEmpty);
      }
      var nameOk := Validation.IsValidSupplierName(req.supplierName.value);
      if !nameOk {
        return Some(InvalidSupplierName);
      }
    }
    if req.supplierContactNumber.Some? && req.supplierContactNumber.value != "" {
      if !Validation.IsValidContactNumber(req.supplierContactNumber.value) {
        return Some(InvalidContactNumber);
      }
    }
    if req.supplierAddress.Some? && req.supplierAddress.value != "" {
      if |req.supplierAddress.value| < 5 || |req.supplierAddress.value| > 100 {
        return Some(InvalidAddress);
      }
    }
    if !req.quantity.QAbsent? {
      return QuantityInRange(req.quantity);
    }
    return None;
  }

  /** The quantity `updateKitFields` stores: the current one when none is supplied, 0 when it does not parse. */
  function StoredQuantity(current: int, value: QuantityValue): (n: int)
    ensures value.QAbsent? ==> n == current
    ensures !value.QAbsent? && ParseQuantity(value).Ok? ==> n == ParseQuantity(value).value
  {
    if value.QAbsent? then current
    else match ParseQuantity(value) case Ok(q) => q case Err(_) => 0
  }

  /** `updateKitFields`: a parse failure of the quantity, excluded by the validation, would store 0. */
  function UpdateKitFields(kit: Kit, req: KitUpdate): (k: Kit)
    ensures k.kitType == (if req.kitType.Some? then req.kitType.value else kit.kitType)
    ensures k.supplierName == (if req.supplierName.Some? then req.supplierName.value else kit.supplierName)
    ensures k.supplierContactNumber ==
            (if req.supplierContactNumber.Some? then req.supplierContactNumber.value else kit.supplierContactNumber)
    ensures k.supplierAddress == (if req.supplierAddress.Some? then req.supplierAddress.value else kit.supplierAddress)
    ensures k.status == (if req.status.Some? then req.status.value else kit.status)
    ensures req.quantity.QAbsent? ==> k.quantity == kit.quantity
    ensures !req.quantity.QAbsent? && ParseQuantity(req.quantity).Ok? ==> k.quantity == ParseQuantity(req.quantity).value
    ensures k.createdBy == kit.createdBy && k.isDeleted == kit.isDeleted &&
            k.createdAt == kit.createdAt && k.updatedAt == kit.updatedAt
  {
    var quantity := StoredQuantity(kit.quantity, req.quantity);
    kit.(kitType := if req.kitType.Some? then req.kitType.value else kit.kitType,
         quantity := quantity,
         status := if req.status.Some? then req.status.value else kit.status,
         supplierName := if req.supplierName.Some? then req.supplierName.value else kit.supplierName,
         supplierContactNumber := if req.supplierContactNumber.Some? then req.supplierContactNumber.value else kit.supplierContactNumber,
         supplierAddress := if req.supplierAddress.Some? then req.supplierAddress.value else kit.supplierAddress)
  }

  /** An update that supplies nothing leaves the kit as it was. */
  lemma EmptyUpdateChangesNothing(kit: Kit)
    ensures UpdateKitFields(kit, KitUpdate(None, None, None, None, QAbsent, None)) == kit
  {
  }

  /** Applying the same update twice is the same as applying it once. */
  lemma UpdateIdempotent(kit: Kit, req: KitUpdate)
    ensures UpdateKitFields(UpdateKitFields(kit, req), req) == UpdateKitFields(kit, req)
  {
  }

  // ---------------------------------------------------------------- the change list

  function BoolText(b: bool): string { if b then "true" else "false" }

  /** `getKitChanges`: one sentence per changed field, in field order. */
  function GetKitChanges(oldKit: Kit, newKit: Kit): (r: seq<string>)
    ensures |r| <= 6
  {
    (if oldKit.kitType != newKit.kitType then ["Type changed from " + oldKit.kitType + " to " + newKit.kitType] else []) +
    (if oldKit.quantity != newKit.quantity
     then ["Quantity changed from " + Numeric.Itoa(oldKit.quantity) + " to " + Numeric.Itoa(newKit.quantity)] else []) +
    (if oldKit.status != newKit.status
     then ["Status changed from " + BoolText(oldKit.status) + " to " + BoolText(newKit.status)] else []) +
    (if oldKit.supplierName != newKit.supplierName
     then ["Supplier changed from " + oldKit.supplierName + " to " + newKit.supplierName] else []) +
    (if oldKit.supplierContactNumber != newKit.supplierContactNumber then ["Supplier contact number updated"] else []) +
    (if oldKit.supplierAddress != newKit.supplierAddress then ["Supplier address updated"] else [])
  }

  /** The six columns the change list compares agree. */
  predicate SameReportedFields(a: Kit, b: Kit)
  {
    a.kitType == b.kitType && a.quantity == b.quantity && a.status == b.status &&
    a.supplierName == b.supplierName && a.supplierContactNumber == b.supplierContactNumber &&
    a.supplierAddress == b.supplierAddress
  }

  /** The change list is empty exactly when none of the six columns changed, so then no notification is sent. */
  lemma NoChangesIffSame(oldKit: Kit, newKit: Kit)
    ensures GetKitChanges(oldKit, newKit) == [] <==> SameReportedFields(oldKit, newKit)
  {
    if !SameReportedFields(oldKit, newKit) {
      var r := GetKitChanges(oldKit, newKit);
      assert |r| > 0;
    }
  }

  /** The change list has one sentence per changed column. */
  lemma ChangeCount(oldKit: Kit, newKit: Kit)
    ensures |GetKitChanges(oldKit, newKit)| ==
            (if oldKit.kitType != newKit.kitType then 1 else 0) + (if oldKit.quantity != newKit.quantity then 1 else 0) +
            (if oldKit.status != newKit.status then 1 else 0) + (if oldKit.supplierName != newKit.supplierName then 1 else 0) +
            (if oldKit.supplierContactNumber != newKit.supplierContactNumber then 1 else 0) +
            (if oldKit.supplierAddress != newKit.supplierAddress then 1 else 0)
  {
  }

  // ---------------------------------------------------------------- update and delete handlers

  predicate LiveKit(kits: seq<Kit>, id: nat) { 1 <= id <= |kits| && !kits[id - 1].isDeleted }

  /**
   * `UpdateKitHandler`: caller, id, caller still live, body, trimmed and validated, a live kit; the kit is
   * saved with the supplied fields replaced and a new update time. The second component is the change list
   * the notification would report.
   */
  function UpdateKitOutcome(kits: seq<Kit>, user: Option<nat>, idParam: string, userLive: bool, body: Option<KitUpdate>,
                            now: int): (r: (Result<seq<string>, HandlerError>, seq<Kit>))
    ensures r.0.Err? ==> r.1 == kits
    ensures r.0.Ok? ==> PostOrders.ParseUint(idParam).Some?
    ensures r.0.Ok? ==> var id := PostOrders.ParseUint(idParam).value;
                        LiveKit(kits, id) && body.Some? &&
                        KitUpdateRule(TrimKitUpdate(body.value)) &&
                        r.1 == Put(kits, id, UpdateKitFields(kits[id - 1], TrimKitUpdate(body.value)).(updatedAt := now)) &&
                        r.0.value == GetKitChanges(kits[id - 1], r.1[id - 1])
  {
    if user.None? then (Err(Unauthenticated), kits)
    else
      match PostOrders.ParseUint(idParam)
      case None => (Err(InvalidKitId), kits)
      case Some(id) =>
        if !userLive then (Err(Unauthenticated), kits)
        else if body.None? then (Err(BadBody), kits)
        else
          var req := TrimKitUpdate(body.value);
          match KitUpdateError(req)
          case Some(e) => (Err(Invalid(e)), kits)
          case None =>
            if !LiveKit(kits, id) then (Err(KitNotFound), kits)
            else
              var updated := UpdateKitFields(kits[id - 1], req).(updatedAt := now);
              (Ok(GetKitChanges(kits[id - 1], updated)), Put(kits, id, updated))
  }

  method UpdateKitHandler(db: Db, user: Option<nat>, idParam: string, userLive: bool, body: Option<KitUpdate>, now: int)
    returns (r: Result<seq<string>, HandlerError>)
    modifies db`kits
    ensures (r, db.kits) == UpdateKitOutcome(old(db.kits), user, idParam, userLive, body, now)
  {
    if user.None? {
      return Err(Unauthenticated);
    }
    var id := PostOrders.ParseUint(idParam);
    if id.None? {
      return Err(InvalidKitId);
    }
    if !userLive {
      return Err(Unauthenticated);
    }
    if body.None? {
      return Err(BadBody);
    }
    var req := TrimKitUpdate(body.value);
    var invalid := ValidateKitUpdateRequest(req);
    if invalid.Some? {
      return Err(Invalid(invalid.value));
    }
    if !LiveKit(db.kits, id.value) {
      return Err(KitNotFound);
    }
    var oldKit := db.kits[id.value - 1];
    var updated := UpdateKitFields(oldKit, req).(updatedAt := now);
    var changes := GetKitChanges(oldKit, updated);
    assert UpdateKitOutcome(db.kits, user, idParam, userLive, body, now) == (Ok(changes), Put(db.kits, id.value, updated));
    db.kits := Put(db.kits, id.value, updated);
    return Ok(changes);
  }

  /**
   * An accepted update keeps the kit's owner, creation time and live flag, leaves a supplied quantity in
   * range, and touches no other kit.
   */
  lemma UpdateKeepsIdentity(kits: seq<Kit>, user: Option<nat>, idParam: string, userLive: bool, body: Option<KitUpdate>, now: int)
    requires UpdateKitOutcome(kits, user, idParam, userLive, body, now).0.Ok?
    ensures var after := UpdateKitOutcome(kits, user, idParam, userLive, body, now).1;
            var id := PostOrders.ParseUint(idParam).value;
            |after| == |kits| && after[id - 1].createdBy == kits[id - 1].createdBy &&
            after[id - 1].createdAt == kits[id - 1].createdAt && !after[id - 1].isDeleted &&
            (body.value.quantity.QAbsent? || 0 <= after[id - 1].quantity <= MaxQuantity) &&
            forall k :: 0 <= k < |kits| && k != id - 1 ==> after[k] == kits[k]
  {
  }

  /** `DeleteKitHandler`: a live kit is flagged deleted and inactive; one already deleted is not found. */
  function DeleteKitOutcome(kits: seq<Kit>, user: Option<nat>, idParam: string, userLive: bool, now: int)
    : (r: (Result<(), HandlerError>, seq<Kit>))
    ensures r.0.Err? ==> r.1 == kits
    ensures r.0.Ok? <==> user.Some? && PostOrders.ParseUint(idParam).Some? && userLive && LiveKit(kits, PostOrders.ParseUint(idParam).value)
    ensures r.0.Ok? ==> var id := PostOrders.ParseUint(idParam).value;
                        r.1 == Put(kits, id, kits[id - 1].(isDeleted := true, status := false, updatedAt := now))
  {
    if user.None? then (Err(Unauthenticated), kits)
    else
      match PostOrders.ParseUint(idParam)
      case None => (Err(InvalidKitId), kits)
      case Some(id) =>
        if !userLive then (Err(Unauthenticated), kits)
        else if !LiveKit(kits, id) then (Err(KitNotFound), kits)
        else (Ok(()), Put(kits, id, kits[id - 1].(isDeleted := true, status := false, updatedAt := now)))
  }

  method DeleteKitHandler(db: Db, user: Option<nat>, idParam: string, userLive: bool, now: int)
    returns (r: Result<(), HandlerError>)
    modifies db`kits
    ensures (r, db.kits) == DeleteKitOutcome(old(db.kits), user, idParam, userLive, now)
  {
    if user.None? {
      return Err(Unauthenticated);
    }
    var id := PostOrders.ParseUint(idParam);
    if id.None? {
      return Err(InvalidKitId);
    }
    if !userLive {
      return Err(Unauthenticated);
    }
    if !LiveKit(db.kits, id.value) {
      return Err(KitNotFound);
    }
    var kit := db.kits[id.value - 1];
    db.kits := Put(db.kits, id.value, kit.(isDeleted := true, status := false, updatedAt := now));
    return Ok(());
  }

  /** Deleting twice: the second request finds nothing and changes nothing. */
  lemma DeleteTwiceNotFound(kits: seq<Kit>, user: Option<nat>, idParam: string, userLive: bool, now: int, later: int)
    requires DeleteKitOutcome(kits, user, idParam, userLive, now).0.Ok?
    ensures var after := DeleteKitOutcome(kits, user, idParam, userLive, now).1;
            DeleteKitOutcome(after, user, idParam, userLive, later) == (Err(KitNotFound), after)
  {
  }

  /** A deleted kit can no longer be updated. */
  lemma DeletedKitCannotBeUpdated(kits: seq<Kit>, user: Option<nat>, idParam: string, userLive: bool, now: int,
                                  body: Option<KitUpdate>, later: int)
    requires DeleteKitOutcome(kits, user, idParam, userLive, now).0.Ok?
    ensures var after := DeleteKitOutcome(kits, user, idParam, userLive, now).1;
            UpdateKitOutcome(after, user, idParam, userLive, body, later).0.Err?
  {
  }

  // ---------------------------------------------------------------- the stock summary

  /** The sum of `quantity` over the live kits of one type: one row of `SUM(quantity) ... GROUP BY type`. */
  function TypeTotal(kits: seq<Kit>, kitType: string): int
  {
    if kits == [] then 0
    else
      var k := kits[|kits| - 1];
      TypeTotal(kits[..|kits| - 1], kitType) + (if !k.isDeleted && k.kitType == kitType then k.quantity else 0)
  }

  lemma {:induction false} TypeTotalOfAbsentType(kits: seq<Kit>, kitType: string)
    requires forall j :: 0 <= j < |kits| && !kits[j].isDeleted ==> kits[j].kitType != kitType
    ensures TypeTotal(kits, kitType) == 0
  {
    if kits != [] {
      TypeTotalOfAbsentType(kits[..|kits| - 1], kitType);
    }
  }

  /** The grouped query's rows: each type with the total of its live kits, every live kit's type present. */
  ghost predicate GroupedTotals(kits: seq<Kit>, groups: seq<(string, int)>)
  {
    (forall i :: 0 <= i < |groups| ==> groups[i].1 == TypeTotal(kits, groups[i].0)) &&
    (forall j :: 0 <= j < |kits| && !kits[j].isDeleted ==> exists i :: 0 <= i < |groups| && groups[i].0 == kits[j].kitType)
  }

  /**
   * `GetKitsQuantitySummaryHandler`: the loop over the grouped rows keeps the blood and the saliva total;
   * other types are ignored, and the combined figure is their sum.
   */
  method GetKitsQuantitySummary(ghost kits: seq<Kit>, groups: seq<(string, int)>)
    returns (blood: int, saliva: int, combined: int)
    requires GroupedTotals(kits, groups)
    ensures blood == TypeTotal(kits, "blood") && saliva == TypeTotal(kits, "saliva")
    ensures combined == TypeTotal(kits, "blood") + TypeTotal(kits, "saliva")
  {
    blood, saliva := 0, 0;
    ghost var seenBlood, seenSaliva := false, false;
    for i := 0 to |groups|
      invariant seenBlood <==> exists j :: 0 <= j < i && groups[j].0 == "blood"
      invariant seenSaliva <==> exists j :: 0 <= j < i && groups[j].0 == "saliva"
      invariant seenBlood ==> blood == TypeTotal(kits, "blood")
      invariant !seenBlood ==> blood == 0
      invariant seenSaliva ==> saliva == TypeTotal(kits, "saliva")
      invariant !seenSaliva ==> saliva == 0
    {
      if groups[i].0 == "blood" {
        blood := groups[i].1;
        seenBlood := true;
      } else if groups[i].0 == "saliva" {
        saliva := groups[i].1;
        seenSaliva := true;
      }
    }
    if !seenBlood {
      TypeTotalOfAbsentType(kits, "blood");
    }
    if !seenSaliva {
      TypeTotalOfAbsentType(kits, "saliva");
    }
    combined := blood + saliva;
  }
}
