/**
 * The post-order desk: the kit-registration list with its query validation and paging, the kit status
 * workflow (Not-Received, Received, Reject, Send) together with the lab a sent kit goes to, and the upload
 * of a lab report for a sent kit.
 */
module PostOrders {
  import opened Wrappers
  import opened Chars
  import Numeric
  import Common
  import Validation
  import Encryption
  import RequestFields
  import opened Tables

  // ---------------------------------------------------------------- query parameters

  /** A parsed query string: every parameter name with its values in order. */
  type Query = map<string, seq<string>>

  /** `url.Values.Get`: the first value of the parameter, or "" when it is absent. */
  function Get(q: Query, key: string): string
  {
    if key in q && q[key] != [] then q[key][0] else ""
  }

  datatype ListError =
    | InvalidQueryParameters
    | InvalidPage
    | InvalidPerPage
    | InvalidSort
    | InvalidSortColumn
    | InvalidStatusFilter
    | SearchEncryptionFailed(cause: Encryption.CryptoError)

  /** Text `strconv.Atoi` reads as a number greater than zero. */
  predicate PositiveText(s: string) { Numeric.Atoi(s).Some? && Numeric.Atoi(s).value > 0 }

  /** A paging parameter: empty means the default, otherwise a positive number. */
  function PositiveOr(val: string, default: int): Option<int>
  {
    if val == "" then Some(default)
    else
      match Numeric.Atoi(val)
      case Some(n) => if n > 0 then Some(n) else None
      case None => None
  }

  /** `ValidatePaginationParams`: `page` defaults to 1 and `per_page` to 10; `page` is checked first. */
  function ValidatePaginationParams(q: Query): (r: Result<(int, int), ListError>)
    ensures r.Ok? ==> r.value.0 >= 1 && r.value.1 >= 1
    ensures r == Err(InvalidPage) <==> Get(q, "page") != "" && !PositiveText(Get(q, "page"))
    ensures r == Err(InvalidPerPage) <==>
              (Get(q, "page") == "" || PositiveText(Get(q, "page"))) &&
              Get(q, "per_page") != "" && !PositiveText(Get(q, "per_page"))
    ensures r.Ok? ==> (Get(q, "page") == "" ==> r.value.0 == 1) &&
                      (Get(q, "page") != "" ==> Numeric.Atoi(Get(q, "page")) == Some(r.value.0)) &&
                      (Get(q, "per_page") == "" ==> r.value.1 == 10) &&
                      (Get(q, "per_page") != "" ==> Numeric.Atoi(Get(q, "per_page")) == Some(r.value.1))
  {
    match PositiveOr(Get(q, "page"), 1)
    case None => Err(InvalidPage)
    case Some(page) =>
      match PositiveOr(Get(q, "per_page"), 10)
      case None => Err(InvalidPerPage)
      case Some(perPage) => Ok((page, perPage))
  }

  /** Any page and page size the handler can answer with are read back from their own decimal text. */
  lemma PaginationRoundTrip(page: int, perPage: int)
    requires 1 <= page <= Numeric.MaxInt64 && 1 <= perPage <= Numeric.MaxInt64
    ensures ValidatePaginationParams(map["page" := [Numeric.Itoa(page)], "per_page" := [Numeric.Itoa(perPage)]]) ==
            Ok((page, perPage))
  {
    var q: Query := map["page" := [Numeric.Itoa(page)], "per_page" := [Numeric.Itoa(perPage)]];
    assert Get(q, "page") == Numeric.Itoa(page);
    assert Get(q, "per_page") == Numeric.Itoa(perPage);
    Numeric.AtoiOfItoa(page);
    Numeric.AtoiOfItoa(perPage);
  }

  const SortOrders: seq<string> := ["asc", "desc"]
  const SortColumns: seq<string> := ["created_at", "kit_status", "barcode_number"]

  /**
   * `ValidateSortParams`: both values are lower-cased; `sort` defaults to "desc" and `sort_column` to
   * "created_at"; `sort` is checked first. The result is (column, direction).
   */
  function ValidateSortParams(q: Query): (r: Result<(string, string), ListError>)
    ensures r.Ok? ==> r.value.0 in SortColumns && r.value.1 in SortOrders
    ensures r == Err(InvalidSort) <==> Lower(Get(q, "sort")) != "" && Lower(Get(q, "sort")) !in SortOrders
    ensures r == Err(InvalidSortColumn) <==>
              (Lower(Get(q, "sort")) == "" || Lower(Get(q, "sort")) in SortOrders) &&
              Lower(Get(q, "sort_column")) != "" && Lower(Get(q, "sort_column")) !in SortColumns
    ensures r.Ok? && Lower(Get(q, "sort")) != "" ==> r.value.1 == Lower(Get(q, "sort"))
    ensures r.Ok? && Lower(Get(q, "sort_column")) != "" ==> r.value.0 == Lower(Get(q, "sort_column"))
    ensures r.Ok? && Get(q, "sort") == "" ==> r.value.1 == "desc"
    ensures r.Ok? && Get(q, "sort_column") == "" ==> r.value.0 == "created_at"
  {
    var sort := Lower(Get(q, "sort"));
    if sort != "asc" && sort != "desc" && sort != "" then Err(InvalidSort)
    else
      var column := Lower(Get(q, "sort_column"));
      if column != "" && column !in SortColumns then Err(InvalidSortColumn)
      else Ok((if column == "" then "created_at" else column, if sort == "" then "desc" else sort))
  }

  /** The sort parameters are read without regard to ASCII case. */
  lemma SortParamsIgnoreCase(q: Query, q': Query)
    requires EqualFold(Get(q, "sort"), Get(q', "sort")) && EqualFold(Get(q, "sort_column"), Get(q', "sort_column"))
    ensures ValidateSortParams(q) == ValidateSortParams(q')
  {
  }

  const StatusFilters: seq<string> := ["Not-Received", "Received", "Reject", "Send", "all"]

  /** `ValidateStatusParam`: one of the stored spellings or "all"; empty means "all". The comparison is exact. */
  function ValidateStatusParam(q: Query): (r: Result<string, ListError>)
    ensures r.Ok? ==> r.value in StatusFilters
    ensures r.Ok? <==> Get(q, "status") in StatusFilters || Get(q, "status") == ""
    ensures r.Ok? && Get(q, "status") != "" ==> r.value == Get(q, "status")
    ensures Get(q, "status") == "" ==> r == Ok("all")
  {
    var val := Get(q, "status");
    if val in StatusFilters then Ok(val)
    else if val == "" then Ok("all")
    else Err(InvalidStatusFilter)
  }

  /** Unlike the status update, the list filter is case-sensitive: "send" is not a filter. */
  lemma StatusFilterIsCaseSensitive()
    ensures ValidateStatusParam(map["status" := ["send"]]) == Err(InvalidStatusFilter)
    ensures ValidateStatusParam(map["status" := ["Send"]]) == Ok("Send")
  {
    var q: Query := map["status" := ["send"]];
    assert Get(q, "status") == "send";
    assert "send" !in StatusFilters by {
      assert StatusFilters[3][0] != 's';
    }
  }

  // ---------------------------------------------------------------- paging

  /** `math.Ceil(total / perPage)`, computed on integers. */
  function TotalPages(total: nat, perPage: nat): (r: nat)
    requires perPage >= 1
    ensures r * perPage >= total
    ensures r > 0 ==> (r - 1) * perPage < total
    ensures total == 0 <==> r == 0
  {
    var n := total + perPage - 1;
    var r := n / perPage;
    assert n == r * perPage + n % perPage;
    assert (r - 1) * perPage == r * perPage - perPage;
    r
  }

  /** `LIMIT perPage OFFSET (page - 1) * perPage` over rows in their query order. */
  function PageOf<T>(rows: seq<T>, page: int, perPage: int): (r: seq<T>)
    requires page >= 1 && perPage >= 1
    ensures |r| <= perPage
    ensures forall j :: 0 <= j < |r| ==> (page - 1) * perPage + j < |rows| && r[j] == rows[(page - 1) * perPage + j]
    ensures (page - 1) * perPage < |rows| ==> |r| == if |rows| - (page - 1) * perPage < perPage then |rows| - (page - 1) * perPage else perPage
  {
    var offset := (page - 1) * perPage;
    MulMonotone(0, page - 1, perPage);
    var lo := if offset < |rows| then offset else |rows|;
    var hi := if lo + perPage < |rows| then lo + perPage else |rows|;
    rows[lo..hi]
  }

  /** Every row is found on exactly the page its position says, and that page is within the page count. */
  lemma RowOnItsPage<T>(rows: seq<T>, perPage: nat, i: nat)
    requires perPage >= 1 && i < |rows|
    ensures var page := i / perPage + 1;
            page <= TotalPages(|rows|, perPage) &&
            i % perPage < |PageOf(rows, page, perPage)| && PageOf(rows, page, perPage)[i % perPage] == rows[i]
  {
    var page := i / perPage + 1;
    var total := TotalPages(|rows|, perPage);
    assert i == (i / perPage) * perPage + i % perPage;
    assert (page - 1) * perPage == (i / perPage) * perPage;
    MulCancel(i / perPage, total, perPage);
    var r := PageOf(rows, page, perPage);
    assert (page - 1) * perPage < |rows|;
  }

  lemma MulCancel(a: nat, b: nat, c: nat)
    requires a * c < b * c
    ensures a < b
  {
  }

  lemma MulMonotone(a: nat, b: nat, c: nat)
    requires a <= b
    ensures a * c <= b * c
  {
  }

  /** A page past the last one is empty. */
  lemma PagesPastTheEndAreEmpty<T>(rows: seq<T>, page: int, perPage: nat)
    requires perPage >= 1 && page > TotalPages(|rows|, perPage)
    ensures PageOf(rows, page, perPage) == []
  {
    var total := TotalPages(|rows|, perPage);
    MulMonotone(total, page - 1, perPage);
  }

  // ---------------------------------------------------------------- the list

  const ListFields: seq<string> := ["page", "per_page", "sort", "sort_column", "search_text", "status"]

  datatype ListParams = ListParams(page: int, perPage: int, sortColumn: string, sort: string, searchText: string, status: string)

  /** The query checks of `GetPatientRegisterKitList` in their order, and the trimmed search text. */
  function ParseListQuery(q: Query): (r: Result<ListParams, ListError>)
    ensures r.Ok? ==> q.Keys <= RequestFields.AllowedSet(ListFields) && r.value.page >= 1 && r.value.perPage >= 1
    ensures r.Ok? ==> ValidatePaginationParams(q) == Ok((r.value.page, r.value.perPage)) &&
                      ValidateSortParams(q) == Ok((r.value.sortColumn, r.value.sort)) &&
                      ValidateStatusParam(q) == Ok(r.value.status) &&
                      r.value.searchText == TrimSpace(Get(q, "search_text"))
    ensures !(q.Keys <= RequestFields.AllowedSet(ListFields)) ==> r == Err(InvalidQueryParameters)
  {
    if !(q.Keys <= RequestFields.AllowedSet(ListFields)) then Err(InvalidQueryParameters)
    else
      match ValidatePaginationParams(q)
      case Err(e) => Err(e)
      case Ok(paging) =>
        match ValidateSortParams(q)
        case Err(e) => Err(e)
        case Ok(sorting) =>
          match ValidateStatusParam(q)
          case Err(e) => Err(e)
          case Ok(status) => Ok(ListParams(paging.0, paging.1, sorting.0, sorting.1, TrimSpace(Get(q, "search_text")), status))
  }

  /**
   * The search clause: given the search text and its encryption, whether a row matches one of the
   * `LIKE` patterns on the joined customer, order and barcode or on the stored patient columns.
   */
  type Search = (string, string, KitRegistration) -> bool

  /** `ORDER BY` the column in the direction. */
  type Ordering = (seq<KitRegistration>, string, string) -> seq<KitRegistration>

  predicate Keep(x: KitRegistration, status: string, searchText: string, encrypted: string, like: Search)
  {
    !x.isDeleted && (status == "all" || x.kitStatus == status) && (searchText == "" || like(searchText, encrypted, x))
  }

  /** The rows the list query selects before paging, in table order. */
  function Selected(regs: seq<KitRegistration>, status: string, searchText: string, encrypted: string, like: Search)
    : (r: seq<KitRegistration>)
    ensures |r| <= |regs|
    ensures forall x :: x in r <==> x in regs && Keep(x, status, searchText, encrypted, like)
  {
    if regs == [] then []
    else
      var rest := Selected(regs[..|regs| - 1], status, searchText, encrypted, like);
      var x := regs[|regs| - 1];
      assert regs == regs[..|regs| - 1] + [x];
      if Keep(x, status, searchText, encrypted, like) then rest + [x] else rest
  }

  datatype KitsResponse = KitsResponse(
    page: int, perPage: int, sort: string, sortColumn: string, searchText: string, status: string,
    totalRecords: nat, totalPages: nat, records: seq<KitRegistration>)

  /** `FetchKitRegistrations`: a non-empty search is encrypted first; the count is taken before paging. */
  function FetchKitRegistrations(regs: seq<KitRegistration>, p: Encryption.Primitives, keys: Encryption.Keys,
                                 like: Search, order: Ordering, lp: ListParams): (r: Result<(nat, seq<KitRegistration>), ListError>)
    requires lp.page >= 1 && lp.perPage >= 1
    ensures r.Err? <==> lp.searchText != "" && Encryption.Encrypt(p, keys, lp.searchText).Err?
    ensures r.Err? ==> r.error == SearchEncryptionFailed(Encryption.Encrypt(p, keys, lp.searchText).error)
    ensures r.Ok? ==>
              var enc := if lp.searchText == "" then "" else Encryption.Encrypt(p, keys, lp.searchText).value;
              var rows := Selected(regs, lp.status, lp.searchText, enc, like);
              r.value.0 == |rows| <= |regs| && |r.value.1| <= lp.perPage &&
              r.value.1 == PageOf(order(rows, lp.sortColumn, lp.sort), lp.page, lp.perPage)
  {
    var encrypted := if lp.searchText == "" then Ok("") else Encryption.Encrypt(p, keys, lp.searchText);
    match encrypted
    case Err(e) => Err(SearchEncryptionFailed(e))
    case Ok(enc) =>
      var rows := Selected(regs, lp.status, lp.searchText, enc, like);
      Ok((|rows|, PageOf(order(rows, lp.sortColumn, lp.sort), lp.page, lp.perPage)))
  }

  /** The whole list request. */
  function KitList(regs: seq<KitRegistration>, p: Encryption.Primitives, keys: Encryption.Keys, like: Search,
                   order: Ordering, q: Query): (r: Result<KitsResponse, ListError>)
    ensures ParseListQuery(q).Err? ==> r == Err(ParseListQuery(q).error)
    ensures !(q.Keys <= RequestFields.AllowedSet(ListFields)) ==> r == Err(InvalidQueryParameters)
    ensures r.Ok? ==>
              ParseListQuery(q).Ok? &&
              var lp := ParseListQuery(q).value;
              var fetched := FetchKitRegistrations(regs, p, keys, like, order, lp);
              fetched.Ok? &&
              r.value == KitsResponse(lp.page, lp.perPage, lp.sort, lp.sortColumn, lp.searchText, lp.status,
                                      fetched.value.0, TotalPages(fetched.value.0, lp.perPage), fetched.value.1) &&
              r.value.totalRecords <= r.value.totalPages * r.value.perPage && |r.value.records| <= r.value.perPage
    ensures ParseListQuery(q).Ok? && FetchKitRegistrations(regs, p, keys, like, order, ParseListQuery(q).value).Err? ==>
              r == Err(FetchKitRegistrations(regs, p, keys, like, order, ParseListQuery(q).value).error)
  {
    match ParseListQuery(q)
    case Err(e) => Err(e)
    case Ok(lp) =>
      match FetchKitRegistrations(regs, p, keys, like, order, lp)
      case Err(e) => Err(e)
      case Ok(fetched) =>
        Ok(KitsResponse(lp.page, lp.perPage, lp.sort, lp.sortColumn, lp.searchText, lp.status,
                        fetched.0, TotalPages(fetched.0, lp.perPage), fetched.1))
  }

  /** The count is taken before paging: it is the same on every page and for every page size. */
  lemma CountIgnoresPaging(regs: seq<KitRegistration>, p: Encryption.Primitives, keys: Encryption.Keys,
                           like: Search, order: Ordering, lp: ListParams, page: int, perPage: int)
    requires lp.page >= 1 && lp.perPage >= 1 && page >= 1 && perPage >= 1
    requires FetchKitRegistrations(regs, p, keys, like, order, lp).Ok?
    ensures FetchKitRegistrations(regs, p, keys, like, order, lp.(page := page, perPage := perPage)).Ok?
    ensures FetchKitRegistrations(regs, p, keys, like, order, lp.(page := page, perPage := perPage)).value.0 ==
            FetchKitRegistrations(regs, p, keys, like, order, lp).value.0
  {
  }

  /** `GetPatientRegisterKitList`. */
  method GetPatientRegisterKitList(db: Db, p: Encryption.Primitives, keys: Encryption.Keys, like: Search,
                                   order: Ordering, q: Query) returns (r: Result<KitsResponse, ListError>)
    ensures r == KitList(db.registrations, p, keys, like, order, q)
  {
    var allowed := RequestFields.AllowFields(q.Keys, ListFields);
    if !allowed {
      return Err(InvalidQueryParameters);
    }
    var lp := ParseListQuery(q);
    if lp.Err? {
      return Err(lp.error);
    }
    var fetched := FetchKitRegistrations(db.registrations, p, keys, like, order, lp.value);
    if fetched.Err? {
      return Err(fetched.error);
    }
    var total := fetched.value.0;
    return Ok(KitsResponse(lp.value.page, lp.value.perPage, lp.value.sort, lp.value.sortColumn, lp.value.searchText,
                           lp.value.status, total, TotalPages(total, lp.value.perPage), fetched.value.1));
  }

  /**
   * With an ordering that only rearranges rows, every listed record is a live row of the requested status
   * matching the search, there are at most `per_page` of them, and the page count covers the total.
   */
  lemma ListedRecordsQualify(regs: seq<KitRegistration>, p: Encryption.Primitives, keys: Encryption.Keys,
                             like: Search, order: Ordering, q: Query)
    requires forall rows, c, d :: multiset(order(rows, c, d)) == multiset(rows)
    requires KitList(regs, p, keys, like, order, q).Ok?
    ensures var resp := KitList(regs, p, keys, like, order, q).value;
            |resp.records| <= resp.perPage && resp.totalRecords <= resp.totalPages * resp.perPage &&
            resp.totalRecords <= |regs| &&
            forall x :: x in resp.records ==> x in regs && !x.isDeleted && (resp.status == "all" || x.kitStatus == resp.status)
  {
    var lp := ParseListQuery(q).value;
    var enc := if lp.searchText == "" then "" else Encryption.Encrypt(p, keys, lp.searchText).value;
    var rows := Selected(regs, lp.status, lp.searchText, enc, like);
    var ordered := order(rows, lp.sortColumn, lp.sort);
    var page := PageOf(ordered, lp.page, lp.perPage);
    forall x | x in page
      ensures x in regs && !x.isDeleted && (lp.status == "all" || x.kitStatus == lp.status)
    {
      assert x in ordered;
      assert x in multiset(ordered);
      assert x in multiset(rows);
      assert Keep(x, lp.status, lp.searchText, enc, like);
    }
  }

  // ---------------------------------------------------------------- status transitions

  /** The four statuses a kit can be moved to, lower-cased as the handler compares them. */
  const KitStatuses: seq<string> := ["not-received", "received", "reject", "send"]

  datatype TransitionError =
    | ReasonRequired
    | NotReceivedTargets
    | ReceivedCannotRevert
    | RejectIsFinal
    | SendIsFinal
    | UnknownCurrentStatus

  /** The moves the workflow allows, on lower-cased statuses. */
  predicate Move(from: string, to: string, reason: string)
  {
    (from == "not-received" && to in ["received", "reject", "send"] && (to == "reject" ==> TrimSpace(reason) != "")) ||
    (from == "received" && to != "not-received")
  }

  /** `ValidateStatusTransition`: both statuses are compared lower-cased; `None` means the move is allowed. */
  function ValidateStatusTransition(current: string, target: string, reason: string): (r: Option<TransitionError>)
    ensures r.None? <==> Move(Lower(current), Lower(target), reason)
    ensures Lower(current) == "reject" || Lower(current) == "send" ==> r.Some?
    ensures Lower(target) == "not-received" ==> r.Some?
    ensures r == Some(UnknownCurrentStatus) <==> Lower(current) !in KitStatuses
    ensures r == Some(ReasonRequired) <==>
              Lower(current) == "not-received" && Lower(target) == "reject" && TrimSpace(reason) == ""
  {
    var from, to := Lower(current), Lower(target);
    if from == "not-received" then
      if to == "received" || to == "reject" || to == "send" then
        if to == "reject" && TrimSpace(reason) == "" then Some(ReasonRequired) else None
      else Some(NotReceivedTargets)
    else if from == "received" then
      if to == "not-received" then Some(ReceivedCannotRevert) else None
    else if from == "reject" then Some(RejectIsFinal)
    else if from == "send" then Some(SendIsFinal)
    else Some(UnknownCurrentStatus)
  }

  // ---------------------------------------------------------------- the lab of a sent kit

  datatype SendError =
    | InvalidType
    | LabIdRequired
    | LabNameTooShort
    | LabNameTooLong
    | LabAddressTooShort
    | LabAddressTooLong
    | NhiRequired
    | NhiTooLong
    | NhiInvalid

  /** The pattern `^[a-zA-Z0-9-]+$`. */
  predicate NhiPattern(nhi: string) { Validation.MatchesPlus(nhi, Validation.AlnumAnd("-")) }

  /** What a new lab's details must satisfy once trimmed. */
  predicate NewLabRule(name: string, address: string, nhi: string)
  {
    5 <= |name| <= 255 && 5 <= |address| <= 255 && 1 <= |nhi| <= 10 &&
    forall i :: 0 <= i < |nhi| ==> IsAlnum(nhi[i]) || nhi[i] == '-'
  }

  /**
   * `ValidateSendStatus`: the type is "new" or "old"; an old lab needs an id; a new lab's trimmed name,
   * address and NHI number are checked in that order.
   */
  function ValidateSendStatus(kind: string, labName: string, labAddress: string, nhi: string, labId: nat): (r: Option<SendError>)
    ensures r.None? <==> (kind == "old" && labId != 0) ||
                         (kind == "new" && NewLabRule(TrimSpace(labName), TrimSpace(labAddress), TrimSpace(nhi)))
    ensures r == Some(InvalidType) <==> kind != "new" && kind != "old"
    ensures r == Some(LabAddressTooShort) || r == Some(LabAddressTooLong) ==> 5 <= |TrimSpace(labName)| <= 255
    ensures r == Some(NhiRequired) || r == Some(NhiTooLong) || r == Some(NhiInvalid) ==>
              5 <= |TrimSpace(labName)| <= 255 && 5 <= |TrimSpace(labAddress)| <= 255
  {
    if kind != "new" && kind != "old" then Some(InvalidType)
    else if kind == "old" then
      if labId == 0 then Some(LabIdRequired) else None
    else
      var name, address, number := TrimSpace(labName), TrimSpace(labAddress), TrimSpace(nhi);
      if |name| < 5 then Some(LabNameTooShort)
      else if |name| > 255 then Some(LabNameTooLong)
      else if |address| < 5 then Some(LabAddressTooShort)
      else if |address| > 255 then Some(LabAddressTooLong)
      else if number == "" then Some(NhiRequired)
      else if |number| > 10 then Some(NhiTooLong)
      else if !NhiPattern(number) then Some(NhiInvalid)
      else None
  }

  datatype LabError = LabNotFound

  predicate LiveLab(labs: seq<Lab>, id: nat) { 1 <= id <= |labs| && !labs[id - 1].isDeleted }

  predicate SameLab(l: Lab, name: string, address: string, nhi: string)
  {
    l.labName == name && l.labAddress == address && l.nhiNumber == nhi && !l.isDeleted
  }

  /** `findExistingLab`: the first live lab, by primary key, with exactly these details. */
  function FirstLab(labs: seq<Lab>, name: string, address: string, nhi: string, k: nat): (r: Option<nat>)
    requires k <= |labs|
    ensures r.Some? ==> k <= r.value < |labs| && SameLab(labs[r.value], name, address, nhi) &&
                        forall j :: k <= j < r.value ==> !SameLab(labs[j], name, address, nhi)
    ensures r.None? ==> forall j :: k <= j < |labs| ==> !SameLab(labs[j], name, address, nhi)
    decreases |labs| - k
  {
    if k == |labs| then None
    else if SameLab(labs[k], name, address, nhi) then Some(k)
    else FirstLab(labs, name, address, nhi, k + 1)
  }

  /** The lab id `ProcessLabInformation` answers, and the labs table after it. */
  datatype LabOutcome = LabOutcome(result: Result<nat, LabError>, labs: seq<Lab>)

  function LabChoice(labs: seq<Lab>, kind: string, name: string, address: string, nhi: string, labId: nat): (r: LabOutcome)
    ensures r.result.Ok? ==> LiveLab(r.labs, r.result.value)
    ensures r.labs == labs || r.labs == labs + [Lab(name, address, nhi, false)]
    ensures kind == "old" ==> r.labs == labs && (r.result.Ok? <==> LiveLab(labs, labId)) &&
                              (r.result.Ok? ==> r.result.value == labId)
    ensures kind != "old" ==> r.result.Ok? && SameLab(r.labs[r.result.value - 1], name, address, nhi)
    ensures kind != "old" && r.labs != labs ==> forall j :: 0 <= j < |labs| ==> !SameLab(labs[j], name, address, nhi)
  {
    if kind == "old" then
      if LiveLab(labs, labId) then LabOutcome(Ok(labId), labs) else LabOutcome(Err(LabNotFound), labs)
    else
      match FirstLab(labs, name, address, nhi, 0)
      case Some(i) => LabOutcome(Ok(i + 1), labs)
      case None => LabOutcome(Ok(|labs| + 1), labs + [Lab(name, address, nhi, false)])
  }

  /** `ProcessLabInformation`: an old lab must exist; a new one is looked up by its details and created if absent. */
  method ProcessLabInformation(db: Db, kind: string, name: string, address: string, nhi: string, labId: nat)
    returns (r: Result<nat, LabError>)
    modifies db`labs
    ensures LabOutcome(r, db.labs) == LabChoice(old(db.labs), kind, name, address, nhi, labId)
  {
    if kind == "old" {
      if !LiveLab(db.labs, labId) {
        return Err(LabNotFound);
      }
      return Ok(labId);
    }
    var existing := FirstLab(db.labs, name, address, nhi, 0);
    if existing.Some? {
      return Ok(existing.value + 1);
    }
    db.labs := db.labs + [Lab(name, address, nhi, false)];
    return Ok(|db.labs|);
  }

  /** Sending two kits to the same new lab creates it once: the second lookup finds the first one's row. */
  lemma NewLabCreatedOnce(labs: seq<Lab>, name: string, address: string, nhi: string, labId: nat, labId': nat)
    ensures var first := LabChoice(labs, "new", name, address, nhi, labId);
            LabChoice(first.labs, "new", name, address, nhi, labId') == LabOutcome(first.result, first.labs)
  {
    var first := LabChoice(labs, "new", name, address, nhi, labId);
    if first.labs != labs {
      var again := FirstLab(first.labs, name, address, nhi, 0);
      assert SameLab(first.labs[|labs|], name, address, nhi);
      assert again == Some(|labs|);
    }
  }

  // ---------------------------------------------------------------- the status update

  datatype UpdateError =
    | PatientNotFound
    | DecryptFailed(cause: Encryption.CryptoError)
    | CustomerMissing
    | OrderMissing
    | BarcodeMissing

  const StoredStatuses: seq<string> := ["Not-Received", "Received", "Send", "Reject"]

  /** The stored spelling of a requested status; anything unrecognised is stored as "Reject". */
  function CanonicalStatus(status: string): (r: string)
    ensures r in StoredStatuses
    ensures Lower(status) in KitStatuses ==> Lower(r) == Lower(status)
    ensures Lower(status) !in KitStatuses ==> r == "Reject"
  {
    var s := Lower(status);
    StoredSpellings();
    if s == "not-received" then "Not-Received"
    else if s == "received" then "Received"
    else if s == "send" then "Send"
    else "Reject"
  }

  /** Every one of the fields decrypts. */
  predicate Decrypts(p: Encryption.Primitives, keys: Encryption.Keys, fields: seq<string>)
  {
    forall i :: 0 <= i < |fields| ==> Encryption.Decrypt(p, keys, fields[i]).Ok?
  }

  /** The first of the fields that does not decrypt, if any. */
  function FirstDecryptError(p: Encryption.Primitives, keys: Encryption.Keys, fields: seq<string>): (r: Option<Encryption.CryptoError>)
    ensures r.None? <==> Decrypts(p, keys, fields)
    ensures r.Some? ==> exists i :: 0 <= i < |fields| && Encryption.Decrypt(p, keys, fields[i]) == Err(r.value)
  {
    if fields == [] then None
    else
      match Encryption.Decrypt(p, keys, fields[0])
      case Err(e) => Some(e)
      case Ok(_) =>
        var rest := FirstDecryptError(p, keys, fields[1..]);
        assert forall i :: 1 <= i < |fields| ==> fields[i] == fields[1..][i - 1];
        rest
  }

  /** The five patient columns in the order the update decrypts them. */
  function PatientColumns(row: KitRegistration): seq<string>
  {
    [row.patientFirstName, row.patientLastName, row.patientGender, row.patientAge, row.patientEmail]
  }

  /**
   * The service `UpdatePatientStatus`: the row, its five patient columns decrypted, the new status, the reason
   * (always replaced) and the lab (only when one is given), then the customer, order and barcode rows the
   * emails need, looked up by id whether flagged deleted or not.
   */
  function StatusChange(regs: seq<KitRegistration>, customers: seq<Customer>, orders: seq<Order>, barcodes: seq<Barcode>,
                        p: Encryption.Primitives, keys: Encryption.Keys, id: nat, status: string, reason: string,
                        labId: nat): (r: Result<KitRegistration, UpdateError>)
    ensures r.Ok? <==> 1 <= id <= |regs| &&
                       Decrypts(p, keys, PatientColumns(regs[id - 1])) &&
                       1 <= regs[id - 1].customerId <= |customers| && 1 <= regs[id - 1].orderId <= |orders| &&
                       1 <= regs[id - 1].barcodeId <= |barcodes|
    ensures r.Ok? ==> var row := regs[id - 1];
                      r.value.kitStatus in StoredStatuses && r.value.reason == reason &&
                      (labId > 0 ==> r.value.labId == labId) && (labId == 0 ==> r.value.labId == row.labId) &&
                      r.value == row.(kitStatus := r.value.kitStatus, reason := reason, labId := r.value.labId)
    ensures r.Ok? && Lower(status) in KitStatuses ==> Lower(r.value.kitStatus) == Lower(status)
  {
    match Find(regs, id)
    case None => Err(PatientNotFound)
    case Some(row) =>
      match FirstDecryptError(p, keys, PatientColumns(row))
      case Some(e) => Err(DecryptFailed(e))
      case None =>
        var updated := row.(kitStatus := CanonicalStatus(status), reason := reason,
                            labId := if labId > 0 then labId else row.labId);
        if Find(customers, row.customerId).None? then Err(CustomerMissing)
        else if Find(orders, row.orderId).None? then Err(OrderMissing)
        else if Find(barcodes, row.barcodeId).None? then Err(BarcodeMissing)
        else Ok(updated)
  }

  /** The service `UpdatePatientStatus`: the row is saved only when every step succeeded. */
  method UpdatePatientStatus(db: Db, p: Encryption.Primitives, keys: Encryption.Keys, id: nat, status: string,
                             reason: string, labId: nat) returns (r: Result<(), UpdateError>)
    modifies db`registrations
    ensures match StatusChange(old(db.registrations), db.customers, db.orders, db.barcodes, p, keys, id, status, reason, labId)
            case Ok(row) => r.Ok? && db.registrations == Put(old(db.registrations), id, row)
            case Err(e) => r == Err(e) && db.registrations == old(db.registrations)
  {
    var change := StatusChange(db.registrations, db.customers, db.orders, db.barcodes, p, keys, id, status, reason, labId);
    if change.Err? {
      return Err(change.error);
    }
    db.registrations := Put(db.registrations, id, change.value);
    return Ok(());
  }

  // ---------------------------------------------------------------- the status handler

  datatype StatusRequest = StatusRequest(
    status: string, reason: string, kind: string, labId: nat, labName: string, labAddress: string, nhiNumber: string)

  datatype StatusError =
    | InvalidKitId
    | KitNotFound
    | BadRequestBody
    | InvalidStatusValue
    | InvalidSend(send: SendError)
    | SameStatus
    | InvalidTransition(transition: TransitionError)
    | LabMissing
    | UpdateFailed(update: UpdateError)

  const MaxUint64: nat := 0xFFFF_FFFF_FFFF_FFFF

  /** `strconv.ParseUint(s, 10, 64)`: decimal digits only, no sign, at most 2^64 - 1. */
  function ParseUint(s: string): (r: Option<nat>)
    ensures r.Some? <==> s != [] && AllDigits(s) && Numeric.DigitsValue(s) <= MaxUint64
    ensures r.Some? ==> r.value == Numeric.DigitsValue(s)
  {
    Numeric.ParseUint(s, MaxUint64)
  }

  /** The request as the handler uses it: status lower-cased and, for "send", the lab fields trimmed. */
  function NormalizeRequest(req: StatusRequest): (r: StatusRequest)
    ensures r.status == Lower(req.status) && r.reason == req.reason && r.labId == req.labId
    ensures r.status == "send" ==> r.kind == TrimSpace(Lower(req.kind)) && r.labName == TrimSpace(req.labName) &&
                                   r.labAddress == TrimSpace(req.labAddress) && r.nhiNumber == TrimSpace(req.nhiNumber)
  {
    var status := Lower(req.status);
    if status == "send" then
      StatusRequest(status, req.reason, TrimSpace(Lower(req.kind)), req.labId, TrimSpace(req.labName),
                    TrimSpace(req.labAddress), TrimSpace(req.nhiNumber))
    else req.(status := status)
  }

  /**
   * The checks of the handler on the stored status and the normalised request: the status value, the send
   * details, a change of status, and an allowed move, in that order.
   */
  /** What a request must satisfy against the stored status `current` to be applied. */
  predicate Acceptable(current: string, req: StatusRequest)
  {
    req.status in KitStatuses &&
    (req.status == "send" ==> ValidateSendStatus(req.kind, req.labName, req.labAddress, req.nhiNumber, req.labId).None?) &&
    Lower(current) != req.status && Move(Lower(current), Lower(req.status), req.reason)
  }

  function RequestChecks(current: string, req: StatusRequest): (r: Option<StatusError>)
    ensures r.None? <==> Acceptable(current, req)
    ensures req.status !in KitStatuses ==> r == Some(InvalidStatusValue)
  {
    if req.status !in KitStatuses then Some(InvalidStatusValue)
    else if req.status == "send" && ValidateSendStatus(req.kind, req.labName, req.labAddress, req.nhiNumber, req.labId).Some? then
      Some(InvalidSend(ValidateSendStatus(req.kind, req.labName, req.labAddress, req.nhiNumber, req.labId).value))
    else if Lower(current) == req.status then Some(SameStatus)
    else
      match ValidateStatusTransition(current, req.status, req.reason)
      case Some(e) => Some(InvalidTransition(e))
      case None => None
  }

  /**
   * The checks of the handler before anything is written: the id, the row, the body, then the request checks.
   * The row id and the normalised request pass on.
   */
  function StatusChecks(regs: seq<KitRegistration>, idParam: string, body: Option<StatusRequest>)
    : (r: Result<(nat, StatusRequest), StatusError>)
    ensures r.Ok? ==> ParseUint(idParam) == Some(r.value.0) && 1 <= r.value.0 <= |regs| && body.Some? &&
                      r.value.1 == NormalizeRequest(body.value)
  {
    match ParseUint(idParam)
    case None => Err(InvalidKitId)
    case Some(id) =>
      if Find(regs, id).None? then Err(KitNotFound)
      else if body.None? then Err(BadRequestBody)
      else
        var req := NormalizeRequest(body.value);
        match RequestChecks(regs[id - 1].kitStatus, req)
        case Some(e) => Err(e)
        case None => Ok((id, req))
  }

  /** An accepted request names a valid status, valid send details, a new status and an allowed move. */
  lemma StatusChecksAccepted(regs: seq<KitRegistration>, idParam: string, body: Option<StatusRequest>,
                             id: nat, req: StatusRequest)
    requires StatusChecks(regs, idParam, body) == Ok((id, req))
    ensures ParseUint(idParam) == Some(id) && 1 <= id <= |regs| && body.Some? && req == NormalizeRequest(body.value)
    ensures Acceptable(regs[id - 1].kitStatus, req)
  {
    StatusChecksPassRequestChecks(regs, idParam, body, id, req);
  }

  lemma StatusChecksPassRequestChecks(regs: seq<KitRegistration>, idParam: string, body: Option<StatusRequest>,
                                      id: nat, req: StatusRequest)
    requires StatusChecks(regs, idParam, body) == Ok((id, req))
    ensures 1 <= id <= |regs| && RequestChecks(regs[id - 1].kitStatus, req).None?
  {
    var c := RequestChecks(regs[id - 1].kitStatus, NormalizeRequest(body.value));
    assert StatusChecks(regs, idParam, body) == match c case Some(e) => Err(e) case None => Ok((id, NormalizeRequest(body.value)));
  }

  /** The lab stage: only a sent kit consults `ProcessLabInformation`; any other status uses lab id 0. */
  function LabStage(labs: seq<Lab>, req: StatusRequest): (r: LabOutcome)
  {
    if req.status == "send" then LabChoice(labs, req.kind, req.labName, req.labAddress, req.nhiNumber, req.labId)
    else LabOutcome(Ok(0), labs)
  }

  /** The result of the handler and the two tables after it. */
  datatype StatusOutcome = StatusOutcome(result: Result<(), StatusError>, registrations: seq<KitRegistration>, labs: seq<Lab>)

  /** After the checks: the lab, then the update. A lab created for the kit stays even when the update then fails. */
  function ApplyStatus(regs: seq<KitRegistration>, labs: seq<Lab>, customers: seq<Customer>, orders: seq<Order>,
                       barcodes: seq<Barcode>, p: Encryption.Primitives, keys: Encryption.Keys, id: nat,
                       req: StatusRequest): (r: StatusOutcome)
  {
    var lab := LabStage(labs, req);
    match lab.result
    case Err(_) => StatusOutcome(Err(LabMissing), regs, labs)
    case Ok(labId) =>
      match StatusChange(regs, customers, orders, barcodes, p, keys, id, req.status, req.reason, labId)
      case Err(e) => StatusOutcome(Err(UpdateFailed(e)), regs, lab.labs)
      case Ok(row) => StatusOutcome(Ok(()), Put(regs, id, row), lab.labs)
  }

  /** The controller `UpdatePatientStatus`. */
  function StatusUpdate(regs: seq<KitRegistration>, labs: seq<Lab>, customers: seq<Customer>, orders: seq<Order>,
                        barcodes: seq<Barcode>, p: Encryption.Primitives, keys: Encryption.Keys, idParam: string,
                        body: Option<StatusRequest>): (r: StatusOutcome)
  {
    match StatusChecks(regs, idParam, body)
    case Err(e) => StatusOutcome(Err(e), regs, labs)
    case Ok(checked) => ApplyStatus(regs, labs, customers, orders, barcodes, p, keys, checked.0, checked.1)
  }

  method CheckStatusRequest(db: Db, idParam: string, body: Option<StatusRequest>) returns (r: Result<(nat, StatusRequest), StatusError>)
    ensures r == StatusChecks(db.registrations, idParam, body)
  {
    var parsed := ParseUint(idParam);
    if parsed.None? {
      return Err(InvalidKitId);
    }
    var id := parsed.value;
    if Find(db.registrations, id).None? {
      return Err(KitNotFound);
    }
    if body.None? {
      return Err(BadRequestBody);
    }
    var req := NormalizeRequest(body.value);
    var failed := CheckRequest(db.registrations[id - 1].kitStatus, req);
    StatusChecksOfFoundKit(db.registrations, idParam, body, id);
    if failed.Some? {
      return Err(failed.value);
    }
    return Ok((id, req));
  }

  /** Once the id names a kit and the body decoded, the outcome is that of the request checks. */
  lemma StatusChecksOfFoundKit(regs: seq<KitRegistration>, idParam: string, body: Option<StatusRequest>, id: nat)
    requires ParseUint(idParam) == Some(id) && 1 <= id <= |regs| && body.Some?
    ensures var req := NormalizeRequest(body.value);
            StatusChecks(regs, idParam, body) ==
              match RequestChecks(regs[id - 1].kitStatus, req) case Some(e) => Err(e) case None => Ok((id, req))
  {
    var req := NormalizeRequest(body.value);
    var c := RequestChecks(regs[id - 1].kitStatus, req);
    assert Find(regs, id).Some?;
    assert StatusChecks(regs, idParam, body) == match c case Some(e) => Err(e) case None => Ok((id, req));
  }

  /** The request checks as the handler runs them, each failure returning at once. */
  method CheckRequest(current: string, req: StatusRequest) returns (r: Option<StatusError>)
    ensures r == RequestChecks(current, req)
  {
    if req.status !in KitStatuses {
      return Some(InvalidStatusValue);
    }
    if req.status == "send" {
      var sendError := ValidateSendStatus(req.kind, req.labName, req.labAddress, req.nhiNumber, req.labId);
      if sendError.Some? {
        return Some(InvalidSend(sendError.value));
      }
    }
    if Lower(current) == req.status {
      return Some(SameStatus);
    }
    var transition := ValidateStatusTransition(current, req.status, req.reason);
    if transition.Some? {
      return Some(InvalidTransition(transition.value));
    }
    return None;
  }

  method ApplyStatusRequest(db: Db, p: Encryption.Primitives, keys: Encryption.Keys, id: nat, req: StatusRequest)
    returns (r: Result<(), StatusError>)
    modifies db`registrations, db`labs
    ensures StatusOutcome(r, db.registrations, db.labs) ==
            ApplyStatus(old(db.registrations), old(db.labs), db.customers, db.orders, db.barcodes, p, keys, id, req)
  {
    var labId := 0;
    if req.status == "send" {
      var lab := ProcessLabInformation(db, req.kind, req.labName, req.labAddress, req.nhiNumber, req.labId);
      if lab.Err? {
        return Err(LabMissing);
      }
      labId := lab.value;
    }
    var updated := UpdatePatientStatus(db, p, keys, id, req.status, req.reason, labId);
    if updated.Err? {
      return Err(UpdateFailed(updated.error));
    }
    return Ok(());
  }

  /** The controller `UpdatePatientStatus`, from the path parameter and the decoded body. */
  method UpdateKitStatus(db: Db, p: Encryption.Primitives, keys: Encryption.Keys, idParam: string,
                         body: Option<StatusRequest>) returns (r: Result<(), StatusError>)
    modifies db`registrations, db`labs
    ensures StatusOutcome(r, db.registrations, db.labs) ==
            StatusUpdate(old(db.registrations), old(db.labs), db.customers, db.orders, db.barcodes, p, keys, idParam, body)
  {
    var checked := CheckStatusRequest(db, idParam, body);
    if checked.Err? {
      return Err(checked.error);
    }
    r := ApplyStatusRequest(db, p, keys, checked.value.0, checked.value.1);
  }

  /** An accepted request went through the lab stage and the update, and saved the updated row. */
  lemma ApplyStatusAccepted(regs: seq<KitRegistration>, labs: seq<Lab>, customers: seq<Customer>, orders: seq<Order>,
                            barcodes: seq<Barcode>, p: Encryption.Primitives, keys: Encryption.Keys, id: nat,
                            req: StatusRequest)
    requires ApplyStatus(regs, labs, customers, orders, barcodes, p, keys, id, req).result.Ok?
    ensures var o := ApplyStatus(regs, labs, customers, orders, barcodes, p, keys, id, req);
            var lab := LabStage(labs, req);
            lab.result.Ok? && o.labs == lab.labs &&
            (req.status == "send" ==> LiveLab(lab.labs, lab.result.value)) &&
            var change := StatusChange(regs, customers, orders, barcodes, p, keys, id, req.status, req.reason, lab.result.value);
            change.Ok? && 1 <= id <= |regs| && o.registrations == Put(regs, id, change.value)
  {
  }

  /** An accepted request passed the checks and was then applied. */
  lemma StatusUpdateAccepted(regs: seq<KitRegistration>, labs: seq<Lab>, customers: seq<Customer>, orders: seq<Order>,
                             barcodes: seq<Barcode>, p: Encryption.Primitives, keys: Encryption.Keys, idParam: string,
                             body: Option<StatusRequest>)
    requires StatusUpdate(regs, labs, customers, orders, barcodes, p, keys, idParam, body).result.Ok?
    ensures StatusChecks(regs, idParam, body).Ok?
    ensures var (id, req) := StatusChecks(regs, idParam, body).value;
            StatusUpdate(regs, labs, customers, orders, barcodes, p, keys, idParam, body) ==
            ApplyStatus(regs, labs, customers, orders, barcodes, p, keys, id, req)
  {
  }

  /** The stored spellings lower-case to the four request statuses. */
  lemma StoredSpellings()
    ensures Lower("Not-Received") == "not-received" && Lower("Received") == "received"
    ensures Lower("Send") == "send" && Lower("Reject") == "reject"
  {
  }

  /** A kit is only ever saved as Sent together with a live lab. */
  lemma SentKitHasLab(regs: seq<KitRegistration>, labs: seq<Lab>, customers: seq<Customer>, orders: seq<Order>,
                      barcodes: seq<Barcode>, p: Encryption.Primitives, keys: Encryption.Keys, idParam: string,
                      body: Option<StatusRequest>)
    requires body.Some? && Lower(body.value.status) == "send"
    requires StatusUpdate(regs, labs, customers, orders, barcodes, p, keys, idParam, body).result.Ok?
    ensures var o := StatusUpdate(regs, labs, customers, orders, barcodes, p, keys, idParam, body);
            var id := ParseUint(idParam).value;
            1 <= id <= |o.registrations| && o.registrations[id - 1].kitStatus == "Send" &&
            LiveLab(o.labs, o.registrations[id - 1].labId)
  {
    StatusUpdateAccepted(regs, labs, customers, orders, barcodes, p, keys, idParam, body);
    var (id, req) := StatusChecks(regs, idParam, body).value;
    ApplyStatusAccepted(regs, labs, customers, orders, barcodes, p, keys, id, req);
    var lab := LabStage(labs, req);
    var row := StatusChange(regs, customers, orders, barcodes, p, keys, id, req.status, req.reason, lab.result.value).value;
    StoredSpellings();
    LowerIdempotent(body.value.status);
    assert Lower(row.kitStatus) == "send";
    assert lab.result.value >= 1;
  }

  /** A kit that was rejected or sent can never change again: every request is refused and nothing is written. */
  lemma FinalStatusesStay(regs: seq<KitRegistration>, labs: seq<Lab>, customers: seq<Customer>, orders: seq<Order>,
                          barcodes: seq<Barcode>, p: Encryption.Primitives, keys: Encryption.Keys, idParam: string,
                          body: Option<StatusRequest>)
    requires ParseUint(idParam).Some? && 1 <= ParseUint(idParam).value <= |regs|
    requires Lower(regs[ParseUint(idParam).value - 1].kitStatus) in ["reject", "send"]
    ensures StatusUpdate(regs, labs, customers, orders, barcodes, p, keys, idParam, body) ==
            StatusUpdate(regs, labs, customers, orders, barcodes, p, keys, idParam, body).(registrations := regs, labs := labs)
    ensures StatusUpdate(regs, labs, customers, orders, barcodes, p, keys, idParam, body).result.Err?
  {
    assert StatusChecks(regs, idParam, body).Err?;
  }

  /** No accepted update stores a kit as Not-Received, and every accepted update changes the status. */
  lemma NotReceivedNeverRestored(regs: seq<KitRegistration>, labs: seq<Lab>, customers: seq<Customer>, orders: seq<Order>,
                                 barcodes: seq<Barcode>, p: Encryption.Primitives, keys: Encryption.Keys, idParam: string,
                                 body: Option<StatusRequest>)
    requires StatusUpdate(regs, labs, customers, orders, barcodes, p, keys, idParam, body).result.Ok?
    ensures var o := StatusUpdate(regs, labs, customers, orders, barcodes, p, keys, idParam, body);
            var id := ParseUint(idParam).value;
            1 <= id <= |regs| && |o.registrations| == |regs| &&
            o.registrations[id - 1].kitStatus != "Not-Received" &&
            Lower(o.registrations[id - 1].kitStatus) != Lower(regs[id - 1].kitStatus) &&
            forall k :: 0 <= k < |regs| && k != id - 1 ==> o.registrations[k] == regs[k]
  {
    StatusUpdateAccepted(regs, labs, customers, orders, barcodes, p, keys, idParam, body);
    var (id, req) := StatusChecks(regs, idParam, body).value;
    ApplyStatusAccepted(regs, labs, customers, orders, barcodes, p, keys, id, req);
    var lab := LabStage(labs, req);
    var row := StatusChange(regs, customers, orders, barcodes, p, keys, id, req.status, req.reason, lab.result.value).value;
    StoredSpellings();
    LowerIdempotent(body.value.status);
    assert Lower(row.kitStatus) == req.status;
  }

  /** The labs table only ever gains the one lab the request named. */
  lemma LabsOnlyGrow(regs: seq<KitRegistration>, labs: seq<Lab>, customers: seq<Customer>, orders: seq<Order>,
                     barcodes: seq<Barcode>, p: Encryption.Primitives, keys: Encryption.Keys, idParam: string,
                     body: Option<StatusRequest>)
    ensures var o := StatusUpdate(regs, labs, customers, orders, barcodes, p, keys, idParam, body);
            o.labs == labs ||
            (body.Some? &&
             exists l: Lab :: (o.labs == labs + [l] && !l.isDeleted &&
                               l.labName == TrimSpace(body.value.labName) && l.labAddress == TrimSpace(body.value.labAddress) &&
                               l.nhiNumber == TrimSpace(body.value.nhiNumber)))
  {
    var o := StatusUpdate(regs, labs, customers, orders, barcodes, p, keys, idParam, body);
    match StatusChecks(regs, idParam, body)
    case Err(e) =>
      assert o == StatusOutcome(Err(e), regs, labs);
    case Ok((id, req)) =>
      assert o == ApplyStatus(regs, labs, customers, orders, barcodes, p, keys, id, req);
      StatusChecksAccepted(regs, idParam, body, id, req);
      ApplyStatusLabs(regs, labs, customers, orders, barcodes, p, keys, id, req);
      if o.labs != labs {
        var l := Lab(req.labName, req.labAddress, req.nhiNumber, false);
        assert o.labs == labs + [l];
      }
  }

  /** Applying a checked request leaves the labs table as the lab stage left it. */
  lemma ApplyStatusLabs(regs: seq<KitRegistration>, labs: seq<Lab>, customers: seq<Customer>, orders: seq<Order>,
                        barcodes: seq<Barcode>, p: Encryption.Primitives, keys: Encryption.Keys, id: nat,
                        req: StatusRequest)
    ensures var o := ApplyStatus(regs, labs, customers, orders, barcodes, p, keys, id, req);
            o.labs == labs || (req.status == "send" && o.labs == labs + [Lab(req.labName, req.labAddress, req.nhiNumber, false)])
  {
    var lab := LabStage(labs, req);
    assert lab.labs == labs || (req.status == "send" && lab.labs == labs + [Lab(req.labName, req.labAddress, req.nhiNumber, false)]);
  }

  // ---------------------------------------------------------------- the report upload

  const MaxUploadBytes: nat := 10 * 1024 * 1024
  const ReportExtensions: seq<string> := [".pdf", ".xml"]

  /** `filepath.Ext`: from the last '.' of the final path element to the end, or "" without one. */
  function Ext(path: string): (r: string)
    ensures |r| <= |path| && path[|path| - |r|..] == r
    ensures r != [] ==> r[0] == '.'
    ensures forall i :: 0 <= i < |r| ==> r[i] != '/' && (i > 0 ==> r[i] != '.')
    ensures r == [] ==> forall i :: 0 <= i < |path| && path[i] == '.' ==> exists j :: i < j < |path| && path[j] == '/'
    decreases |path|
  {
    if path == [] then ""
    else
      var c := path[|path| - 1];
      if c == '/' then ""
      else if c == '.' then "."
      else
        var e := Ext(path[..|path| - 1]);
        if e == "" then "" else e + [c]
  }

  datatype UploadedFile = UploadedFile(filename: string, size: nat)

  datatype UploadError =
    | InvalidForm
    | NoFile
    | UnsupportedFileType
    | FileTooLarge
    | NotSent
    | CreateFailed
    | SaveFailed
    | ReportDecryptFailed(cause: Encryption.CryptoError)

  /** `fmt.Sprintf("%s_%s%s", date, uniqueID, ext)`. */
  function ReportFileName(today: Common.Date, draw: nat, ext: string): (r: string)
    requires Common.ValidDate(today)
    ensures |r| == 13 + |ext| && r[8] == '_' && r[13..] == ext
    ensures r[..8] == Common.FormatDate(today) && r[9..13] == Common.GenerateUniqueID(draw)
  {
    var date, unique := Common.FormatDate(today), Common.GenerateUniqueID(draw);
    var r := date + "_" + unique + ext;
    assert r[..8] == date && r[9..13] == unique && r[13..] == ext;
    r
  }

  /** The result of an upload and the registrations after it. */
  datatype UploadOutcome = UploadOutcome(result: Result<(), UploadError>, registrations: seq<KitRegistration>)

  /**
   * `HandleFileUpload`: the row must hold exactly "Send"; the file is written, the new name saved and
   * committed. After the commit a missing customer ends the call quietly but a patient column that does not
   * decrypt is reported as an error, although the new name is already saved.
   */
  function Upload(regs: seq<KitRegistration>, customers: seq<Customer>, p: Encryption.Primitives, keys: Encryption.Keys,
                  idParam: string, ext: string, today: Common.Date, draw: nat, createOk: bool, copyOk: bool): (r: UploadOutcome)
    requires Common.ValidDate(today)
    ensures var id := RowKey(idParam);
            r.result.Ok? || r.result.error.ReportDecryptFailed? ==>
              1 <= id <= |regs| && regs[id - 1].kitStatus == "Send" && createOk && copyOk &&
              r.registrations == SaveReport(regs, id, ReportFileName(today, draw, ext))
    ensures r.result.Err? && !r.result.error.ReportDecryptFailed? ==> r.registrations == regs
    ensures var id := RowKey(idParam);
            !(1 <= id <= |regs| && regs[id - 1].kitStatus == "Send") ==> r.result == Err(NotSent)
    ensures var id := RowKey(idParam);
            1 <= id <= |regs| && regs[id - 1].kitStatus == "Send" && createOk && copyOk ==>
              r.result == AfterCommit(regs[id - 1], customers, p, keys) &&
              r.registrations == SaveReport(regs, id, ReportFileName(today, draw, ext))
  {
    var id := RowKey(idParam);
    if !(1 <= id <= |regs| && regs[id - 1].kitStatus == "Send") then UploadOutcome(Err(NotSent), regs)
    else if !createOk then UploadOutcome(Err(CreateFailed), regs)
    else if !copyOk then UploadOutcome(Err(SaveFailed), regs)
    else
      UploadOutcome(AfterCommit(regs[id - 1], customers, p, keys), SaveReport(regs, id, ReportFileName(today, draw, ext)))
  }

  /** The row with its `file_path` replaced; every other row and column is kept. */
  function SaveReport(regs: seq<KitRegistration>, id: nat, name: string): (r: seq<KitRegistration>)
    requires 1 <= id <= |regs|
    ensures |r| == |regs| && r[id - 1].filePath == name && r[id - 1] == regs[id - 1].(filePath := name)
    ensures forall k :: 0 <= k < |regs| && k != id - 1 ==> r[k] == regs[k]
  {
    Put(regs, id, regs[id - 1].(filePath := name))
  }

  /**
   * What `HandleFileUpload` reports once the new name is committed: a missing or deleted customer ends it
   * quietly; otherwise the patient's first name, last name and email must decrypt.
   */
  function AfterCommit(row: KitRegistration, customers: seq<Customer>, p: Encryption.Primitives, keys: Encryption.Keys)
    : (r: Result<(), UploadError>)
    ensures r.Err? ==> r.error.ReportDecryptFailed?
    ensures r.Err? <==> 1 <= row.customerId <= |customers| && !customers[row.customerId - 1].isDeleted &&
                        !Decrypts(p, keys, [row.patientFirstName, row.patientLastName, row.patientEmail])
  {
    if !(1 <= row.customerId <= |customers| && !customers[row.customerId - 1].isDeleted) then Ok(())
    else
      match FirstDecryptError(p, keys, [row.patientFirstName, row.patientLastName, row.patientEmail])
      case Some(e) => Err(ReportDecryptFailed(e))
      case None => Ok(())
  }

  method HandleFileUpload(db: Db, p: Encryption.Primitives, keys: Encryption.Keys, idParam: string, ext: string,
                          today: Common.Date, draw: nat, createOk: bool, copyOk: bool) returns (r: Result<(), UploadError>)
    requires Common.ValidDate(today)
    modifies db`registrations
    ensures UploadOutcome(r, db.registrations) ==
            Upload(old(db.registrations), db.customers, p, keys, idParam, ext, today, draw, createOk, copyOk)
  {
    var id := RowKey(idParam);
    if !(1 <= id <= |db.registrations| && db.registrations[id - 1].kitStatus == "Send") {
      return Err(NotSent);
    }
    if !createOk {
      return Err(CreateFailed);
    }
    if !copyOk {
      return Err(SaveFailed);
    }
    var row := db.registrations[id - 1];
    db.registrations := SaveReport(db.registrations, id, ReportFileName(today, draw, ext));
    r := AfterCommit(row, db.customers, p, keys);
  }

  /** The controller `FileUpload`: the form, the file, the extension, the size, then `HandleFileUpload`. */
  function FileUploadOutcome(regs: seq<KitRegistration>, customers: seq<Customer>, p: Encryption.Primitives,
                             keys: Encryption.Keys, idParam: string, formOk: bool, file: Option<UploadedFile>,
                             today: Common.Date, draw: nat, createOk: bool, copyOk: bool): (r: UploadOutcome)
    requires Common.ValidDate(today)
  {
    if !formOk then UploadOutcome(Err(InvalidForm), regs)
    else if file.None? then UploadOutcome(Err(NoFile), regs)
    else
      var ext := Lower(Ext(file.value.filename));
      if ext !in ReportExtensions then UploadOutcome(Err(UnsupportedFileType), regs)
      else if file.value.size > MaxUploadBytes then UploadOutcome(Err(FileTooLarge), regs)
      else Upload(regs, customers, p, keys, idParam, ext, today, draw, createOk, copyOk)
  }

  method FileUpload(db: Db, p: Encryption.Primitives, keys: Encryption.Keys, idParam: string, formOk: bool,
                    file: Option<UploadedFile>, today: Common.Date, draw: nat, createOk: bool, copyOk: bool)
    returns (r: Result<(), UploadError>)
    requires Common.ValidDate(today)
    modifies db`registrations
    ensures UploadOutcome(r, db.registrations) ==
            FileUploadOutcome(old(db.registrations), db.customers, p, keys, idParam, formOk, file, today, draw, createOk, copyOk)
  {
    if !formOk {
      return Err(InvalidForm);
    }
    if file.None? {
      return Err(NoFile);
    }
    var ext := Lower(Ext(file.value.filename));
    if ext !in ReportExtensions {
      return Err(UnsupportedFileType);
    }
    if file.value.size > MaxUploadBytes {
      return Err(FileTooLarge);
    }
    r := HandleFileUpload(db, p, keys, idParam, ext, today, draw, createOk, copyOk);
  }

  /**
   * A saved report belongs to a sent kit, came as a PDF or XML file of at most 10 MB, and is stored under
   * the dated name with the lower-cased extension; nothing else in the table changes.
   */
  lemma ReportOnlyForSentKits(regs: seq<KitRegistration>, customers: seq<Customer>, p: Encryption.Primitives,
                              keys: Encryption.Keys, idParam: string, formOk: bool, file: Option<UploadedFile>,
                              today: Common.Date, draw: nat, createOk: bool, copyOk: bool)
    requires Common.ValidDate(today)
    requires FileUploadOutcome(regs, customers, p, keys, idParam, formOk, file, today, draw, createOk, copyOk).result.Ok? ||
             FileUploadOutcome(regs, customers, p, keys, idParam, formOk, file, today, draw, createOk, copyOk).registrations != regs
    ensures var o := FileUploadOutcome(regs, customers, p, keys, idParam, formOk, file, today, draw, createOk, copyOk);
            var id := RowKey(idParam);
            formOk && file.Some? && file.value.size <= MaxUploadBytes && createOk && copyOk &&
            Lower(Ext(file.value.filename)) in ReportExtensions &&
            1 <= id <= |regs| && regs[id - 1].kitStatus == "Send" &&
            o.registrations == SaveReport(regs, id, ReportFileName(today, draw, Lower(Ext(file.value.filename))))
  {
  }

  /** An upload reported as failed because a patient column did not decrypt has still saved the new file name. */
  lemma FailedReportStillSaved(regs: seq<KitRegistration>, customers: seq<Customer>, p: Encryption.Primitives,
                               keys: Encryption.Keys, idParam: string, ext: string, today: Common.Date, draw: nat)
    requires Common.ValidDate(today)
    requires var id := RowKey(idParam);
             1 <= id <= |regs| && regs[id - 1].kitStatus == "Send" &&
             var row := regs[id - 1];
             1 <= row.customerId <= |customers| && !customers[row.customerId - 1].isDeleted &&
             Encryption.Decrypt(p, keys, row.patientFirstName).Err?
    ensures var o := Upload(regs, customers, p, keys, idParam, ext, today, draw, true, true);
            o.result.Err? && o.registrations[RowKey(idParam) - 1].filePath == ReportFileName(today, draw, ext)
  {
  }
}
