/** Shared utilities: list membership, the order and invoice number generator, and word capitalisation. */
module Common {
  import opened Wrappers
  import opened Chars
  import opened Numeric

  /** `StringInSlice`: a scan that stops at the first element equal to `a`. */
  method StringInSlice(a: string, list: seq<string>) returns (found: bool)
    ensures found <==> a in list
  {
    var k := 0;
    while k < |list|
      invariant 0 <= k <= |list|
      invariant a !in list[..k]
    {
      if list[k] == a {
        return true;
      }
      assert list[..k + 1] == list[..k] + [list[k]];
      k := k + 1;
    }
    assert list[..k] == list;
    return false;
  }

  /** `Contains`: the same membership scan with the arguments the other way round. */
  method Contains(slice: seq<string>, value: string) returns (found: bool)
    ensures found <==> value in slice
  {
    found := StringInSlice(value, slice);
  }

  // ---------------------------------------------------------------- order and invoice numbers

  /** A calendar date from the clock. */
  datatype Date = Date(year: nat, month: nat, day: nat)

  predicate ValidDate(d: Date) { d.year < 10000 && 1 <= d.month <= 12 && 1 <= d.day <= 31 }

  /** The Go layout `20060102`: four-digit year, two-digit month, two-digit day. */
  function FormatDate(d: Date): (r: string)
    requires ValidDate(d)
    ensures |r| == 8 && AllDigits(r)
    ensures DigitsValue(r[..4]) == d.year && DigitsValue(r[4..6]) == d.month && DigitsValue(r[6..]) == d.day
  {
    var y, m, dd := Pad4(d.year), Pad2(d.month), Pad2(d.day);
    var r := y + m + dd;
    assert r[..4] == y && r[4..6] == m && r[6..] == dd;
    r
  }

  const OrderPrefix: string := "SL"
  const MaxAttempts: nat := 100

  /** `fmt.Sprintf("%s-%s-%04d", prefix, currentDate, draw % 10000)`. */
  function OrderNumber(today: Date, draw: nat): (r: string)
    requires ValidDate(today)
    ensures |r| == 16 && r[..3] == "SL-" && r[11] == '-'
    ensures r[3..11] == FormatDate(today)
    ensures AllDigits(r[12..]) && DigitsValue(r[12..]) == draw % 10000
  {
    var date, suffix := FormatDate(today), Pad4(draw % 10000);
    var head, tail := OrderPrefix + "-", "-" + suffix;
    var r := head + date + tail;
    assert r[..3] == head && r[3..11] == date && r[11..] == tail;
    assert r[12..] == tail[1..] == suffix;
    r
  }

  datatype IdError = QueryFailed | Exhausted

  /** The first `n` attempts all found their candidate already taken. */
  ghost predicate AllCollide(today: Date, draws: seq<nat>, queryFails: seq<bool>, taken: set<string>, n: nat)
    requires ValidDate(today) && n <= |draws| && n <= |queryFails|
  {
    forall j :: 0 <= j < n ==> !queryFails[j] && OrderNumber(today, draws[j]) in taken
  }

  /** The outcome of the attempts from `k` on: the first free candidate, the first failed query, or exhaustion. */
  function FirstFree(today: Date, draws: seq<nat>, queryFails: seq<bool>, taken: set<string>, k: nat): (r: Result<string, IdError>)
    requires ValidDate(today) && k <= MaxAttempts <= |draws| && MaxAttempts <= |queryFails|
    ensures r.Ok? ==> r.value !in taken
    decreases MaxAttempts - k
  {
    if k == MaxAttempts then Err(Exhausted)
    else if queryFails[k] then Err(QueryFailed)
    else if OrderNumber(today, draws[k]) !in taken then Ok(OrderNumber(today, draws[k]))
    else FirstFree(today, draws, queryFails, taken, k + 1)
  }

  /**
   * What an outcome of the attempts from `k` on says: a free candidate drawn at a later attempt after
   * collisions only, a failed query after collisions only, or collisions on every attempt.
   */
  ghost predicate Explained(today: Date, draws: seq<nat>, queryFails: seq<bool>, taken: set<string>, k: nat,
                            r: Result<string, IdError>)
    requires ValidDate(today) && k <= MaxAttempts <= |draws| && MaxAttempts <= |queryFails|
  {
    (r.Ok? ==> r.value !in taken && exists j :: k <= j < MaxAttempts && r.value == OrderNumber(today, draws[j]) &&
                                                !queryFails[j] && AllCollide(today, draws, queryFails, taken, j)) &&
    (r == Err(QueryFailed) ==> exists j :: k <= j < MaxAttempts && queryFails[j] &&
                                           AllCollide(today, draws, queryFails, taken, j)) &&
    (r == Err(Exhausted) ==> AllCollide(today, draws, queryFails, taken, MaxAttempts))
  }

  /** Started after `k` collisions, the attempts end as `Explained` says. */
  lemma {:induction false} FirstFreeMeaning(today: Date, draws: seq<nat>, queryFails: seq<bool>, taken: set<string>, k: nat)
    requires ValidDate(today) && k <= MaxAttempts <= |draws| && MaxAttempts <= |queryFails|
    requires AllCollide(today, draws, queryFails, taken, k)
    ensures Explained(today, draws, queryFails, taken, k, FirstFree(today, draws, queryFails, taken, k))
    decreases MaxAttempts - k
  {
    if k < MaxAttempts && !queryFails[k] && OrderNumber(today, draws[k]) in taken {
      assert AllCollide(today, draws, queryFails, taken, k + 1);
      FirstFreeMeaning(today, draws, queryFails, taken, k + 1);
    }
  }

  /**
   * `GenerateUniqueOrderID`: up to 100 attempts, each formatting the next random draw and counting the rows
   * in `taken` that already hold it. `draws` and `queryFails` are the random draws and the outcome of each
   * count query; the first free candidate is returned.
   */
  method GenerateUniqueOrderID(today: Date, draws: seq<nat>, queryFails: seq<bool>, taken: set<string>)
    returns (r: Result<string, IdError>)
    requires ValidDate(today) && |draws| >= MaxAttempts && |queryFails| >= MaxAttempts
    ensures r == FirstFree(today, draws, queryFails, taken, 0)
    ensures r.Ok? ==> r.value !in taken
  {
    var attempt := 0;
    while attempt < MaxAttempts
      invariant 0 <= attempt <= MaxAttempts
      invariant FirstFree(today, draws, queryFails, taken, attempt) == FirstFree(today, draws, queryFails, taken, 0)
    {
      var id := OrderNumber(today, draws[attempt]);
      if queryFails[attempt] {
        return Err(QueryFailed);
      }
      if id !in taken {
        return Ok(id);
      }
      attempt := attempt + 1;
    }
    return Err(Exhausted);
  }

  /** `GenerateUniqueInvoiceID`: the same generator, checked against the invoice ids in `invoiceIds`. */
  method GenerateUniqueInvoiceID(today: Date, draws: seq<nat>, queryFails: seq<bool>, invoiceIds: set<string>)
    returns (r: Result<string, IdError>)
    requires ValidDate(today) && |draws| >= MaxAttempts && |queryFails| >= MaxAttempts
    ensures r == FirstFree(today, draws, queryFails, invoiceIds, 0)
    ensures r.Ok? ==> r.value !in invoiceIds
    ensures Explained(today, draws, queryFails, invoiceIds, 0, r)
  {
    r := GenerateUniqueOrderID(today, draws, queryFails, invoiceIds);
    FirstFreeMeaning(today, draws, queryFails, invoiceIds, 0);
  }

  /** `GenerateUniqueID`: `%04d` of the draw modulo 10000. */
  function GenerateUniqueID(draw: nat): (r: string)
    ensures |r| == 4 && AllDigits(r) && DigitsValue(r) == draw % 10000
  {
    Pad4(draw % 10000)
  }

  // ---------------------------------------------------------------- CapitalizeWords

  /** One word with its first byte upper-cased and the rest lower-cased. */
  function CapitalizeWord(w: string): (r: string)
    ensures |r| == |w|
    ensures w != [] ==> r[0] == ToUpperChar(w[0]) && r[1..] == Lower(w[1..])
    ensures NoSpace(w) ==> NoSpace(r)
  {
    if w == [] then w else Upper(w[..1]) + Lower(w[1..])
  }

  function CapitalizeAll(ws: seq<string>): (r: seq<string>)
    ensures |r| == |ws| && forall i :: 0 <= i < |ws| ==> r[i] == CapitalizeWord(ws[i])
  {
    seq(|ws|, i requires 0 <= i < |ws| => CapitalizeWord(ws[i]))
  }

  /** `CapitalizeWords`: split into fields, rewrite each word in place, join with single spaces. */
  method CapitalizeWords(s: string) returns (r: string)
    ensures r == Join(CapitalizeAll(Fields(s)), " ")
  {
    var words := CapitalizeEach(Fields(s));
    r := Join(words, " ");
  }

  /** The loop of `CapitalizeWords`: every non-empty word is replaced by its capitalised form. */
  method CapitalizeEach(original: seq<string>) returns (words: seq<string>)
    ensures words == CapitalizeAll(original)
  {
    words := original;
    var i := 0;
    while i < |words|
      invariant 0 <= i <= |words| && |words| == |original|
      invariant forall k :: 0 <= k < i ==> words[k] == CapitalizeWord(original[k])
      invariant forall k :: i <= k < |words| ==> words[k] == original[k]
    {
      if |words[i]| > 0 {
        words := words[i := CapitalizeWord(words[i])];
      }
      i := i + 1;
    }
  }

  /** The capitalised text is single-spaced: no white space at the ends, none doubled, only plain spaces. */
  lemma CapitalizedIsSingleSpaced(s: string)
    ensures SingleSpaced(Join(CapitalizeAll(Fields(s)), " "))
  {
    var ws := Fields(s);
    var cs := CapitalizeAll(ws);
    assert Words(cs) by {
      forall i | 0 <= i < |cs| ensures cs[i] != [] && NoSpace(cs[i]) { assert ws[i] != [] && NoSpace(ws[i]); }
    }
    JoinWordsSingleSpaced(cs);
  }
}
