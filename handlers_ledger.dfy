// `handlers/ledger_accounts.rs` and `handlers/ledger_transactions.rs`.
//
// Every handler is a function of what its extractors produced and of the
// outcome of each repository call it may make; it answers with the response
// and the calls it made. A body that fails deserialisation or `validate()` is
// answered by the extractor with 400 before the handler body runs.

module LedgerAccountsHandlers {
  import opened Wrappers
  import opened Ints
  import opened Http
  import opened Repositories
  import Errors
  import Pagination
  import Page
  import opened ModelsLedgerAccounts

  /** The account types `create` accepts, compared case-sensitively. */
  const ALLOWED_TYPES: seq<string> := ["asset", "liability", "income", "expense"]

  /** `POST /api/ledger-accounts`. */
  function Create(payload: Extracted<CreateLedgerAccountInput>, created: Result<LedgerAccountEntity>)
    : (h: Handled<LedgerAccountModel>)
    // a body the extractor refuses never reaches the repository
    ensures (payload.Malformed? || Violations(payload.value) != {}) ==> h == RejectedRequest()
    // an unknown type is the `INVALID_ACCOUNT_TYPE` error, and nothing is stored
    ensures payload.Parsed? && Violations(payload.value) == {} && payload.value.accountType !in ALLOWED_TYPES ==>
      h.response == Errors.IntoResponse(Errors.InvalidAccountType) && h.calls == []
    // an allowed type is stored exactly as given
    ensures payload.Parsed? && Violations(payload.value) == {} && payload.value.accountType in ALLOWED_TYPES ==>
      h.calls == [LedgerAccountsCreate(payload.value.accountType, payload.value.name)]
    // 200 with the stored row, or the `INTERNAL_SERVER_ERROR` error
    ensures h.response.status == OK <==> h.calls != [] && created.Ok?
    ensures h.response.status == OK ==> h.response.body == Model(FromEntity(created.value))
    ensures h.calls != [] && created.Err? ==> h.response == Errors.IntoResponse(Errors.InternalServerError)
  {
    match payload
    case Malformed => RejectedRequest()
    case Parsed(i) =>
      if Violations(i) != {} then RejectedRequest()
      else if i.accountType !in ALLOWED_TYPES then Handled(Errors.IntoResponse(Errors.InvalidAccountType), [])
      else
        var calls := [LedgerAccountsCreate(i.accountType, i.name)];
        match created
        case Ok(e) => Handled(Response(OK, Model(FromEntity(e))), calls)
        case Err => Handled(Errors.IntoResponse(Errors.InternalServerError), calls)
  }

  /** The whitelist is exact: a type differing only in case is refused with
      400 and the repository is not called. */
  lemma CapitalisedTypeIsRejected(name: string, created: Result<LedgerAccountEntity>)
    requires name != []
    ensures var h := Create(Parsed(CreateLedgerAccountInput("Asset", name)), created);
      h.response.status == BAD_REQUEST && h.response.body.ApiError? && h.calls == []
  {
    assert "Asset"[0] != "asset"[0] && "Asset"[0] != "liability"[0];
    assert "Asset"[0] != "income"[0] && "Asset"[0] != "expense"[0];
  }

  /** `GET /api/ledger-accounts`: the validated window, defaults filled in, is
      passed on and echoed in the page. */
  function List(query: Extracted<Pagination.ListQuery>, rows: Result<Page.Page<LedgerAccountEntity>>)
    : (h: Handled<Page.Page<LedgerAccountModel>>)
    ensures (query.Malformed? || !Pagination.ValidListQuery(query.value)) ==> h == RejectedRequest()
    ensures query.Parsed? && Pagination.ValidListQuery(query.value) ==>
      var (limit, offset) := Pagination.Window(query.value);
      && h.calls == [LedgerAccountsList(limit, offset)]
      && (rows.Err? ==> h.response == Finish(INTERNAL_SERVER_ERROR))
      && (rows.Ok? ==> h.response == Response(OK, Model(Page.Echo(limit, offset, rows.value, FromEntity))))
  {
    if query.Malformed? || !Pagination.ValidListQuery(query.value) then RejectedRequest()
    else
      var (limit, offset) := Pagination.Window(query.value);
      var calls := [LedgerAccountsList(limit, offset)];
      match rows
      case Err => Handled(Finish(INTERNAL_SERVER_ERROR), calls)
      case Ok(p) => Handled(Response(OK, Model(Page.Echo(limit, offset, p, FromEntity))), calls)
  }

  /** `GET /api/ledger-accounts/{id}`: 404 and 500 without a body. */
  function Get(id: I32, found: Result<Option<LedgerAccountEntity>>): (h: Handled<LedgerAccountModel>)
    ensures h.calls == [LedgerAccountsGet(id)]
    ensures found == Ok(None) ==> h.response == Finish(NOT_FOUND)
    ensures found.Err? ==> h.response == Finish(INTERNAL_SERVER_ERROR)
    ensures found.Ok? && found.value.Some? ==> h.response == Response(OK, Model(FromEntity(found.value.value)))
  {
    var calls := [LedgerAccountsGet(id)];
    match found
    case Ok(Some(e)) => Handled(Response(OK, Model(FromEntity(e))), calls)
    case Ok(None) => Handled(Finish(NOT_FOUND), calls)
    case Err => Handled(Finish(INTERNAL_SERVER_ERROR), calls)
  }

  /** `DELETE /api/ledger-accounts/{id}`: 204 when a row went, 404 when none did. */
  function Delete(id: I32, deleted: Result<bool>): (h: Handled<LedgerAccountModel>)
    ensures h.calls == [LedgerAccountsDelete(id)] && h.response.body.Empty?
    ensures h.response.status == NO_CONTENT <==> deleted == Ok(true)
    ensures h.response.status == NOT_FOUND <==> deleted == Ok(false)
    ensures h.response.status == INTERNAL_SERVER_ERROR <==> deleted.Err?
  {
    var calls := [LedgerAccountsDelete(id)];
    match deleted
    case Err => Handled(Finish(INTERNAL_SERVER_ERROR), calls)
    case Ok(false) => Handled(Finish(NOT_FOUND), calls)
    case Ok(true) => Handled(Finish(NO_CONTENT), calls)
  }
}

module LedgerTransactionsHandlers {
  import opened Wrappers
  import opened Ints
  import opened Http
  import opened Repositories
  import Dates
  import Pagination
  import Page
  import opened ModelsLedgerTransaction

  /** One position of an anchored pattern: `\d` or a literal character. */
  datatype PatternChar = AnyDigit | Literal(c: char)
  {
    predicate Accepts(x: char, isDigit: char -> bool)
    {
      match this
      case AnyDigit => isDigit(x)
      case Literal(c) => x == c
    }
  }

  /** `\d{4}-\d{2}-\d{2}` written out one position at a time. */
  const DATE_PATTERN: seq<PatternChar> :=
    [AnyDigit, AnyDigit, AnyDigit, AnyDigit, Literal('-'), AnyDigit, AnyDigit, Literal('-'), AnyDigit, AnyDigit]

  /** `^\d{4}-\d{2}-\d{2}$`. The regex's `\d` is Unicode-aware; which
      characters it takes as digits is the parameter `isDigit`. */
  predicate DateShape(s: string, isDigit: char -> bool): (matches: bool)
    ensures matches <==> |s| == 10 && forall k :: 0 <= k < 10 ==> DATE_PATTERN[k].Accepts(s[k], isDigit)
  {
    && |s| == 10 && s[4] == '-' && s[7] == '-'
    && isDigit(s[0]) && isDigit(s[1]) && isDigit(s[2]) && isDigit(s[3])
    && isDigit(s[5]) && isDigit(s[6]) && isDigit(s[8]) && isDigit(s[9])
  }

  /** `\d` takes at least the ten ASCII digits. */
  predicate CoversAsciiDigits(isDigit: char -> bool)
  {
    forall c :: Dates.IsAsciiDigit(c) ==> isDigit(c)
  }

  /** `POST /api/ledger-transactions`: the input carries no validation
      attribute, so every check is here, each a 400 without a body and
      without a repository call; a passing request is stored as given. */
  function Create(payload: Extracted<CreateLedgerTransactionInput>, isDigit: char -> bool,
                  created: Result<LedgerTransactionEntity>): (h: Handled<LedgerTransactionModel>)
    ensures payload.Malformed? ==> h == RejectedRequest()
    ensures payload.Parsed? ==>
      var i := payload.value;
      && (h.calls == [] <==> i.debitAccountId <= 0 || i.creditAccountId <= 0 || i.amount <= 0 || !DateShape(i.date, isDigit))
      && (h.calls == [] ==> h.response == Finish(BAD_REQUEST))
      && (h.calls != [] ==> h.calls == [LedgerTransactionsCreate(i.debitAccountId, i.creditAccountId, i.date, i.amount)])
      && (h.calls != [] && created.Err? ==> h.response == Finish(INTERNAL_SERVER_ERROR))
      && (h.calls != [] && created.Ok? ==> h.response == Response(OK, Model(FromEntity(created.value))))
  {
    match payload
    case Malformed => RejectedRequest()
    case Parsed(i) =>
      if i.debitAccountId <= 0 || i.creditAccountId <= 0 then Handled(Finish(BAD_REQUEST), [])
      else if i.amount <= 0 then Handled(Finish(BAD_REQUEST), [])
      else if !DateShape(i.date, isDigit) then Handled(Finish(BAD_REQUEST), [])
      else
        var calls := [LedgerTransactionsCreate(i.debitAccountId, i.creditAccountId, i.date, i.amount)];
        match created
        case Ok(e) => Handled(Response(OK, Model(FromEntity(e))), calls)
        case Err => Handled(Finish(INTERNAL_SERVER_ERROR), calls)
  }

  /** The date a transaction is answered with passes the date check of
      `Create` exactly when its year has four digits, and its fields read
      back as the stored date. */
  lemma ResponseDateRoundTrip(e: LedgerTransactionEntity, isDigit: char -> bool)
    requires CoversAsciiDigits(isDigit)
    ensures DateShape(FromEntity(e).date, isDigit) <==> 0 <= e.date.year <= 9999
    ensures 0 <= e.date.year <= 9999 ==>
      && Dates.ValueOf(FromEntity(e).date[0..4]) == e.date.year
      && Dates.ValueOf(FromEntity(e).date[5..7]) == e.date.month
      && Dates.ValueOf(FromEntity(e).date[8..10]) == e.date.day
  {
    Dates.FormatWidth(e.date);
    if 0 <= e.date.year <= 9999 {
      Dates.FormatLayout(e.date);
      var s := FromEntity(e).date;
      assert Dates.IsAsciiDigit(s[0]) && Dates.IsAsciiDigit(s[1]) && Dates.IsAsciiDigit(s[2]);
      assert Dates.IsAsciiDigit(s[3]) && Dates.IsAsciiDigit(s[5]) && Dates.IsAsciiDigit(s[6]);
      assert Dates.IsAsciiDigit(s[8]) && Dates.IsAsciiDigit(s[9]);
    }
  }

  /** The check is on the shape only: a month 13 and a day 45 reach the
      repository, while text that is not a date is refused. */
  lemma ShapeIsNotCalendar(isDigit: char -> bool, created: Result<LedgerTransactionEntity>)
    requires CoversAsciiDigits(isDigit)
    ensures Create(Parsed(CreateLedgerTransactionInput(1, 2, "2025-13-45", 100)), isDigit, created).calls
            == [LedgerTransactionsCreate(1, 2, "2025-13-45", 100)]
    ensures Create(Parsed(CreateLedgerTransactionInput(1, 2, "invalid", 100)), isDigit, created).response
            == Finish(BAD_REQUEST)
  {
    var s := "2025-13-45";
    assert Dates.IsAsciiDigit(s[0]) && Dates.IsAsciiDigit(s[1]) && Dates.IsAsciiDigit(s[2]);
    assert Dates.IsAsciiDigit(s[3]) && Dates.IsAsciiDigit(s[5]) && Dates.IsAsciiDigit(s[6]);
    assert Dates.IsAsciiDigit(s[8]) && Dates.IsAsciiDigit(s[9]);
    assert DateShape(s, isDigit);
  }

  /** `GET /api/ledger-transactions?account=..`: the account id and the
      validated window go to the repository and the window is echoed. */
  function List(query: Extracted<ListLedgerTransactionsInput>, rows: Result<Page.Page<LedgerTransactionEntity>>)
    : (h: Handled<Page.Page<LedgerTransactionModel>>)
    ensures (query.Malformed? || !Pagination.ValidListQuery(Query(query.value))) ==> h == RejectedRequest()
    ensures query.Parsed? && Pagination.ValidListQuery(Query(query.value)) ==>
      var (limit, offset) := Pagination.Window(Query(query.value));
      && h.calls == [LedgerTransactionsList(query.value.accountId, limit, offset)]
      && (rows.Err? ==> h.response == Finish(INTERNAL_SERVER_ERROR))
      && (rows.Ok? ==> h.response == Response(OK, Model(Page.Echo(limit, offset, rows.value, FromEntity))))
  {
    if query.Malformed? || !Pagination.ValidListQuery(Query(query.value)) then RejectedRequest()
    else
      var (limit, offset) := Pagination.Window(Query(query.value));
      var calls := [LedgerTransactionsList(query.value.accountId, limit, offset)];
      match rows
      case Err => Handled(Finish(INTERNAL_SERVER_ERROR), calls)
      case Ok(p) => Handled(Response(OK, Model(Page.Echo(limit, offset, p, FromEntity))), calls)
  }

  /** `GET /api/ledger-transactions/{id}`: 404 and 500 without a body. */
  function Get(id: I32, found: Result<Option<LedgerTransactionEntity>>): (h: Handled<LedgerTransactionModel>)
    ensures h.calls == [LedgerTransactionsGet(id)]
    ensures found == Ok(None) ==> h.response == Finish(NOT_FOUND)
    ensures found.Err? ==> h.response == Finish(INTERNAL_SERVER_ERROR)
    ensures found.Ok? && found.value.Some? ==> h.response == Response(OK, Model(FromEntity(found.value.value)))
  {
    var calls := [LedgerTransactionsGet(id)];
    match found
    case Ok(Some(e)) => Handled(Response(OK, Model(FromEntity(e))), calls)
    case Ok(None) => Handled(Finish(NOT_FOUND), calls)
    case Err => Handled(Finish(INTERNAL_SERVER_ERROR), calls)
  }

  /** `DELETE /api/ledger-transactions/{id}`: 204, 404 or 500, never a body. */
  function Delete(id: I32, deleted: Result<bool>): (h: Handled<LedgerTransactionModel>)
    ensures h.calls == [LedgerTransactionsDelete(id)] && h.response.body.Empty?
    ensures h.response.status == NO_CONTENT <==> deleted == Ok(true)
    ensures h.response.status == NOT_FOUND <==> deleted == Ok(false)
    ensures h.response.status == INTERNAL_SERVER_ERROR <==> deleted.Err?
  {
    var calls := [LedgerTransactionsDelete(id)];
    match deleted
    case Err => Handled(Finish(INTERNAL_SERVER_ERROR), calls)
    case Ok(false) => Handled(Finish(NOT_FOUND), calls)
    case Ok(true) => Handled(Finish(NO_CONTENT), calls)
  }
}
