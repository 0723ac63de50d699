// `handlers/contacts.rs`: customers and suppliers are both rows of the
// contacts table, told apart by their `is_customer` / `is_supplier` flags.
// The customer endpoints answer failures with the JSON of an `ApiErrors`
// value; `create_supplier` answers its failures with bare statuses.

module ContactsHandlers {
  import opened Wrappers
  import opened Ints
  import opened Http
  import opened Repositories
  import Errors
  import Pagination
  import Page
  import opened ModelsContacts
  import ModelsLedgerAccounts

  /** Whether the extractor lets a create body through. */
  predicate Accepted(payload: Extracted<CreateContactInput>)
  {
    payload.Parsed? && Violations(payload.value) == {}
  }

  /** `POST /api/customers`: the ledger account must exist before the
      customer is stored; failures carry the error JSON. */
  function CreateCustomer(payload: Extracted<CreateContactInput>,
                          account: Result<Option<ModelsLedgerAccounts.LedgerAccountEntity>>,
                          created: Result<ContactEntity>): (h: Handled<ContactModel>)
    ensures !Accepted(payload) ==> h == RejectedRequest()
    ensures Accepted(payload) ==>
      var i := payload.value;
      && |h.calls| >= 1 && h.calls[0] == LedgerAccountsGet(i.accountId)
      && (account == Ok(None) ==> h.response == Errors.IntoResponse(Errors.AccountNotFound) && |h.calls| == 1)
      && (account.Err? ==> h.response == Errors.IntoResponse(Errors.InternalServerError) && |h.calls| == 1)
      && (account.Ok? && account.value.Some? ==>
            && h.calls == [LedgerAccountsGet(i.accountId),
                           ContactsCreateCustomer(i.name, i.accountId, i.street1, i.street2, i.postalCode, i.city, i.country)]
            && (created.Err? ==> h.response == Errors.IntoResponse(Errors.InternalServerError))
            && (created.Ok? ==> h.response == Response(OK, Model(FromEntity(created.value)))))
  {
    if !Accepted(payload) then RejectedRequest()
    else
      var i := payload.value;
      var lookup := [LedgerAccountsGet(i.accountId)];
      match account
      case Err => Handled(Errors.IntoResponse(Errors.InternalServerError), lookup)
      case Ok(None) => Handled(Errors.IntoResponse(Errors.AccountNotFound), lookup)
      case Ok(Some(_)) =>
        var calls := lookup + [ContactsCreateCustomer(i.name, i.accountId, i.street1, i.street2, i.postalCode, i.city, i.country)];
        match created
        case Err => Handled(Errors.IntoResponse(Errors.InternalServerError), calls)
        case Ok(e) => Handled(Response(OK, Model(FromEntity(e))), calls)
  }

  /** `POST /api/suppliers`: the same steps as `CreateCustomer`, with bare
      404 and 500 statuses. */
  function CreateSupplier(payload: Extracted<CreateContactInput>,
                          account: Result<Option<ModelsLedgerAccounts.LedgerAccountEntity>>,
                          created: Result<ContactEntity>): (h: Handled<ContactModel>)
    ensures !Accepted(payload) ==> h == RejectedRequest()
    ensures Accepted(payload) ==>
      var i := payload.value;
      && |h.calls| >= 1 && h.calls[0] == LedgerAccountsGet(i.accountId)
      && (account == Ok(None) ==> h.response == Finish(NOT_FOUND) && |h.calls| == 1)
      && (account.Err? ==> h.response == Finish(INTERNAL_SERVER_ERROR) && |h.calls| == 1)
      && (account.Ok? && account.value.Some? ==>
            && h.calls == [LedgerAccountsGet(i.accountId),
                           ContactsCreateSupplier(i.name, i.accountId, i.street1, i.street2, i.postalCode, i.city, i.country)]
            && (created.Err? ==> h.response == Finish(INTERNAL_SERVER_ERROR))
            && (created.Ok? ==> h.response == Response(OK, Model(FromEntity(created.value)))))
  {
    if !Accepted(payload) then RejectedRequest()
    else
      var i := payload.value;
      var lookup := [LedgerAccountsGet(i.accountId)];
      match account
      case Err => Handled(Finish(INTERNAL_SERVER_ERROR), lookup)
      case Ok(None) => Handled(Finish(NOT_FOUND), lookup)
      case Ok(Some(_)) =>
        var calls := lookup + [ContactsCreateSupplier(i.name, i.accountId, i.street1, i.street2, i.postalCode, i.city, i.country)];
        match created
        case Err => Handled(Finish(INTERNAL_SERVER_ERROR), calls)
        case Ok(e) => Handled(Response(OK, Model(FromEntity(e))), calls)
  }

  /** The two create endpoints take the same path through the same outcomes:
      equal statuses, the same number of calls, the same model on success;
      only the failure bodies differ (error JSON for customers, none for
      suppliers). */
  lemma CreatesAgree(payload: Extracted<CreateContactInput>,
                     account: Result<Option<ModelsLedgerAccounts.LedgerAccountEntity>>,
                     created: Result<ContactEntity>)
    ensures var c, s := CreateCustomer(payload, account, created), CreateSupplier(payload, account, created);
      && c.response.status == s.response.status
      && |c.calls| == |s.calls|
      && (c.response.status == OK ==> c.response == s.response)
      && (Accepted(payload) && c.response.status != OK ==> c.response.body.ApiError? && s.response.body.Empty?)
  {
  }

  /** A request that fails validation (an empty name, an account id below 1)
      is answered 400 and neither repository is asked anything. */
  lemma InvalidInputNeverReachesRepositories(payload: Extracted<CreateContactInput>,
                                             account: Result<Option<ModelsLedgerAccounts.LedgerAccountEntity>>,
                                             created: Result<ContactEntity>)
    requires payload.Parsed? && (payload.value.name == [] || payload.value.accountId < 1)
    ensures CreateCustomer(payload, account, created).response.status == BAD_REQUEST
    ensures CreateCustomer(payload, account, created).calls == []
    ensures CreateSupplier(payload, account, created).calls == []
  {
    if payload.value.name == [] {
      assert "name" in Violations(payload.value);
    } else {
      assert "account_id" in Violations(payload.value);
    }
  }

  /** `GET /api/customers` and `GET /api/suppliers`, which differ only in
      the repository call. */
  function ListContacts(query: Extracted<Pagination.ListQuery>, suppliers: bool,
                        rows: Result<Page.Page<ContactEntity>>): (h: Handled<Page.Page<ContactModel>>)
    ensures (query.Malformed? || !Pagination.ValidListQuery(query.value)) ==> h == RejectedRequest()
    ensures query.Parsed? && Pagination.ValidListQuery(query.value) ==>
      var (limit, offset) := Pagination.Window(query.value);
      && h.calls == [if suppliers then ContactsListSuppliers(limit, offset) else ContactsListCustomers(limit, offset)]
      && (rows.Err? ==> h.response == Errors.IntoResponse(Errors.InternalServerError))
      && (rows.Ok? ==> h.response == Response(OK, Model(Page.Echo(limit, offset, rows.value, FromEntity))))
  {
    if query.Malformed? || !Pagination.ValidListQuery(query.value) then RejectedRequest()
    else
      var (limit, offset) := Pagination.Window(query.value);
      var calls := [if suppliers then ContactsListSuppliers(limit, offset) else ContactsListCustomers(limit, offset)];
      match rows
      case Err => Handled(Errors.IntoResponse(Errors.InternalServerError), calls)
      case Ok(p) => Handled(Response(OK, Model(Page.Echo(limit, offset, p, FromEntity))), calls)
  }

  /** `list_customers`. */
  function ListCustomers(query: Extracted<Pagination.ListQuery>, rows: Result<Page.Page<ContactEntity>>)
    : (h: Handled<Page.Page<ContactModel>>)
    ensures h == ListContacts(query, false, rows)
    ensures h.calls != [] ==> h.calls[0].ContactsListCustomers?
  {
    ListContacts(query, false, rows)
  }

  /** `list_suppliers`. */
  function ListSuppliers(query: Extracted<Pagination.ListQuery>, rows: Result<Page.Page<ContactEntity>>)
    : (h: Handled<Page.Page<ContactModel>>)
    ensures h == ListContacts(query, true, rows)
    ensures h.calls != [] ==> h.calls[0].ContactsListSuppliers?
  {
    ListContacts(query, true, rows)
  }

  /** `get_customer` (`suppliers` false) and `get_supplier` (true): a missing
      row and a row of the other kind are both a bare 404; a failed query is
      the error JSON. */
  function GetContact(id: I32, suppliers: bool, found: Result<Option<ContactEntity>>): (h: Handled<ContactModel>)
    ensures h.calls == [ContactsGet(id)]
    ensures found.Err? ==> h.response == Errors.IntoResponse(Errors.InternalServerError)
    ensures h.response.status == OK <==>
      found.Ok? && found.value.Some? && (if suppliers then found.value.value.isSupplier else found.value.value.isCustomer)
    ensures h.response.status == OK ==> h.response.body == Model(FromEntity(found.value.value))
    ensures found.Ok? && h.response.status != OK ==> h.response == Finish(NOT_FOUND)
  {
    var calls := [ContactsGet(id)];
    match found
    case Err => Handled(Errors.IntoResponse(Errors.InternalServerError), calls)
    case Ok(None) => Handled(Finish(NOT_FOUND), calls)
    case Ok(Some(e)) =>
      if !(if suppliers then e.isSupplier else e.isCustomer) then Handled(Finish(NOT_FOUND), calls)
      else Handled(Response(OK, Model(FromEntity(e))), calls)
  }

  /** `get_customer`. */
  function GetCustomer(id: I32, found: Result<Option<ContactEntity>>): (h: Handled<ContactModel>)
    ensures h == GetContact(id, false, found)
  {
    GetContact(id, false, found)
  }

  /** `get_supplier`. */
  function GetSupplier(id: I32, found: Result<Option<ContactEntity>>): (h: Handled<ContactModel>)
    ensures h == GetContact(id, true, found)
  {
    GetContact(id, true, found)
  }

  /** A contact that is a customer only is found as a customer and not as a
      supplier, from the very same row. */
  lemma KindDecidesVisibility(id: I32, e: ContactEntity)
    requires e.isCustomer && !e.isSupplier
    ensures GetCustomer(id, Ok(Some(e))).response.status == OK
    ensures GetSupplier(id, Ok(Some(e))).response == Finish(NOT_FOUND)
  {
  }

  /** `delete_customer` and `delete_supplier` have the same body: the
      contact is removed whatever its kind. */
  function Delete(id: I32, deleted: Result<bool>): (h: Handled<ContactModel>)
    ensures h.calls == [ContactsDelete(id)]
    ensures h.response.status == NO_CONTENT <==> deleted == Ok(true)
    ensures deleted == Ok(true) ==> h.response.body.Empty?
    ensures deleted == Ok(false) ==> h.response == Finish(NOT_FOUND)
    ensures deleted.Err? ==> h.response == Errors.IntoResponse(Errors.InternalServerError)
  {
    var calls := [ContactsDelete(id)];
    match deleted
    case Err => Handled(Errors.IntoResponse(Errors.InternalServerError), calls)
    case Ok(false) => Handled(Finish(NOT_FOUND), calls)
    case Ok(true) => Handled(Finish(NO_CONTENT), calls)
  }
}
