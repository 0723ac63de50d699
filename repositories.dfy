// The repository interface the handlers call through the application state.
// The repositories themselves are not modelled: a handler receives the outcome
// of every call it may make as an argument, and reports the calls it actually
// made, with their arguments and in order, as a trace of `Call` values.

module Repositories {
  import opened Ints

  datatype Call =
    // ledger_accounts
    | LedgerAccountsCreate(accountType: string, name: string)
    | LedgerAccountsList(limit: U64, offset: U64)
    | LedgerAccountsGet(id: I32)
    | LedgerAccountsDelete(id: I32)
    // ledger_transactions
    | LedgerTransactionsCreate(debitAccount: I32, creditAccount: I32, date: string, amount: I32)
    | LedgerTransactionsList(ledgerAccountId: I32, limit: U64, offset: U64)
    | LedgerTransactionsGet(id: I32)
    | LedgerTransactionsDelete(id: I32)
    // contacts
    | ContactsCreateCustomer(name: string, accountId: I32, street1: string, street2: string,
                             postalCode: string, city: string, country: string)
    | ContactsCreateSupplier(name: string, accountId: I32, street1: string, street2: string,
                             postalCode: string, city: string, country: string)
    | ContactsListCustomers(limit: U64, offset: U64)
    | ContactsListSuppliers(limit: U64, offset: U64)
    | ContactsGet(id: I32)
    | ContactsDelete(id: I32)
    // users
    | UsersCreate(email: string, passHash: string, firstName: string, lastName: string)
    | UsersList(limit: U64, offset: U64)
    | UsersGet(id: I32)
    | UsersGetByEmail(email: string)
    | UsersDelete(id: I32)
    // products
    | ProductsCreate(name: string)
    | ProductsGet(id: I32)
    | ProductsDelete(id: I32)
    // variants
    | VariantsCreate(productId: I32, name: string, salePrice: I32, purchasePrice: I32)
    | VariantsList(productId: I32, limit: U64, offset: U64)
    | VariantsGet(id: I32)
    | VariantsDelete(id: I32)
    // taxes
    | TaxesCreate(name: string, nameShort: string, rate: real, accountId: I32)
    | TaxesGet(id: I32)
    // stocks
    | StocksCreateOwn(name: string)
    | StocksCreateForContact(name: string, contactId: I32)
}

/** `models/page.rs`: one page of a listing. */
module Page {
  import opened Ints

  datatype Page<T> = Page(limit: U64, offset: U64, total: U64, data: seq<T>)

  /** The page a list handler answers with: its own `limit` and `offset`, the
      repository's `total`, and every repository row mapped to its model. */
  function Echo<E, M>(limit: U64, offset: U64, rows: Page<E>, toModel: E -> M): (p: Page<M>)
    ensures p.limit == limit && p.offset == offset && p.total == rows.total
    ensures |p.data| == |rows.data|
    ensures forall i :: 0 <= i < |p.data| ==> p.data[i] == toModel(rows.data[i])
  {
    Page(limit, offset, rows.total, seq(|rows.data|, i requires 0 <= i < |rows.data| => toModel(rows.data[i])))
  }
}

/** The HTTP surface: statuses, response bodies and what an extractor hands over. */
module Http {
  import opened Json
  import opened Repositories

  const OK: int := 200
  const NO_CONTENT: int := 204
  const BAD_REQUEST: int := 400
  const NOT_FOUND: int := 404
  const CONFLICT: int := 409
  const INTERNAL_SERVER_ERROR: int := 500
  const SERVICE_UNAVAILABLE: int := 503

  /** `Empty` is `.finish()`; `ApiError` is the JSON of an `ApiErrors` value;
      `Model` is `.json(model)`; `Rejected` is the extractor's own 400 answer. */
  datatype Body<M> = Empty | ApiError(json: Value) | Model(model: M) | Rejected

  datatype Response<M> = Response(status: int, body: Body<M>)

  /** What `Json<T>`, `Query<T>` or `Path<T>` produce: `Malformed` when serde
      cannot deserialise the request part (a missing field, a wrong type, a
      number outside the field's integer type). */
  datatype Extracted<T> = Malformed | Parsed(value: T)

  /** A handler's answer together with the repository calls it made, in order. */
  datatype Handled<M> = Handled(response: Response<M>, calls: seq<Call>)

  /** `HttpResponse::<Status>().finish()`: a status without a body. */
  function Finish<M>(status: int): (r: Response<M>)
    ensures r.status == status && r.body.Empty?
  {
    Response(status, Empty)
  }

  /** The 400 an extractor answers with before the handler body runs. */
  function RejectedRequest<M>(): (h: Handled<M>)
    ensures h.response.status == BAD_REQUEST && h.response.body.Rejected? && h.calls == []
  {
    Handled(Response(BAD_REQUEST, Rejected), [])
  }
}
