// `handlers/products.rs`, `handlers/variants.rs`, `handlers/taxes.rs` and
// `handlers/stocks.rs`. Handlers whose body is `todo!()` are not modelled.

module ProductsHandlers {
  import opened Wrappers
  import opened Ints
  import opened Http
  import opened Repositories
  import Errors
  import opened ModelsProducts

  /** `POST /api/products`: the name is stored as given. */
  function Create(payload: Extracted<CreateProductInput>, created: Result<ProductEntity>): (h: Handled<ProductModel>)
    ensures (payload.Malformed? || Violations(payload.value) != {}) ==> h == RejectedRequest()
    ensures payload.Parsed? && Violations(payload.value) == {} ==>
      && h.calls == [ProductsCreate(payload.value.name)]
      && (created.Ok? ==> h.response == Response(OK, Model(FromEntity(created.value))))
      && (created.Err? ==> h.response == Errors.IntoResponse(Errors.InternalServerError))
  {
    match payload
    case Malformed => RejectedRequest()
    case Parsed(i) =>
      if Violations(i) != {} then RejectedRequest()
      else
        var calls := [ProductsCreate(i.name)];
        match created
        case Err => Handled(Errors.IntoResponse(Errors.InternalServerError), calls)
        case Ok(e) => Handled(Response(OK, Model(FromEntity(e))), calls)
  }

  /** An empty name or one longer than 32 characters never reaches the repository. */
  lemma NameBounds(name: string, created: Result<ProductEntity>)
    requires name == [] || |name| > 32
    ensures Create(Parsed(CreateProductInput(name)), created) == RejectedRequest()
  {
    assert "name" in Violations(CreateProductInput(name));
  }

  /** `DELETE /api/products/{id}`: 204, a bare 404, or the error JSON. */
  function Delete(id: I32, deleted: Result<bool>): (h: Handled<ProductModel>)
    ensures h.calls == [ProductsDelete(id)]
    ensures h.response.status == NO_CONTENT <==> deleted == Ok(true)
    ensures deleted == Ok(true) ==> h.response.body.Empty?
    ensures deleted == Ok(false) ==> h.response == Finish(NOT_FOUND)
    ensures deleted.Err? ==> h.response == Errors.IntoResponse(Errors.InternalServerError)
  {
    var calls := [ProductsDelete(id)];
    match deleted
    case Err => Handled(Errors.IntoResponse(Errors.InternalServerError), calls)
    case Ok(false) => Handled(Finish(NOT_FOUND), calls)
    case Ok(true) => Handled(Finish(NO_CONTENT), calls)
  }
}

module VariantsHandlers {
  import opened Wrappers
  import opened Ints
  import opened Http
  import opened Repositories
  import Errors
  import Pagination
  import Page
  import opened ModelsVariants
  import ModelsProducts

  /** `POST /api/variants`: the product must exist; the variant is stored
      with the four values as given. */
  function Create(payload: Extracted<CreateVariantInput>, product: Result<Option<ModelsProducts.ProductEntity>>,
                  created: Result<VariantEntity>): (h: Handled<VariantModel>)
    ensures (payload.Malformed? || Violations(payload.value) != {}) ==> h == RejectedRequest()
    ensures payload.Parsed? && Violations(payload.value) == {} ==>
      var i := payload.value;
      && |h.calls| >= 1 && h.calls[0] == ProductsGet(i.productId)
      && (product.Err? ==> h.response == Finish(INTERNAL_SERVER_ERROR) && |h.calls| == 1)
      && (product == Ok(None) ==> h.response == Finish(NOT_FOUND) && |h.calls| == 1)
      && (product.Ok? && product.value.Some? ==>
            && h.calls == [ProductsGet(i.productId), VariantsCreate(i.productId, i.name, i.salePrice, i.purchasePrice)]
            && (created.Err? ==> h.response == Finish(INTERNAL_SERVER_ERROR))
            && (created.Ok? ==> h.response == Response(OK, Model(FromEntity(created.value)))))
  {
    match payload
    case Malformed => RejectedRequest()
    case Parsed(i) =>
      if Violations(i) != {} then RejectedRequest()
      else
        var lookup := [ProductsGet(i.productId)];
        match product
        case Err => Handled(Finish(INTERNAL_SERVER_ERROR), lookup)
        case Ok(None) => Handled(Finish(NOT_FOUND), lookup)
        case Ok(Some(_)) =>
          var calls := lookup + [VariantsCreate(i.productId, i.name, i.salePrice, i.purchasePrice)];
          match created
          case Err => Handled(Finish(INTERNAL_SERVER_ERROR), calls)
          case Ok(e) => Handled(Response(OK, Model(FromEntity(e))), calls)
  }

  /** The window `list` uses as written: the limit is read from the `offset`
      parameter, so the `limit` parameter never matters. */
  function QuirkWindow(q: Pagination.ListQuery): (w: (U64, U64))
    ensures w.0 == (if q.offset.Some? then q.offset.value else Pagination.DEFAULT_LIMIT)
    ensures w.1 == Pagination.Window(q).1
  {
    (match q.offset case Some(o) => o case None => Pagination.DEFAULT_LIMIT,
     match q.offset case Some(o) => o case None => Pagination.DEFAULT_OFFSET)
  }

  /** `GET /api/products/{id}/variants` as written. The query is extracted
      with plain `web::Query`, so its bounds are not checked; the product
      must exist before variants are listed. */
  function List(productId: I32, query: Extracted<Pagination.ListQuery>,
                product: Result<Option<ModelsProducts.ProductEntity>>, rows: Result<Page.Page<VariantEntity>>)
    : (h: Handled<Page.Page<VariantModel>>)
    ensures query.Malformed? ==> h == RejectedRequest()
    ensures query.Parsed? ==>
      && |h.calls| >= 1 && h.calls[0] == ProductsGet(productId)
      && (product.Err? ==> h.response == Finish(INTERNAL_SERVER_ERROR) && |h.calls| == 1)
      && (product == Ok(None) ==> h.response == Finish(NOT_FOUND) && |h.calls| == 1)
      && (product.Ok? && product.value.Some? ==>
            var (limit, offset) := QuirkWindow(query.value);
            && h.calls == [ProductsGet(productId), VariantsList(productId, limit, offset)]
            && (rows.Err? ==> h.response == Finish(INTERNAL_SERVER_ERROR))
            && (rows.Ok? ==> h.response == Response(OK, Model(Page.Echo(limit, offset, rows.value, FromEntity)))))
  {
    ListWith(productId, query, product, rows, QuirkWindow)
  }

  /** The body of `list`, for a given way of choosing the window. */
  function ListWith(productId: I32, query: Extracted<Pagination.ListQuery>,
                    product: Result<Option<ModelsProducts.ProductEntity>>, rows: Result<Page.Page<VariantEntity>>,
                    window: Pagination.ListQuery -> (U64, U64))
    : (h: Handled<Page.Page<VariantModel>>)
    ensures query.Malformed? ==> h == RejectedRequest()
    ensures query.Parsed? && product.Ok? && product.value.Some? ==>
      h.calls == [ProductsGet(productId), VariantsList(productId, window(query.value).0, window(query.value).1)]
  {
    match query
    case Malformed => RejectedRequest()
    case Parsed(q) =>
      var lookup := [ProductsGet(productId)];
      match product
      case Err => Handled(Finish(INTERNAL_SERVER_ERROR), lookup)
      case Ok(None) => Handled(Finish(NOT_FOUND), lookup)
      case Ok(Some(_)) =>
        var (limit, offset) := window(q);
        var calls := lookup + [VariantsList(productId, limit, offset)];
        match rows
        case Err => Handled(Finish(INTERNAL_SERVER_ERROR), calls)
        case Ok(p) => Handled(Response(OK, Model(Page.Echo(limit, offset, p, FromEntity))), calls)
  }

  /** The `limit` parameter is ignored: two queries with the same offset
      produce the same response and the same calls. An `offset=0` gives a
      repository limit of 0, and an offset above 100 a limit above the
      validated maximum. */
  lemma LimitIsIgnored(productId: I32, q1: Pagination.ListQuery, q2: Pagination.ListQuery,
                       product: Result<Option<ModelsProducts.ProductEntity>>, rows: Result<Page.Page<VariantEntity>>)
    requires q1.offset == q2.offset
    ensures List(productId, Parsed(q1), product, rows) == List(productId, Parsed(q2), product, rows)
  {
    assert QuirkWindow(q1) == QuirkWindow(q2);
  }

  /** A request with `limit=10&offset=0` for an existing product asks the
      repository for zero rows, where the other listings ask for ten. */
  lemma QuirkCounterexample(productId: I32, p: ModelsProducts.ProductEntity, rows: Result<Page.Page<VariantEntity>>)
    ensures var q := Pagination.ListQuery(Some(10), Some(0));
      && List(productId, Parsed(q), Ok(Some(p)), rows).calls[1] == VariantsList(productId, 0, 0)
      && Pagination.Window(q) == (10, 0)
  {
  }

  /** `list` as evidently intended: the validated window of every other
      listing. */
  function ListIntended(productId: I32, query: Extracted<Pagination.ListQuery>,
                        product: Result<Option<ModelsProducts.ProductEntity>>, rows: Result<Page.Page<VariantEntity>>)
    : (h: Handled<Page.Page<VariantModel>>)
    ensures (query.Malformed? || !Pagination.ValidListQuery(query.value)) ==> h == RejectedRequest()
    ensures query.Parsed? && Pagination.ValidListQuery(query.value) && product.Ok? && product.value.Some? ==>
      var (limit, offset) := Pagination.Window(query.value);
      && h.calls == [ProductsGet(productId), VariantsList(productId, limit, offset)]
      && 1 <= limit <= Pagination.MAX_LIMIT
      && (rows.Ok? ==> h.response == Response(OK, Model(Page.Echo(limit, offset, rows.value, FromEntity))))
  {
    if query.Parsed? && !Pagination.ValidListQuery(query.value) then RejectedRequest()
    else ListWith(productId, query, product, rows, Pagination.Window)
  }

  /** The intended listing and the one as written agree exactly when the
      offset parameter equals the limit that would have been used. */
  lemma QuirkAgreesOnlyWhenOffsetIsLimit(productId: I32, q: Pagination.ListQuery,
                                         p: ModelsProducts.ProductEntity, rows: Result<Page.Page<VariantEntity>>)
    requires Pagination.ValidListQuery(q)
    ensures List(productId, Parsed(q), Ok(Some(p)), rows) == ListIntended(productId, Parsed(q), Ok(Some(p)), rows)
            <==> QuirkWindow(q).0 == Pagination.Window(q).0
  {
    var a := List(productId, Parsed(q), Ok(Some(p)), rows);
    var b := ListIntended(productId, Parsed(q), Ok(Some(p)), rows);
    if a == b {
      assert a.calls[1] == b.calls[1];
    }
  }

  /** `GET /api/variants/{id}`: the path id must be at least 1; a missing
      variant is the `VARIANT_NOT_FOUND` error. */
  function Get(path: Extracted<VariantsPath>, found: Result<Option<VariantEntity>>): (h: Handled<VariantModel>)
    ensures (path.Malformed? || PathViolations(path.value) != {}) ==> h == RejectedRequest()
    ensures path.Parsed? && PathViolations(path.value) == {} ==>
      && h.calls == [VariantsGet(path.value.id)]
      && (found == Ok(None) ==> h.response == Errors.IntoResponse(Errors.VariantNotFound))
      && (found.Err? ==> h.response == Errors.IntoResponse(Errors.InternalServerError))
      && (found.Ok? && found.value.Some? ==> h.response == Response(OK, Model(FromEntity(found.value.value))))
  {
    match path
    case Malformed => RejectedRequest()
    case Parsed(p) =>
      if PathViolations(p) != {} then RejectedRequest()
      else
        var calls := [VariantsGet(p.id)];
        match found
        case Ok(Some(e)) => Handled(Response(OK, Model(FromEntity(e))), calls)
        case Ok(None) => Handled(Errors.IntoResponse(Errors.VariantNotFound), calls)
        case Err => Handled(Errors.IntoResponse(Errors.InternalServerError), calls)
  }

  /** `DELETE /api/variants/{id}`: 204, or the error JSON for a variant that
      was not there and for a failed query. */
  function Delete(path: Extracted<VariantsPath>, deleted: Result<bool>): (h: Handled<VariantModel>)
    ensures (path.Malformed? || PathViolations(path.value) != {}) ==> h == RejectedRequest()
    ensures path.Parsed? && PathViolations(path.value) == {} ==>
      && h.calls == [VariantsDelete(path.value.id)]
      && (h.response.status == NO_CONTENT <==> deleted == Ok(true))
      && (deleted == Ok(true) ==> h.response.body.Empty?)
      && (deleted == Ok(false) ==> h.response == Errors.IntoResponse(Errors.VariantNotFound))
      && (deleted.Err? ==> h.response == Errors.IntoResponse(Errors.InternalServerError))
  {
    match path
    case Malformed => RejectedRequest()
    case Parsed(p) =>
      if PathViolations(p) != {} then RejectedRequest()
      else
        var calls := [VariantsDelete(p.id)];
        match deleted
        case Err => Handled(Errors.IntoResponse(Errors.InternalServerError), calls)
        case Ok(false) => Handled(Errors.IntoResponse(Errors.VariantNotFound), calls)
        case Ok(true) => Handled(Finish(NO_CONTENT), calls)
  }

  /** A missing variant is reported identically by `get` and `delete`: 404
      with the body `{"error": "Variant not found", "errorCode": "VARIANT_NOT_FOUND"}`. */
  lemma NotFoundIsTheSameError(p: VariantsPath)
    requires p.id >= 1
    ensures Get(Parsed(p), Ok(None)).response == Delete(Parsed(p), Ok(false)).response
    ensures Get(Parsed(p), Ok(None)).response.status == NOT_FOUND
    ensures Get(Parsed(p), Ok(None)).response.body.json.fields["errorCode"].s == Errors.CODE_VARIANT_NOT_FOUND
  {
  }
}

module TaxesHandlers {
  import opened Wrappers
  import opened Ints
  import opened Http
  import opened Repositories
  import Errors
  import opened ModelsTaxes
  import ModelsLedgerAccounts

  /** `POST /api/taxes`: the ledger account must exist; the tax is stored
      against the id of the row found, with the other values as given. */
  function Create(payload: Extracted<CreateTaxInput>, account: Result<Option<ModelsLedgerAccounts.LedgerAccountEntity>>,
                  created: Result<TaxEntity>): (h: Handled<TaxModel>)
    ensures (payload.Malformed? || Violations(payload.value) != {}) ==> h == RejectedRequest()
    ensures payload.Parsed? && Violations(payload.value) == {} ==>
      var i := payload.value;
      && |h.calls| >= 1 && h.calls[0] == LedgerAccountsGet(i.accountId)
      && (account.Err? ==> h.response == Errors.IntoResponse(Errors.InternalServerError) && |h.calls| == 1)
      && (account == Ok(None) ==> h.response == Errors.IntoResponse(Errors.AccountNotFound) && |h.calls| == 1)
      && (account.Ok? && account.value.Some? ==>
            && h.calls == [LedgerAccountsGet(i.accountId), TaxesCreate(i.name, i.nameShort, i.rate, account.value.value.id)]
            && (created.Err? ==> h.response == Errors.IntoResponse(Errors.InternalServerError))
            && (created.Ok? ==> h.response == Response(OK, Model(FromEntity(created.value)))))
  {
    match payload
    case Malformed => RejectedRequest()
    case Parsed(i) =>
      if Violations(i) != {} then RejectedRequest()
      else
        var lookup := [LedgerAccountsGet(i.accountId)];
        match account
        case Err => Handled(Errors.IntoResponse(Errors.InternalServerError), lookup)
        case Ok(None) => Handled(Errors.IntoResponse(Errors.AccountNotFound), lookup)
        case Ok(Some(a)) =>
          var calls := lookup + [TaxesCreate(i.name, i.nameShort, i.rate, a.id)];
          match created
          case Err => Handled(Errors.IntoResponse(Errors.InternalServerError), calls)
          case Ok(e) => Handled(Response(OK, Model(FromEntity(e))), calls)
  }

  /** The account id is not range-checked: an id of 0 or below is looked up
      like any other, and a missing account is a 404, not a 400. */
  lemma AccountIdIsNotValidated(i: CreateTaxInput, created: Result<TaxEntity>)
    requires 1 <= |i.name| <= 32 && 1 <= |i.nameShort| <= 32 && i.rate >= 0.0 && i.accountId <= 0
    ensures Create(Parsed(i), Ok(None), created).calls == [LedgerAccountsGet(i.accountId)]
    ensures Create(Parsed(i), Ok(None), created).response.status == NOT_FOUND
  {
  }

  /** `GET /api/taxes/{id}`: a bare 404, or the error JSON on a failed query. */
  function Get(id: I32, found: Result<Option<TaxEntity>>): (h: Handled<TaxModel>)
    ensures h.calls == [TaxesGet(id)]
    ensures found == Ok(None) ==> h.response == Finish(NOT_FOUND)
    ensures found.Err? ==> h.response == Errors.IntoResponse(Errors.InternalServerError)
    ensures found.Ok? && found.value.Some? ==> h.response == Response(OK, Model(FromEntity(found.value.value)))
  {
    var calls := [TaxesGet(id)];
    match found
    case Ok(Some(e)) => Handled(Response(OK, Model(FromEntity(e))), calls)
    case Ok(None) => Handled(Finish(NOT_FOUND), calls)
    case Err => Handled(Errors.IntoResponse(Errors.InternalServerError), calls)
  }
}

module StocksHandlers {
  import opened Wrappers
  import opened Ints
  import opened Http
  import opened Repositories
  import opened ModelsStocks
  import ModelsContacts

  /** `POST /api/stocks`: a stock of the company's own. */
  function CreateOwn(payload: Extracted<CreateStockInput>, created: Result<StockEntity>): (h: Handled<StockModel>)
    ensures (payload.Malformed? || Violations(payload.value) != {}) ==> h == RejectedRequest()
    ensures payload.Parsed? && Violations(payload.value) == {} ==>
      && h.calls == [StocksCreateOwn(payload.value.name)]
      && (created.Err? ==> h.response == Finish(INTERNAL_SERVER_ERROR))
      && (created.Ok? ==> h.response == Response(OK, Model(FromEntity(created.value))))
  {
    match payload
    case Malformed => RejectedRequest()
    case Parsed(i) =>
      if Violations(i) != {} then RejectedRequest()
      else
        var calls := [StocksCreateOwn(i.name)];
        match created
        case Err => Handled(Finish(INTERNAL_SERVER_ERROR), calls)
        case Ok(e) => Handled(Response(OK, Model(FromEntity(e))), calls)
  }

  /** `POST /api/contacts/{contact}/stocks`: the contact must exist; the
      stock is stored against the id of the row found. */
  function CreateContact(contact: I32, payload: Extracted<CreateStockInput>,
                         found: Result<Option<ModelsContacts.ContactEntity>>, created: Result<StockEntity>)
    : (h: Handled<StockModel>)
    ensures (payload.Malformed? || Violations(payload.value) != {}) ==> h == RejectedRequest()
    ensures payload.Parsed? && Violations(payload.value) == {} ==>
      && |h.calls| >= 1 && h.calls[0] == ContactsGet(contact)
      && (found.Err? ==> h.response == Finish(INTERNAL_SERVER_ERROR) && |h.calls| == 1)
      && (found == Ok(None) ==> h.response == Finish(NOT_FOUND) && |h.calls| == 1)
      && (found.Ok? && found.value.Some? ==>
            && h.calls == [ContactsGet(contact), StocksCreateForContact(payload.value.name, found.value.value.id)]
            && (created.Err? ==> h.response == Finish(INTERNAL_SERVER_ERROR))
            && (created.Ok? ==> h.response == Response(OK, Model(FromEntity(created.value)))))
  {
    match payload
    case Malformed => RejectedRequest()
    case Parsed(i) =>
      if Violations(i) != {} then RejectedRequest()
      else
        var lookup := [ContactsGet(contact)];
        match found
        case Err => Handled(Finish(INTERNAL_SERVER_ERROR), lookup)
        case Ok(None) => Handled(Finish(NOT_FOUND), lookup)
        case Ok(Some(c)) =>
          var calls := lookup + [StocksCreateForContact(i.name, c.id)];
          match created
          case Err => Handled(Finish(INTERNAL_SERVER_ERROR), calls)
          case Ok(e) => Handled(Response(OK, Model(FromEntity(e))), calls)
  }

  /** Any contact row will do: `create_contact` does not look at the
      contact's customer or supplier flags. */
  lemma KindOfContactIsIgnored(contact: I32, name: string, c: ModelsContacts.ContactEntity, created: Result<StockEntity>)
    requires name != []
    ensures var c2 := c.(isCustomer := !c.isCustomer, isSupplier := !c.isSupplier);
      CreateContact(contact, Parsed(CreateStockInput(name)), Ok(Some(c)), created)
      == CreateContact(contact, Parsed(CreateStockInput(name)), Ok(Some(c2)), created)
  {
  }
}
