# liro backend — request validation and response decisions, in Dafny

This project models the deterministic core of the liro ERP backend, an
actix-web REST service over a PostgreSQL schema of ledger accounts,
ledger transactions, contacts (customers and suppliers), users, products,
variants, taxes and stocks. It covers:

- **The password rule** of `utils/password.rs`: a password is secure when it has a lowercase
  letter, an uppercase letter, a digit and a special character. The special class is
  modelled item by item as the regex crate parses it (`,-.` is a range, `[\\]` is a
  nested class), and proved to be space plus ASCII punctuation without `[` and `]`.
- **The error catalogue** of `err/mod.rs`: five errors, each with a status, a
  message and a code, and the JSON response built from them.
- **The handlers of eight resources** (`handlers/contacts.rs`, `ledger_accounts.rs`,
  `ledger_transactions.rs`, `users.rs`, `products.rs`, `variants.rs`, `taxes.rs` and
  `stocks.rs`), each endpoint whose body is implemented, as a function of what its extractors
  produced and of the outcome of each repository call it may make
  (`Err`, `Ok(None)`, `Ok(Some(row))`, `Ok(bool)`). It returns the response
  (status and body) and the trace of repository calls it made, with their arguments.
  Properties of the form "the repository is never asked to create" are statements about
  that trace.
- **The input records** of `models/` as the set of fields `validate()` reports.
  A non-empty set (or a body serde cannot read) is the extractor's 400 before
  the handler body runs.
- **The entity-to-response mappings**: the `From` impls, the JSON keys of users
  and stocks, the `%Y-%m-%d` date rendering, and the four status-enum maps against
  the labels the migration declares.
- **Pagination**: limit 100 and offset 0 when absent, and a page that echoes them with the
  repository's total.

Files:

| file | content |
|---|---|
| `foundation.dfy` | `Option`/`Result`, the `i32`/`u64` ranges, JSON values |
| `repositories.dfy` | repository calls, `Page`, HTTP statuses, bodies and extractor outcomes |
| `errors.dfy` | `err/mod.rs` |
| `password.dfy` | `utils/password.rs` |
| `dates.dfy` | chrono's `NaiveDate` and its `%Y-%m-%d` rendering |
| `pagination.dfy` | the `limit`/`offset` query shared by the list inputs |
| `models_*.dfy` | `models/*.rs` |
| `handlers_*.dfy` | `handlers/{contacts,ledger_accounts,ledger_transactions,users,products,variants,taxes,stocks}.rs` |

Body kinds: `Empty` is `.finish()`, `ApiError(json)` is an `ApiErrors` value converted to a
response, `Model(m)` is `.json(m)`, and `Rejected` is the extractor's own 400.

Where the OpenAPI annotations and the code disagree, the model follows the code.
`create_customer` is documented as answering 400 for a missing account, but it answers
`ACCOUNT_NOT_FOUND`, i.e. 404. The `delete` of variants is documented as answering 400
for a missing variant, but it answers `VARIANT_NOT_FOUND`, i.e. 404.

## Model

| member | source | states |
|---|---|---|
| `Errors.Status` | backend/src/err/mod.rs:16-39 | 404 exactly for `AccountNotFound` and `VariantNotFound`, 400 exactly for `InvalidAccountType`, 500 exactly for `InternalServerError`, 503 (not 500) exactly for `DatabaseUnreachable` |
| `Errors.Message` | backend/src/err/mod.rs:41-49 | every error has a non-empty message for people, beginning with a capital letter; no two share one (`MessageInjective`) |
| `Errors.Code` | backend/src/err/mod.rs:51-59 | every error has a non-empty code in upper snake case (`A`-`Z` and `_` only); no two share one (`CodeInjective`) |
| `Errors.FromCode` | backend/src/err/mod.rs:10-14 | a client reading an `errorCode` back: whatever it recognises is the code of the error it returns |
| `Errors.CodeRoundTrip` | backend/src/err/mod.rs:51-59 | every error's code reads back as that error |
| `Errors.CodeInjective` | backend/src/err/mod.rs:51-59 | no two errors share a code |
| `Errors.MessageInjective` | backend/src/err/mod.rs:41-49 | no two errors share a message |
| `Errors.ToJson` | backend/src/err/mod.rs:61-66 | the JSON has exactly the keys `error` (the message) and `errorCode` (the code) |
| `Errors.IntoResponse` | backend/src/err/mod.rs:69-73 | the response carries the variant's own status and the variant's own JSON |
| `Errors.BodyIdentifiesError` | backend/src/err/mod.rs:61-73 | two error responses with equal bodies come from the same error |
| `Password.SpecialClassIsSpaceAndPunctuation` | backend/src/utils/password.rs:16 | the special class holds exactly space and ASCII punctuation other than `[` and `]` |
| `Password.Contains` | backend/src/utils/password.rs:4-5 | the scan is true exactly when some character of the password is in the class |
| `Password.ContainsIsRegexMatch` | backend/src/utils/password.rs:4-5 | the scan agrees with the regex question "is there a non-empty run of class members" |
| `Password.IsSecurePassword` | backend/src/utils/password.rs:3-22 | the four checks in the source's order; an accepted password has at least four characters, although no length is checked, since no character is in two of the classes |
| `Password.FourClassesNeedFourCharacters` | backend/src/utils/password.rs:3-22 | a password holding a member of each of the four classes has at least four characters |
| `Password.SecureIffAllFourClasses` | backend/src/utils/password.rs:3-22 | accepted exactly when there is a lowercase letter, an uppercase letter, a digit and a special character; length plays no part |
| `Password.MissingClassRejects` | backend/src/utils/password.rs:4-19 | lacking any one of the four kinds of character means rejection |
| `Password.VerdictDependsOnCharactersOnly` | backend/src/utils/password.rs:3-22 | two passwords with the same set of characters get the same verdict, whatever the order or repetition |
| `Password.Monotone` | backend/src/utils/password.rs:3-22 | appending characters to an accepted password keeps it accepted |
| `Password.RejectsSingleLetter` | backend/src/tests/users_create.rs:103-128 | "a" is rejected |
| `Password.AcceptsTestPassword` | backend/src/tests/users_create.rs:11-61 | "Password123!" is accepted |
| `Password.SpaceAndBackslashAreSpecial` | backend/src/utils/password.rs:16 | space and backslash count as special characters |
| `Password.BracketsAreNotSpecial` | backend/src/utils/password.rs:16 | `[` and `]` do not count as special characters |
| `Dates.FormatYear` | backend/src/models/ledger_transaction.rs:22 | `%Y` has at least four characters, and begins with `-` exactly for negative years and with `+` exactly for years above 9999 |
| `Dates.Format` | backend/src/models/ledger_transaction.rs:22 | `%Y-%m-%d` is the year followed by six characters, with dashes six and three places from the end, whatever the year |
| `Dates.FormatWidth` | backend/src/models/ledger_transaction.rs:22 | the rendered date is ten characters exactly when the year lies in 0..=9999 |
| `Dates.FormatLayout` | backend/src/models/ledger_transaction.rs:22 | for such a year the text is `YYYY-MM-DD` in ASCII digits, and its three fields read back as the stored year, month and day |
| `Pagination.Window` | backend/src/handlers/ledger_accounts.rs:35-36 | limit 100 and offset 0 when absent, the given values otherwise; a validated query always gives a limit in 1..=100 |
| `Page.Echo` | backend/src/models/page.rs:3-9 | the page echoes the handler's limit and offset and the repository's total, and maps every row in order |
| `ModelsContacts.FromEntity` | backend/src/models/contacts.rs:25-41 | all eleven columns are reported unchanged |
| `ModelsContacts.FromEntityInjective` | backend/src/models/contacts.rs:25-41 | distinct rows give distinct responses |
| `ModelsContacts.Violations` | backend/src/models/contacts.rs:43-61 | name of 1 to 128 characters, account id at least 1, the five address fields possibly empty but at most 128 characters; each field reported exactly when its bound fails |
| `ModelsUsers.FromEntity` | backend/src/models/users.rs:13-22 | id, email and both names unchanged |
| `ModelsUsers.ToJson` | backend/src/models/users.rs:5-11 | the JSON keys are exactly `id`, `email`, `first_name`, `last_name`, each holding the model's field of that name (no rename) |
| `ModelsUsers.ResponseIgnoresHash` | backend/src/models/users.rs:5-22 | the response does not depend on the stored hash and has no key for it |
| `ModelsUsers.Violations` | backend/src/models/users.rs:24-37 | email of 1 to 64 characters that passes the email check; password, first and last name of 1 to 64 characters |
| `ModelsLedgerAccounts.FromEntity` | backend/src/models/ledger_accounts.rs:13-21 | id, type and name unchanged |
| `ModelsLedgerAccounts.Violations` | backend/src/models/ledger_accounts.rs:23-30 | type and name each reported exactly when empty |
| `ModelsLedgerAccounts.NoUpperBound` | backend/src/models/ledger_accounts.rs:25-29 | any non-empty pair passes, however long |
| `ModelsLedgerTransaction.Query` | backend/src/models/ledger_transaction.rs:38-46 | the listing's window is taken from the input's own `limit` and `offset`, unchanged |
| `ModelsLedgerTransaction.FromEntity` | backend/src/models/ledger_transaction.rs:16-26 | ids and amount unchanged, the date rendered `%Y-%m-%d` |
| `ModelsProducts.FromEntity` | backend/src/models/products.rs:11-18 | id and name unchanged |
| `ModelsProducts.Violations` | backend/src/models/products.rs:20-24 | the name is reported exactly when it is empty or longer than 32 characters |
| `ModelsVariants.FromEntity` | backend/src/models/variants.rs:17-27 | all five columns unchanged |
| `ModelsVariants.PathViolations` | backend/src/models/variants.rs:29-33 | the path id is reported exactly when below 1 |
| `ModelsVariants.Violations` | backend/src/models/variants.rs:35-48 | name of 1 to 64 characters, prices at least 0, product id at least 1 |
| `ModelsTaxes.FromEntity` | backend/src/models/taxes.rs:16-26 | all five columns unchanged |
| `ModelsTaxes.Violations` | backend/src/models/taxes.rs:28-39 | name and short name of 1 to 32 characters, rate at least 0; the account id is never reported |
| `ModelsStocks.FromEntity` | backend/src/models/stocks.rs:15-24 | id, name, ownership flag and owner unchanged |
| `ModelsStocks.ToJson` | backend/src/models/stocks.rs:5-13 | the keys are `id`, `name`, `own`, `owner`: `id` and `name` hold the id and name, `own` the ownership flag, `owner` the owner id or null |
| `ModelsStocks.Violations` | backend/src/models/stocks.rs:26-30 | the name is reported exactly when empty; no upper bound |
| `ModelsSaleOrders.StatusLabel` | backend/src/models/sale_orders.rs:20-25 | every label is one the database enum declares, and the k-th variant of the enum gets exactly the k-th declared label |
| `ModelsSaleOrders.ParseStatus` | backend/migration/src/m20220101_000001_init.rs:15-16 | the database's reading of a label inverts `StatusLabel`, and fails exactly on text outside the declared labels |
| `ModelsSaleOrders.StatusLabelsMatchDatabase` | backend/src/models/sale_orders.rs:18-37 | labels round-trip, the map is injective, and every declared label is reached |
| `ModelsSaleOrders.FromEntity` | backend/src/models/sale_orders.rs:27-35 | the status is a declared label that reads back as the stored status; the date rendered, other columns unchanged |
| `ModelsSaleInvoices.StatusLabel` | backend/src/models/sale_invoices.rs:19-24 | every label is one the database enum declares, and the k-th variant of the enum gets exactly the k-th declared label |
| `ModelsSaleInvoices.ParseStatus` | backend/migration/src/m20220101_000001_init.rs:24-25 | inverts `StatusLabel`; fails exactly outside the declared labels |
| `ModelsSaleInvoices.StatusLabelsMatchDatabase` | backend/src/models/sale_invoices.rs:17-35 | labels round-trip, the map is injective, and every declared label is reached |
| `ModelsSaleInvoices.FromEntity` | backend/src/models/sale_invoices.rs:26-34 | the status is a declared label that reads back as the stored status; other columns unchanged |
| `ModelsPurchaseOrders.StatusLabel` | backend/src/models/purchase_orders.rs:20-23 | every label is one the database enum declares, and the k-th variant of the enum gets exactly the k-th declared label |
| `ModelsPurchaseOrders.ParseStatus` | backend/migration/src/m20220101_000001_init.rs:33-34 | inverts `StatusLabel`; fails exactly outside the declared labels |
| `ModelsPurchaseOrders.StatusLabelsMatchDatabase` | backend/src/models/purchase_orders.rs:18-35 | labels round-trip, the map is injective, and every declared label is reached |
| `ModelsPurchaseOrders.FromEntity` | backend/src/models/purchase_orders.rs:25-34 | the status is a declared label that reads back as the stored status; other columns unchanged |
| `ModelsPurchaseInvoices.StatusLabel` | backend/src/models/purchase_invoices.rs:18-21 | every label is one the database enum declares, and the k-th variant of the enum gets exactly the k-th declared label |
| `ModelsPurchaseInvoices.ParseStatus` | backend/migration/src/m20220101_000001_init.rs:42-43 | inverts `StatusLabel`; fails exactly outside the declared labels |
| `ModelsPurchaseInvoices.StatusLabelsMatchDatabase` | backend/src/models/purchase_invoices.rs:16-32 | labels round-trip, the map is injective, and every declared label is reached |
| `ModelsPurchaseInvoices.FromEntity` | backend/src/models/purchase_invoices.rs:23-31 | the status is a declared label that reads back as the stored status; other columns unchanged |
| `LedgerAccountsHandlers.Create` | backend/src/handlers/ledger_accounts.rs:10-30 | an invalid body is a 400 with no call; a type outside the four allowed is `INVALID_ACCOUNT_TYPE` with no call; otherwise `create(type, name)` unchanged, 200 exactly when it succeeds (with the stored row), else `INTERNAL_SERVER_ERROR` |
| `LedgerAccountsHandlers.CapitalisedTypeIsRejected` | backend/src/handlers/ledger_accounts.rs:14-17 | the whitelist is case-sensitive: "Asset" is refused with 400 and no call |
| `LedgerAccountsHandlers.List` | backend/src/handlers/ledger_accounts.rs:34-55 | the validated window, defaults filled in, is passed to the repository and echoed with its total; a failure is a bare 500 |
| `LedgerAccountsHandlers.Get` | backend/src/handlers/ledger_accounts.rs:59-71 | one lookup; none is a bare 404, a failure a bare 500, a row is 200 with the row |
| `LedgerAccountsHandlers.Delete` | backend/src/handlers/ledger_accounts.rs:75-89 | 204 exactly when a row went, 404 exactly when none did, 500 exactly on failure; never a body |
| `LedgerTransactionsHandlers.DateShape` | backend/src/handlers/ledger_transactions.rs:26-29 | a date passes exactly when it has ten characters matching the anchored pattern `\d{4}-\d{2}-\d{2}` position by position: a digit, or the literal dash at positions 4 and 7 |
| `LedgerTransactionsHandlers.Create` | backend/src/handlers/ledger_transactions.rs:14-45 | no call, and a bare 400, exactly when an account id or the amount is not positive or the date is not `\d{4}-\d{2}-\d{2}`; otherwise `create` with the four values unchanged, 200 with the row or a bare 500 |
| `LedgerTransactionsHandlers.ResponseDateRoundTrip` | backend/src/models/ledger_transaction.rs:22 | a rendered date passes the create check exactly when the year has four digits, and then reads back as the stored date |
| `LedgerTransactionsHandlers.ShapeIsNotCalendar` | backend/src/handlers/ledger_transactions.rs:26-29 | "2025-13-45" passes and reaches the repository; "invalid" is a 400 |
| `LedgerTransactionsHandlers.List` | backend/src/handlers/ledger_transactions.rs:49-75 | the account id and the validated window go to the repository; the page echoes the window and total; a failure is a bare 500 |
| `LedgerTransactionsHandlers.Get` | backend/src/handlers/ledger_transactions.rs:79-91 | none is a bare 404, a failure a bare 500, a row is 200 with the row |
| `LedgerTransactionsHandlers.Delete` | backend/src/handlers/ledger_transactions.rs:95-109 | 204, 404 or 500 exactly as the repository answers true, false or fails |
| `ContactsHandlers.CreateCustomer` | backend/src/handlers/contacts.rs:37-68 | the account is looked up first; none is `ACCOUNT_NOT_FOUND`, a failure `INTERNAL_SERVER_ERROR`, and neither creates; otherwise the customer is created with the seven values unchanged and returned |
| `ContactsHandlers.CreateSupplier` | backend/src/handlers/contacts.rs:80-111 | the same steps with bare 404 and 500 |
| `ContactsHandlers.CreatesAgree` | backend/src/handlers/contacts.rs:37-111 | for the same outcomes both creates answer the same status after the same number of calls; they differ only in the failure bodies |
| `ContactsHandlers.InvalidInputNeverReachesRepositories` | backend/src/models/contacts.rs:45-49 | an empty name or an account id below 1 is a 400 and no repository is asked |
| `ContactsHandlers.ListContacts` | backend/src/handlers/contacts.rs:115-159 | the validated window goes to the customers or suppliers listing and is echoed; a failure is `INTERNAL_SERVER_ERROR` |
| `ContactsHandlers.ListCustomers` | backend/src/handlers/contacts.rs:115-135 | `ListContacts` with the customer role flag (`suppliers` false), so every outcome is `ListContacts`'s; the one call it makes is the customer listing |
| `ContactsHandlers.ListSuppliers` | backend/src/handlers/contacts.rs:139-159 | `ListContacts` with the supplier role flag (`suppliers` true), so every outcome is `ListContacts`'s; the one call it makes is the supplier listing |
| `ContactsHandlers.GetContact` | backend/src/handlers/contacts.rs:163-199 | 200 exactly when the row exists and has the requested role; a missing row or the other role is a bare 404; a failure is `INTERNAL_SERVER_ERROR` |
| `ContactsHandlers.GetCustomer` | backend/src/handlers/contacts.rs:163-179 | `GetContact` with the customer role flag: 200 exactly for an existing row with `is_customer`, otherwise `GetContact`'s 404 or JSON 500 |
| `ContactsHandlers.GetSupplier` | backend/src/handlers/contacts.rs:183-199 | `GetContact` with the supplier role flag: 200 exactly for an existing row with `is_supplier`, otherwise `GetContact`'s 404 or JSON 500 |
| `ContactsHandlers.KindDecidesVisibility` | backend/src/handlers/contacts.rs:173-195 | a customer-only row is found as a customer and is a 404 as a supplier |
| `ContactsHandlers.Delete` | backend/src/handlers/contacts.rs:203-235 | both deletes: 204 exactly when a row went, a bare 404 when none did, `INTERNAL_SERVER_ERROR` on failure; no role check |
| `UsersHandlers.Create` | backend/src/handlers/users.rs:13-52 | names and password checked before any call (400); then the email lookup (failure 500, taken 409, no create); then the hash (failure 500, no create); then `create` with the hash, not the password, and email and names unchanged |
| `UsersHandlers.SuccessMeansFreshEmail` | backend/src/handlers/users.rs:26-51 | a 200 means the email was free, the hash succeeded and the stored hash is the hash output; the response has no hash key |
| `UsersHandlers.WeakPasswordIsRefusedEarly` | backend/src/tests/users_create.rs:103-128 | password "a" is a 400 before the email lookup |
| `UsersHandlers.List` | backend/src/handlers/users.rs:56-73 | validated window, defaults, echo; a failure is a bare 500 |
| `UsersHandlers.Get` | backend/src/handlers/users.rs:77-89 | none is a bare 404, a failure a bare 500 |
| `UsersHandlers.Delete` | backend/src/handlers/users.rs:93-106 | 204, 404 or 500 exactly as the repository answers true, false or fails |
| `ProductsHandlers.Create` | backend/src/handlers/products.rs:12-24 | the name is stored unchanged; 200 with the row or `INTERNAL_SERVER_ERROR` |
| `ProductsHandlers.NameBounds` | backend/src/models/products.rs:22 | an empty name or one over 32 characters never reaches the repository |
| `ProductsHandlers.Delete` | backend/src/handlers/products.rs:40-54 | 204 exactly when a row went, a bare 404 when none did, `INTERNAL_SERVER_ERROR` on failure |
| `VariantsHandlers.Create` | backend/src/handlers/variants.rs:12-38 | the product is looked up first; none is a bare 404, a failure a bare 500, and neither creates; otherwise the variant is created with the four values unchanged |
| `VariantsHandlers.QuirkWindow` | backend/src/handlers/variants.rs:48-49 | the limit is the `offset` parameter (100 when absent), the offset as elsewhere |
| `VariantsHandlers.ListWith` | backend/src/handlers/variants.rs:42-74 | the body of `list` for any way of choosing the window: a malformed query is the extractor's 400, and after a found product the calls are the product lookup and the listing with the chosen window |
| `VariantsHandlers.List` | backend/src/handlers/variants.rs:42-74 | unvalidated query; the product is checked first (none 404, failure 500, and nothing listed); then the listing with the window as written |
| `VariantsHandlers.LimitIsIgnored` | backend/src/handlers/variants.rs:48 | two queries with the same offset give the same answer and calls, whatever their limits |
| `VariantsHandlers.QuirkCounterexample` | backend/src/handlers/variants.rs:48 | `limit=10&offset=0` asks the repository for a limit of 0 |
| `VariantsHandlers.ListIntended` | backend/src/handlers/variants.rs:42-74 | the corrected listing: validated window, limit in 1..=100 |
| `VariantsHandlers.QuirkAgreesOnlyWhenOffsetIsLimit` | backend/src/handlers/variants.rs:48-49 | the listing as written and the corrected one agree exactly when the offset parameter equals the intended limit |
| `VariantsHandlers.Get` | backend/src/handlers/variants.rs:78-90 | a path id below 1 is a 400 with no call; none is `VARIANT_NOT_FOUND`, a failure `INTERNAL_SERVER_ERROR` |
| `VariantsHandlers.Delete` | backend/src/handlers/variants.rs:119-133 | a path id below 1 is a 400; 204 exactly when a row went; none is `VARIANT_NOT_FOUND`, failure `INTERNAL_SERVER_ERROR` |
| `VariantsHandlers.NotFoundIsTheSameError` | backend/src/handlers/variants.rs:122-132 | a missing variant is the same 404 JSON from `get` and `delete` |
| `TaxesHandlers.Create` | backend/src/handlers/taxes.rs:12-32 | the account is looked up first; none is `ACCOUNT_NOT_FOUND`, failure `INTERNAL_SERVER_ERROR`, neither creates; otherwise the tax is stored against the found row's id with the other values unchanged |
| `TaxesHandlers.AccountIdIsNotValidated` | backend/src/models/taxes.rs:37-38 | an account id of 0 or below is looked up, and a missing account is a 404, not a 400 |
| `TaxesHandlers.Get` | backend/src/handlers/taxes.rs:42-54 | none is a bare 404, failure `INTERNAL_SERVER_ERROR`, a row is 200 |
| `StocksHandlers.CreateOwn` | backend/src/handlers/stocks.rs:11-25 | the name is stored unchanged; 200 with the stock or a bare 500 |
| `StocksHandlers.CreateContact` | backend/src/handlers/stocks.rs:29-52 | the contact is looked up first; none is a bare 404, failure a bare 500, neither creates; otherwise the stock is stored against the found contact's id |
| `StocksHandlers.KindOfContactIsIgnored` | backend/src/handlers/stocks.rs:37-44 | the contact's customer and supplier flags do not affect the outcome |

## Left out

- The repositories (`repositories/*`): almost every method is a stub. Each handler instead takes the outcome of each repository call as an argument.
- The database itself: the schema, foreign keys and migrations. The migration is used only for the four status-enum labels.
- Server bootstrap and wiring (`main.rs`, `state.rs`), async execution, actix routing and the proc macros that generate the repository traits.
- The handlers whose body is `todo!()`: products `list` and `get`; taxes `list` and `delete`; stocks `list_own`, `list_contract`, `get` and `delete`. Nothing about them is modelled.
- The constant endpoints (`handlers/info.rs`, `handlers/docs.rs`), the OpenAPI annotations and the frontend.
- `web::Path<i32>`: a path segment that is not an `i32` is refused by actix before the handler runs. The model takes the already parsed id.
- Serde deserialisation failures: an empty body, a missing field or a wrong type are all the single outcome `Malformed`, answered with 400.
- `utils::name::valid_name` is not part of this model and is the parameter `validName`. bcrypt's `hash` is the outcome parameter `hashed`. The validator crate's email check is the parameter `isEmail`.
- `LedgerTransactionsHandlers.DateShape`: the regex `\d` is Unicode-aware. It is the parameter `isDigit`, which the lemmas assume covers the ASCII digits. The model does not enumerate the other Unicode digits.
- The tax `rate` is an `f64` in the source and a real number here. NaN and rounding are not modelled.
- The `ApiErrors` error values carried by a repository `Err` are ignored: every handler maps any error the same way.
- The line/move models (`sale_order_lines.rs`, `purchase_invoice_lines.rs`, `stock_moves.rs`) only copy numeric fields. They are not modelled.
- The handlers of nine further resources that `main.rs:181-216` registers: `sale_orders`, `sale_invoices`, `purchase_orders`, `purchase_invoices`, `sale_order_lines`, `sale_invoice_lines`, `purchase_order_lines`, `purchase_invoice_lines` and `stock_moves`. Their source files are not part of this model, so their decision trees are not modelled. Only the status maps and `From` mappings of the four document models are covered.

## Findings

| source | as written | input that shows it | evidently intended | confidence | as-written member | corrected member |
|---|---|---|---|---|---|---|
| backend/src/handlers/variants.rs:48 | the listing's limit is taken from the `offset` query parameter, and the query is not validated | `GET /api/products/5/variants?limit=10&offset=0` asks the repository for 0 rows (`VariantsHandlers.QuirkCounterexample`); `offset=500` asks for 500 rows | `limit.unwrap_or(100)`, validated to 1..=100 as in every other listing | high; not executed | `VariantsHandlers.List` | `VariantsHandlers.ListIntended` |
