// `models/ledger_accounts.rs` and `models/ledger_transaction.rs`.

module ModelsLedgerAccounts {
  import opened Ints

  /** `entity::ledger_accounts::Model`. */
  datatype LedgerAccountEntity = LedgerAccountEntity(id: I32, accountType: string, name: string)

  /** `LedgerAccountModel` (the type is serialised under the key `type`). */
  datatype LedgerAccountModel = LedgerAccountModel(id: I32, accountType: string, name: string)

  /** `LedgerAccountModel::from`: id, type and name as stored. */
  function FromEntity(e: LedgerAccountEntity): (m: LedgerAccountModel)
    ensures m.id == e.id && m.accountType == e.accountType && m.name == e.name
  {
    LedgerAccountModel(e.id, e.accountType, e.name)
  }

  /** `CreateLedgerAccountInput`. */
  datatype CreateLedgerAccountInput = CreateLedgerAccountInput(accountType: string, name: string)

  /** Both fields must be non-empty; neither has an upper bound. */
  function Violations(i: CreateLedgerAccountInput): (v: set<string>)
    ensures "account_type" in v <==> i.accountType == []
    ensures "name" in v <==> i.name == []
    ensures v <= {"account_type", "name"}
  {
    (if |i.accountType| >= 1 then {} else {"account_type"})
    + (if |i.name| >= 1 then {} else {"name"})
  }

  /** However long the two strings are, a non-empty pair passes. */
  lemma NoUpperBound(i: CreateLedgerAccountInput)
    requires i.accountType != [] && i.name != []
    ensures Violations(i) == {}
  {
  }
}

module ModelsLedgerTransaction {
  import opened Wrappers
  import opened Ints
  import Dates
  import Pagination

  /** `entity::ledger_transactions::Model`. */
  datatype LedgerTransactionEntity = LedgerTransactionEntity(
    id: I32, debitAccountId: I32, creditAccountId: I32, date: Dates.Date, amount: I32)

  /** `LedgerTransactionModel`: the date as text. */
  datatype LedgerTransactionModel = LedgerTransactionModel(
    id: I32, debitAccountId: I32, creditAccountId: I32, date: string, amount: I32)

  /** `LedgerTransactionModel::from`: ids and amount as stored, the date
      rendered `%Y-%m-%d` (see `Dates.FormatLayout` for what that text holds). */
  function FromEntity(e: LedgerTransactionEntity): (m: LedgerTransactionModel)
    ensures m.id == e.id && m.debitAccountId == e.debitAccountId
    ensures m.creditAccountId == e.creditAccountId && m.amount == e.amount
    ensures m.date == Dates.Format(e.date)
  {
    LedgerTransactionModel(e.id, e.debitAccountId, e.creditAccountId, Dates.Format(e.date), e.amount)
  }

  /** `CreateLedgerTransactionInput`: no validation attribute at all; every
      check is in the handler. */
  datatype CreateLedgerTransactionInput = CreateLedgerTransactionInput(
    debitAccountId: I32, creditAccountId: I32, date: string, amount: I32)

  /** `ListLedgerTransactionsInput`: `account` is a required query field
      (its absence fails deserialisation), `limit` and `offset` are validated
      as in every other listing. */
  datatype ListLedgerTransactionsInput = ListLedgerTransactionsInput(
    accountId: I32, limit: Option<U64>, offset: Option<U64>)

  /** The window of the listing is `Pagination.Window` of its limit and offset. */
  function Query(i: ListLedgerTransactionsInput): (q: Pagination.ListQuery)
    ensures q.limit == i.limit && q.offset == i.offset
  {
    Pagination.ListQuery(i.limit, i.offset)
  }
}
