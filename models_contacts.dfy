// `models/contacts.rs`: the contact row, its response model, and the
// validated create input (the list input is `Pagination.ListQuery`).

module ModelsContacts {
  import opened Wrappers
  import opened Ints

  /** `entity::contacts::Model`. */
  datatype ContactEntity = ContactEntity(
    id: I32, name: string, isCustomer: bool, isSupplier: bool,
    customerAccountId: Option<I32>, supplierAccountId: Option<I32>,
    street1: string, street2: string, postalCode: string, city: string, country: string)

  /** `ContactModel`. */
  datatype ContactModel = ContactModel(
    id: I32, name: string, isCustomer: bool, isSupplier: bool,
    customerAccountId: Option<I32>, supplierAccountId: Option<I32>,
    street1: string, street2: string, postalCode: string, city: string, country: string)

  /** `ContactModel::from`: every one of the eleven columns is reported as stored. */
  function FromEntity(e: ContactEntity): (m: ContactModel)
    ensures m.id == e.id && m.name == e.name
    ensures m.isCustomer == e.isCustomer && m.isSupplier == e.isSupplier
    ensures m.customerAccountId == e.customerAccountId && m.supplierAccountId == e.supplierAccountId
    ensures m.street1 == e.street1 && m.street2 == e.street2 && m.postalCode == e.postalCode
    ensures m.city == e.city && m.country == e.country
  {
    ContactModel(e.id, e.name, e.isCustomer, e.isSupplier, e.customerAccountId, e.supplierAccountId,
                 e.street1, e.street2, e.postalCode, e.city, e.country)
  }

  /** Distinct rows give distinct responses: the mapping loses nothing. */
  lemma FromEntityInjective(e1: ContactEntity, e2: ContactEntity)
    ensures FromEntity(e1) == FromEntity(e2) ==> e1 == e2
  {
  }

  /** `CreateContactInput`. */
  datatype CreateContactInput = CreateContactInput(
    name: string, accountId: I32, street1: string, street2: string,
    postalCode: string, city: string, country: string)

  /** The fields `validate()` reports, by Rust field name. */
  function Violations(i: CreateContactInput): (v: set<string>)
    ensures "name" in v <==> !(1 <= |i.name| <= 128)
    ensures "account_id" in v <==> i.accountId < 1
    ensures "street1" in v <==> |i.street1| > 128
    ensures "street2" in v <==> |i.street2| > 128
    ensures "postal_code" in v <==> |i.postalCode| > 128
    ensures "city" in v <==> |i.city| > 128
    ensures "country" in v <==> |i.country| > 128
    ensures v <= {"name", "account_id", "street1", "street2", "postal_code", "city", "country"}
  {
    (if 1 <= |i.name| <= 128 then {} else {"name"})
    + (if i.accountId >= 1 then {} else {"account_id"})
    + (if |i.street1| <= 128 then {} else {"street1"})
    + (if |i.street2| <= 128 then {} else {"street2"})
    + (if |i.postalCode| <= 128 then {} else {"postal_code"})
    + (if |i.city| <= 128 then {} else {"city"})
    + (if |i.country| <= 128 then {} else {"country"})
  }
}
