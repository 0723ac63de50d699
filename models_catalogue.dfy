// `models/products.rs`, `models/variants.rs`, `models/taxes.rs` and
// `models/stocks.rs`.

module ModelsProducts {
  import opened Ints

  /** `entity::products::Model`. */
  datatype ProductEntity = ProductEntity(id: I32, name: string)

  datatype ProductModel = ProductModel(id: I32, name: string)

  /** `ProductModel::from`: id and name as stored. */
  function FromEntity(e: ProductEntity): (m: ProductModel)
    ensures m.id == e.id && m.name == e.name
  {
    ProductModel(e.id, e.name)
  }

  datatype CreateProductInput = CreateProductInput(name: string)

  /** The name must have 1 to 32 characters. */
  function Violations(i: CreateProductInput): (v: set<string>)
    ensures "name" in v <==> !(1 <= |i.name| <= 32)
    ensures v <= {"name"}
  {
    if 1 <= |i.name| <= 32 then {} else {"name"}
  }
}

module ModelsVariants {
  import opened Ints

  /** `entity::variants::Model`. */
  datatype VariantEntity = VariantEntity(id: I32, name: string, salePrice: I32, purchasePrice: I32, productId: I32)

  datatype VariantModel = VariantModel(id: I32, name: string, salePrice: I32, purchasePrice: I32, productId: I32)

  /** `VariantModel::from`: all five columns as stored. */
  function FromEntity(e: VariantEntity): (m: VariantModel)
    ensures m.id == e.id && m.name == e.name && m.productId == e.productId
    ensures m.salePrice == e.salePrice && m.purchasePrice == e.purchasePrice
  {
    VariantModel(e.id, e.name, e.salePrice, e.purchasePrice, e.productId)
  }

  /** `VariantsPath`: the `{id}` of `/api/variants/{id}`. */
  datatype VariantsPath = VariantsPath(id: I32)

  function PathViolations(p: VariantsPath): (v: set<string>)
    ensures "id" in v <==> p.id < 1
    ensures v <= {"id"}
  {
    if p.id >= 1 then {} else {"id"}
  }

  datatype CreateVariantInput = CreateVariantInput(name: string, salePrice: I32, purchasePrice: I32, productId: I32)

  /** Name of 1 to 64 characters, prices not negative, a product id of at least 1. */
  function Violations(i: CreateVariantInput): (v: set<string>)
    ensures "name" in v <==> !(1 <= |i.name| <= 64)
    ensures "sale_price" in v <==> i.salePrice < 0
    ensures "purchase_price" in v <==> i.purchasePrice < 0
    ensures "product_id" in v <==> i.productId < 1
    ensures v <= {"name", "sale_price", "purchase_price", "product_id"}
  {
    (if 1 <= |i.name| <= 64 then {} else {"name"})
    + (if i.salePrice >= 0 then {} else {"sale_price"})
    + (if i.purchasePrice >= 0 then {} else {"purchase_price"})
    + (if i.productId >= 1 then {} else {"product_id"})
  }
}

module ModelsTaxes {
  import opened Ints

  /** `entity::taxes::Model`; the `f64` rate is modelled as a real. */
  datatype TaxEntity = TaxEntity(id: I32, name: string, nameShort: string, rate: real, accountId: I32)

  datatype TaxModel = TaxModel(id: I32, name: string, nameShort: string, rate: real, accountId: I32)

  /** `TaxModel::from`: all five columns as stored. */
  function FromEntity(e: TaxEntity): (m: TaxModel)
    ensures m.id == e.id && m.name == e.name && m.nameShort == e.nameShort
    ensures m.rate == e.rate && m.accountId == e.accountId
  {
    TaxModel(e.id, e.name, e.nameShort, e.rate, e.accountId)
  }

  /** `CreateTaxInput`; the account id arrives under the key `account`. */
  datatype CreateTaxInput = CreateTaxInput(name: string, nameShort: string, rate: real, accountId: I32)

  /** Names of 1 to 32 characters and a rate of at least 0; the account id
      is not range-checked. */
  function Violations(i: CreateTaxInput): (v: set<string>)
    ensures "name" in v <==> !(1 <= |i.name| <= 32)
    ensures "name_short" in v <==> !(1 <= |i.nameShort| <= 32)
    ensures "rate" in v <==> i.rate < 0.0
    ensures v <= {"name", "name_short", "rate"}
  {
    (if 1 <= |i.name| <= 32 then {} else {"name"})
    + (if 1 <= |i.nameShort| <= 32 then {} else {"name_short"})
    + (if i.rate >= 0.0 then {} else {"rate"})
  }
}

module ModelsStocks {
  import opened Wrappers
  import opened Ints
  import opened Json

  /** `entity::stocks::Model`. */
  datatype StockEntity = StockEntity(id: I32, name: string, isOwn: bool, ownerId: Option<I32>)

  datatype StockModel = StockModel(id: I32, name: string, isOwn: bool, ownerId: Option<I32>)

  /** `StockModel::from`: id, name, ownership flag and owner as stored. */
  function FromEntity(e: StockEntity): (m: StockModel)
    ensures m.id == e.id && m.name == e.name && m.isOwn == e.isOwn && m.ownerId == e.ownerId
  {
    StockModel(e.id, e.name, e.isOwn, e.ownerId)
  }

  /** Serialising a `StockModel`: `is_own` goes out as `own`, `owner_id` as
      `owner` (null for a stock without owner). */
  function ToJson(m: StockModel): (j: Value)
    ensures j.Object? && j.fields.Keys == {"id", "name", "own", "owner"}
    ensures j.fields["id"] == Number(m.id) && j.fields["name"] == String(m.name)
    ensures j.fields["own"] == Bool(m.isOwn)
    ensures j.fields["owner"] == if m.ownerId.Some? then Number(m.ownerId.value) else Null
  {
    Object(map["id" := Number(m.id), "name" := String(m.name), "own" := Bool(m.isOwn),
               "owner" := match m.ownerId case Some(o) => Number(o) case None => Null])
  }

  datatype CreateStockInput = CreateStockInput(name: string)

  /** The name must be non-empty; there is no upper bound. */
  function Violations(i: CreateStockInput): (v: set<string>)
    ensures "name" in v <==> i.name == []
    ensures v <= {"name"}
  {
    if |i.name| >= 1 then {} else {"name"}
  }
}
