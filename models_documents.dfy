// `models/sale_orders.rs`, `models/sale_invoices.rs`,
// `models/purchase_orders.rs` and `models/purchase_invoices.rs`: each maps
// its status enum to the label the database declares for it (the enum types
// created by the initial migration), copies the other columns, and renders the
// date with `Display`, i.e. `%Y-%m-%d`. Their create inputs carry no
// validation attribute; their list inputs are `Pagination.ListQuery`.

module ModelsSaleOrders {
  import opened Wrappers
  import opened Ints
  import Dates

  datatype SaleOrderStatus = Draft | Quotation | Order | Finished

  /** The labels of the `sale_order_status` database enum, in declaration order. */
  const SALE_ORDER_STATUS_LABELS: seq<string> := ["draft", "quotation", "order", "finished"]

  /** The k-th status of the enum gets the k-th label of the database enum. */
  function StatusLabel(s: SaleOrderStatus): (l: string)
    ensures l in SALE_ORDER_STATUS_LABELS
    ensures s == Draft <==> l == SALE_ORDER_STATUS_LABELS[0]
    ensures s == Quotation <==> l == SALE_ORDER_STATUS_LABELS[1]
    ensures s == Order <==> l == SALE_ORDER_STATUS_LABELS[2]
    ensures s == Finished <==> l == SALE_ORDER_STATUS_LABELS[3]
  {
    match s
    case Draft => "draft"
    case Quotation => "quotation"
    case Order => "order"
    case Finished => "finished"
  }

  /** The database's reading of a label: the inverse of `StatusLabel`. */
  function ParseStatus(l: string): (r: Option<SaleOrderStatus>)
    ensures r.Some? ==> StatusLabel(r.value) == l
    ensures r.None? <==> l !in SALE_ORDER_STATUS_LABELS
  {
    if l == "draft" then Some(Draft)
    else if l == "quotation" then Some(Quotation)
    else if l == "order" then Some(Order)
    else if l == "finished" then Some(Finished)
    else None
  }

  /** Labels round-trip, so the map is injective, and every migration label is
      the label of some status: the range is exactly the database enum. */
  lemma StatusLabelsMatchDatabase(s: SaleOrderStatus, t: SaleOrderStatus)
    ensures ParseStatus(StatusLabel(s)) == Some(s)
    ensures StatusLabel(s) == StatusLabel(t) ==> s == t
    ensures forall l :: l in SALE_ORDER_STATUS_LABELS ==> ParseStatus(l).Some?
  {
    match s
    case Draft =>
    case Quotation =>
      assert "quotation"[0] != "draft"[0];
    case Order =>
      assert "order"[0] != "draft"[0] && "order"[0] != "quotation"[0];
    case Finished =>
      assert "finished"[0] != "draft"[0] && "finished"[0] != "quotation"[0] && "finished"[0] != "order"[0];
  }

  /** `entity::sale_orders::Model`. */
  datatype SaleOrderEntity = SaleOrderEntity(
    id: I32, reference: string, date: Dates.Date, status: SaleOrderStatus,
    customerId: I32, sourceStockId: I32, targetStockId: I32)

  datatype SaleOrderModel = SaleOrderModel(
    id: I32, reference: string, date: string, status: string,
    customerId: I32, sourceStockId: I32, targetStockId: I32)

  /** `SaleOrderModel::from`: the status as its database label, the date as
      text, every other column as stored. */
  function FromEntity(e: SaleOrderEntity): (m: SaleOrderModel)
    ensures m.status in SALE_ORDER_STATUS_LABELS && ParseStatus(m.status) == Some(e.status)
    ensures m.id == e.id && m.reference == e.reference && m.date == Dates.Format(e.date)
    ensures m.customerId == e.customerId
    ensures m.sourceStockId == e.sourceStockId && m.targetStockId == e.targetStockId
  {
    StatusLabelsMatchDatabase(e.status, e.status);
    SaleOrderModel(e.id, e.reference, Dates.Format(e.date), StatusLabel(e.status),
                   e.customerId, e.sourceStockId, e.targetStockId)
  }

  /** `CreateSaleOrderInput`: the status is free text here, unchecked. */
  datatype CreateSaleOrderInput = CreateSaleOrderInput(
    reference: string, date: string, status: string,
    customerId: I32, sourceStockId: I32, targetStockId: I32)
}

module ModelsSaleInvoices {
  import opened Wrappers
  import opened Ints
  import Dates

  datatype SaleInvoiceStatus = Draft | Proforma | Invoice | Finished

  /** The labels of the `sale_invoice_status` database enum. */
  const SALE_INVOICE_STATUS_LABELS: seq<string> := ["draft", "proforma", "invoice", "finished"]

  /** The k-th status of the enum gets the k-th label of the database enum. */
  function StatusLabel(s: SaleInvoiceStatus): (l: string)
    ensures l in SALE_INVOICE_STATUS_LABELS
    ensures s == Draft <==> l == SALE_INVOICE_STATUS_LABELS[0]
    ensures s == Proforma <==> l == SALE_INVOICE_STATUS_LABELS[1]
    ensures s == Invoice <==> l == SALE_INVOICE_STATUS_LABELS[2]
    ensures s == Finished <==> l == SALE_INVOICE_STATUS_LABELS[3]
  {
    match s
    case Draft => "draft"
    case Proforma => "proforma"
    case Invoice => "invoice"
    case Finished => "finished"
  }

  function ParseStatus(l: string): (r: Option<SaleInvoiceStatus>)
    ensures r.Some? ==> StatusLabel(r.value) == l
    ensures r.None? <==> l !in SALE_INVOICE_STATUS_LABELS
  {
    if l == "draft" then Some(Draft)
    else if l == "proforma" then Some(Proforma)
    else if l == "invoice" then Some(Invoice)
    else if l == "finished" then Some(Finished)
    else None
  }

  /** Labels round-trip (so the map is injective) and cover the database enum. */
  lemma StatusLabelsMatchDatabase(s: SaleInvoiceStatus, t: SaleInvoiceStatus)
    ensures ParseStatus(StatusLabel(s)) == Some(s)
    ensures StatusLabel(s) == StatusLabel(t) ==> s == t
    ensures forall l :: l in SALE_INVOICE_STATUS_LABELS ==> ParseStatus(l).Some?
  {
    match s
    case Draft =>
    case Proforma =>
      assert "proforma"[0] != "draft"[0];
    case Invoice =>
      assert "invoice"[0] != "draft"[0] && "invoice"[0] != "proforma"[0];
    case Finished =>
      assert "finished"[0] != "draft"[0] && "finished"[0] != "proforma"[0] && "finished"[0] != "invoice"[0];
  }

  /** `entity::sale_invoices::Model`. */
  datatype SaleInvoiceEntity = SaleInvoiceEntity(
    id: I32, reference: string, date: Dates.Date, status: SaleInvoiceStatus, orderId: I32, customerId: I32)

  datatype SaleInvoiceModel = SaleInvoiceModel(
    id: I32, reference: string, date: string, status: string, orderId: I32, customerId: I32)

  /** `SaleInvoiceModel::from`. */
  function FromEntity(e: SaleInvoiceEntity): (m: SaleInvoiceModel)
    ensures m.status in SALE_INVOICE_STATUS_LABELS && ParseStatus(m.status) == Some(e.status)
    ensures m.id == e.id && m.reference == e.reference && m.date == Dates.Format(e.date)
    ensures m.orderId == e.orderId && m.customerId == e.customerId
  {
    StatusLabelsMatchDatabase(e.status, e.status);
    SaleInvoiceModel(e.id, e.reference, Dates.Format(e.date), StatusLabel(e.status), e.orderId, e.customerId)
  }

  /** `CreateSaleInvoiceInput`: no status field. */
  datatype CreateSaleInvoiceInput = CreateSaleInvoiceInput(reference: string, date: string, orderId: I32, customerId: I32)
}

module ModelsPurchaseOrders {
  import opened Wrappers
  import opened Ints
  import Dates

  datatype PurchaseOrderStatus = Draft | Finished

  /** The labels of the `purchase_order_status` database enum. */
  const PURCHASE_ORDER_STATUS_LABELS: seq<string> := ["draft", "finished"]

  /** The k-th status of the enum gets the k-th label of the database enum. */
  function StatusLabel(s: PurchaseOrderStatus): (l: string)
    ensures l in PURCHASE_ORDER_STATUS_LABELS
    ensures s == Draft <==> l == PURCHASE_ORDER_STATUS_LABELS[0]
    ensures s == Finished <==> l == PURCHASE_ORDER_STATUS_LABELS[1]
  {
    match s
    case Draft => "draft"
    case Finished => "finished"
  }

  function ParseStatus(l: string): (r: Option<PurchaseOrderStatus>)
    ensures r.Some? ==> StatusLabel(r.value) == l
    ensures r.None? <==> l !in PURCHASE_ORDER_STATUS_LABELS
  {
    if l == "draft" then Some(Draft)
    else if l == "finished" then Some(Finished)
    else None
  }

  /** Labels round-trip (so the map is injective) and cover the database enum. */
  lemma StatusLabelsMatchDatabase(s: PurchaseOrderStatus, t: PurchaseOrderStatus)
    ensures ParseStatus(StatusLabel(s)) == Some(s)
    ensures StatusLabel(s) == StatusLabel(t) ==> s == t
    ensures forall l :: l in PURCHASE_ORDER_STATUS_LABELS ==> ParseStatus(l).Some?
  {
    if s == Finished {
      assert "finished"[0] != "draft"[0];
    }
  }

  /** `entity::purchase_orders::Model`. */
  datatype PurchaseOrderEntity = PurchaseOrderEntity(
    id: I32, reference: string, date: Dates.Date, status: PurchaseOrderStatus,
    supplierId: I32, sourceStockId: I32, targetStockId: I32)

  datatype PurchaseOrderModel = PurchaseOrderModel(
    id: I32, reference: string, date: string, status: string,
    supplierId: I32, sourceStockId: I32, targetStockId: I32)

  /** `PurchaseOrderModel::from`. */
  function FromEntity(e: PurchaseOrderEntity): (m: PurchaseOrderModel)
    ensures m.status in PURCHASE_ORDER_STATUS_LABELS && ParseStatus(m.status) == Some(e.status)
    ensures m.id == e.id && m.reference == e.reference && m.date == Dates.Format(e.date)
    ensures m.supplierId == e.supplierId
    ensures m.sourceStockId == e.sourceStockId && m.targetStockId == e.targetStockId
  {
    StatusLabelsMatchDatabase(e.status, e.status);
    PurchaseOrderModel(e.id, e.reference, Dates.Format(e.date), StatusLabel(e.status),
                       e.supplierId, e.sourceStockId, e.targetStockId)
  }

  /** `CreatePurchaseOrderInput`: the status is free text, unchecked. */
  datatype CreatePurchaseOrderInput = CreatePurchaseOrderInput(
    reference: string, date: string, status: string,
    supplierId: I32, sourceStockId: I32, targetStockId: I32)
}

module ModelsPurchaseInvoices {
  import opened Wrappers
  import opened Ints
  import Dates

  datatype PurchaseInvoiceStatus = Draft | Finished

  /** The labels of the `purchase_invoice_status` database enum. */
  const PURCHASE_INVOICE_STATUS_LABELS: seq<string> := ["draft", "finished"]

  /** The k-th status of the enum gets the k-th label of the database enum. */
  function StatusLabel(s: PurchaseInvoiceStatus): (l: string)
    ensures l in PURCHASE_INVOICE_STATUS_LABELS
    ensures s == Draft <==> l == PURCHASE_INVOICE_STATUS_LABELS[0]
    ensures s == Finished <==> l == PURCHASE_INVOICE_STATUS_LABELS[1]
  {
    match s
    case Draft => "draft"
    case Finished => "finished"
  }

  function ParseStatus(l: string): (r: Option<PurchaseInvoiceStatus>)
    ensures r.Some? ==> StatusLabel(r.value) == l
    ensures r.None? <==> l !in PURCHASE_INVOICE_STATUS_LABELS
  {
    if l == "draft" then Some(Draft)
    else if l == "finished" then Some(Finished)
    else None
  }

  /** Labels round-trip (so the map is injective) and cover the database enum. */
  lemma StatusLabelsMatchDatabase(s: PurchaseInvoiceStatus, t: PurchaseInvoiceStatus)
    ensures ParseStatus(StatusLabel(s)) == Some(s)
    ensures StatusLabel(s) == StatusLabel(t) ==> s == t
    ensures forall l :: l in PURCHASE_INVOICE_STATUS_LABELS ==> ParseStatus(l).Some?
  {
    if s == Finished {
      assert "finished"[0] != "draft"[0];
    }
  }

  /** `entity::purchase_invoices::Model`. */
  datatype PurchaseInvoiceEntity = PurchaseInvoiceEntity(
    id: I32, reference: string, date: Dates.Date, status: PurchaseInvoiceStatus, orderId: I32, supplierId: I32)

  datatype PurchaseInvoiceModel = PurchaseInvoiceModel(
    id: I32, reference: string, date: string, status: string, orderId: I32, supplierId: I32)

  /** `PurchaseInvoiceModel::from`. */
  function FromEntity(e: PurchaseInvoiceEntity): (m: PurchaseInvoiceModel)
    ensures m.status in PURCHASE_INVOICE_STATUS_LABELS && ParseStatus(m.status) == Some(e.status)
    ensures m.id == e.id && m.reference == e.reference && m.date == Dates.Format(e.date)
    ensures m.orderId == e.orderId && m.supplierId == e.supplierId
  {
    StatusLabelsMatchDatabase(e.status, e.status);
    PurchaseInvoiceModel(e.id, e.reference, Dates.Format(e.date), StatusLabel(e.status), e.orderId, e.supplierId)
  }

  /** `CreatePurchaseInvoiceInput`. */
  datatype CreatePurchaseInvoiceInput = CreatePurchaseInvoiceInput(reference: string, date: string, orderId: I32, supplierId: I32)
}
