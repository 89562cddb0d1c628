/** The entities of the inventory and trading application (src/types.ts).
    Money and quantities are integers; timestamps are integers (milliseconds)
    supplied by the caller; optional fields are `Option`s. */
module Types {
  import opened Seqs

  datatype ActiveStatus = Active | Inactive

  datatype PurchaseStatus = Pending | Confirmed | Received | Cancelled

  datatype SaleStatus = Pending | Confirmed | Shipped | Completed | Cancelled

  datatype RecordType = In | Out | Adjust

  datatype BatchStatus = Active | Exhausted | Expired

  datatype MovementType = In | Out

  datatype OrderType = Purchase | Sale

  datatype Product = Product(
    id: string,
    code: string,
    barcode: Option<string>,
    name: string,
    category: string,
    specification: string,
    unit: string,
    purchasePrice: int,
    salePrice: int,
    stock: int,
    minStock: int,
    status: ActiveStatus,
    createTime: int,
    updateTime: int)

  datatype Supplier = Supplier(
    id: string,
    code: string,
    name: string,
    contact: string,
    phone: string,
    address: string,
    email: Option<string>,
    status: ActiveStatus,
    createTime: int)

  datatype Customer = Customer(
    id: string,
    code: string,
    name: string,
    contact: string,
    phone: string,
    address: string,
    email: Option<string>,
    credit: int,
    status: ActiveStatus,
    createTime: int)

  datatype PurchaseItem = PurchaseItem(
    id: string,
    productId: string,
    productName: string,
    quantity: int,
    price: int,
    receivedQuantity: int,
    amount: int)

  datatype PurchaseOrder = PurchaseOrder(
    id: string,
    orderNo: string,
    supplierId: string,
    supplierName: string,
    orderDate: string,
    expectedDate: string,
    status: PurchaseStatus,
    items: seq<PurchaseItem>,
    totalAmount: int,
    receivedAmount: int,
    createTime: int)

  /** One batch a sale item was served from. */
  datatype BatchAllocation = BatchAllocation(batchId: string, batchNo: string, quantity: int)

  datatype SaleItem = SaleItem(
    id: string,
    productId: string,
    productName: string,
    quantity: int,
    price: int,
    shippedQuantity: int,
    batches: Option<seq<BatchAllocation>>,
    amount: int)

  datatype SaleOrder = SaleOrder(
    id: string,
    orderNo: string,
    customerId: string,
    customerName: string,
    orderDate: string,
    deliveryDate: string,
    status: SaleStatus,
    items: seq<SaleItem>,
    totalAmount: int,
    shippedAmount: int,
    createTime: int)

  datatype InventoryRecord = InventoryRecord(
    id: string,
    productId: string,
    productName: string,
    recordType: RecordType,
    quantity: int,
    beforeStock: int,
    afterStock: int,
    reason: string,
    batchNo: Option<string>,
    relatedOrderId: Option<string>,
    relatedOrderNo: Option<string>,
    operatorId: string,
    operatorName: string,
    createTime: int)

  datatype InventoryBatch = InventoryBatch(
    id: string,
    batchNo: string,
    productId: string,
    productName: string,
    quantity: int,
    remainingQuantity: int,
    purchasePrice: int,
    supplierId: string,
    supplierName: string,
    purchaseOrderId: string,
    purchaseOrderNo: string,
    productionDate: Option<string>,
    expiryDate: Option<string>,
    status: BatchStatus,
    createTime: int)

  /** `quantity` is the amount moved; `remainingQuantity` is what the batch holds
      after the move. */
  datatype BatchMovement = BatchMovement(
    id: string,
    batchId: string,
    batchNo: string,
    productId: string,
    movementType: MovementType,
    quantity: int,
    remainingQuantity: int,
    relatedOrderId: string,
    relatedOrderNo: string,
    relatedOrderType: OrderType,
    createTime: int)

  /** The dashboard figures (`DashboardStats`). */
  datatype DashboardStats = DashboardStats(
    totalProducts: nat,
    lowStockProducts: nat,
    totalSuppliers: nat,
    totalCustomers: nat,
    pendingPurchases: nat,
    pendingSales: nat,
    thisMonthPurchaseAmount: int,
    thisMonthSaleAmount: int)

  /** One line of a receive request: `{ productId, receivedQuantity }`. */
  datatype ReceiveLine = ReceiveLine(productId: string, receivedQuantity: int)

  /** One line of a ship request: `{ productId, shippedQuantity }`. */
  datatype ShipLine = ShipLine(productId: string, shippedQuantity: int)

  /** An item line of the order form: `{ productId, quantity, price }`. */
  datatype FormLine = FormLine(productId: string, quantity: int, price: int)

  /** The field an order-form edit sets, with its new value. */
  datatype ItemField = ProductIdField(productId: string) | QuantityField(quantity: int) | PriceField(price: int)

  /** The local calendar reading of `new Date()` that batch and order numbers
      are built from; each field lies in the range `Date` reports it in. */
  type MonthOfYear = n: nat | 1 <= n <= 12 witness 1
  type DayOfMonth = n: nat | 1 <= n <= 31 witness 1
  type HourOfDay = n: nat | n < 24
  type MinuteOfHour = n: nat | n < 60

  datatype Clock = Clock(year: nat, month: MonthOfYear, day: DayOfMonth, hour: HourOfDay, minute: MinuteOfHour)

  /** A draw of `Math.floor(Math.random() * 100)`. */
  type Draw = n: nat | n < 100

  const OperatorId: string := "current-user"
  const OperatorName: string := "系统管理员"
}
