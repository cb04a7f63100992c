/** The rows of the four generated tables and the supplier master data. */
module Records {

  const RawMaterialId: string := "RM-STEEL-01"

  /** A supplier of the master table. `allocationPct` is the share of the
      daily demand routed to it, in percent (0.5 is 50). */
  datatype Supplier = Supplier(id: string, name: string, allocationPct: nat, leadTime: nat)

  /** The three suppliers of the generated master table. */
  const Suppliers: seq<Supplier> := [
    Supplier("S1", "Alpha Metals", 50, 5),
    Supplier("S2", "Beta Alloys", 30, 7),
    Supplier("S3", "Gamma Steels", 20, 4)
  ]

  /** One row of the demand table. */
  datatype DemandRecord = DemandRecord(date: int, materialId: string, actualDemand: int)

  /** One row of the purchase-order table. Dates are day ordinals. */
  datatype PurchaseOrder = PurchaseOrder(
    poId: string,
    supplierId: string,
    materialId: string,
    orderDate: int,
    plannedDelivery: int,
    actualDelivery: int,
    ordered: int,
    received: int,
    delayDays: int,
    delayFlag: bool,
    breachFlag: bool)

  /** One row of the inventory ledger. */
  datatype LedgerEntry = LedgerEntry(
    date: int,
    materialId: string,
    opening: int,
    received: int,
    consumed: int,
    closing: int,
    safetyStock: int,
    stockout: bool)
}
