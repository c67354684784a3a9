/** The business values the handler moves around: the bound request body and
    the persisted shipping order. */
module Orders {

  /** A persisted shipping order. `ID` is the surrogate key that the
      database assigns (from gorm.Model); the timestamps of gorm.Model are
      not part of this model. */
  datatype ShippingOrder = ShippingOrder(ID: nat, OrderID: string, Vendor: string, Address: string)

  /** The JSON body of POST /shipping/order. */
  datatype PlaceShippingOrderRequest = PlaceShippingOrderRequest(OrderID: string, Vendor: string, Address: string)

  /** Go's zero value of ShippingOrder. */
  const Zero := ShippingOrder(0, "", "", "")

  /** The order the handler asks the repository to save: the request's
      fields and no ID yet. */
  function NewOrder(request: PlaceShippingOrderRequest): ShippingOrder {
    ShippingOrder(0, request.OrderID, request.Vendor, request.Address)
  }
}
