/**
 * The order aggregate as the Kafka message body carries it (the Go
 * `models` package): an order with its delivery address, its payment and
 * its line items. Integer fields are unbounded here; the validator only
 * compares them with zero, so the Go widths do not matter.
 */
module Orders {

  /** A `time.Time`, reduced to its distance from Go's zero instant (January 1, year 1, UTC). */
  datatype Time = Time(sinceZero: int) {
    /** `time.Time.IsZero`. */
    predicate IsZero() {
      sinceZero == 0
    }
  }

  datatype Delivery = Delivery(
    name: string,
    phone: string,
    zip: string,
    city: string,
    address: string,
    region: string,
    email: string)

  datatype Payment = Payment(
    transaction: string,
    requestID: string,
    currency: string,
    provider: string,
    amount: int,
    paymentDT: int,
    bank: string,
    deliveryCost: int,
    goodsTotal: int,
    customFee: int)

  datatype Item = Item(
    chrtID: int,
    trackNumber: string,
    price: int,
    rid: string,
    name: string,
    sale: int,
    size: string,
    totalPrice: int,
    nmID: int,
    brand: string,
    status: int)

  datatype Order = Order(
    orderUID: string,
    trackNumber: string,
    entry: string,
    delivery: Delivery,
    payment: Payment,
    items: seq<Item>,
    locale: string,
    internalSignature: string,
    customerID: string,
    deliveryService: string,
    shardkey: string,
    smID: int,
    dateCreated: Time,
    oofShard: string)
}
