/** Types shared by the two request handlers of the checkout payment flow. */
module Shared {

  /** A value that may be absent (JavaScript `undefined` or `null`). */
  datatype Option<+T> = None | Some(value: T)

  /** One purchased line as it travels through the gateway's notes bag:
      written by the order-intent builder, read back by the webhook. */
  datatype OrderItem = OrderItem(product: string, color: string, size: string, quantity: int)

  /** The order handle the payment gateway hands back; this core only passes it on. */
  datatype GatewayOrder = GatewayOrder(id: string, amount: int, currency: string, receipt: string, status: string)

  /** What an HTTP response carries besides its status and headers. */
  datatype Body = NoBody | Text(text: string) | OrderJson(order: GatewayOrder)

  datatype Response = Response(status: int, body: Body, headers: map<string, string>)
}
