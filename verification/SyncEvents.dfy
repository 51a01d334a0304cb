/** The envelopes that travel from a POS device through its Edge to the Cloud. */
module SyncEvents {
  import opened Common

  datatype OrderState = Open | Closed

  datatype CloseMethod = Cash | Provider | UnknownMethod

  datatype OrderLine = OrderLine(sku: string, quantity: nat, unitPrice: nat, menuItem: Option<string>)

  /** A payload that parses; the close method is derived from the event type of a closing event. */
  datatype OrderPayload = OrderPayload(
    state: OrderState, total: nat, currency: string, event: string, location: Option<string>,
    closeMethod: Option<CloseMethod>, cashier: Option<string>, lines: Option<seq<OrderLine>>, at: int)
  {
    predicate Valid() { closeMethod.Some? <==> state == Closed }
  }

  datatype Body = NotAnOrder | InvalidOrder | Order(payload: OrderPayload)

  /** `rest` stands for every other field of the envelope. */
  datatype Envelope = Envelope(
    instance: string, device: string, sequence: nat, aggregate: string, body: Body, rest: string)
}
