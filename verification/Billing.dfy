/** Billing events (internal/model/model.go:28-45) and what they are worth
    (internal/proxy/handler.go:142-145). */
module Billing {

  /** A billing event, without the fields that only describe the call. */
  datatype Event = Event(id: string, tokenKey: string, chainID: string, methods: seq<string>,
                         successN: int, billable: bool, amountCents: int,
                         transport: string, kind: string, day: string)

  function Amount(billable: bool, price: int, n: int): int {
    if billable && price > 0 then price * n else 0
  }
}
