/** The response envelope of EREGION/1 and the checks a response has to pass (internal/protocol/messages.go). */
module Protocol {

  const PROTOCOL_VERSION: nat := 1
  const TYPE_RESPONSE := "response"

  /** The worker-side counters the pool looks at when a request is over. */
  datatype Meta = Meta(memoryUsage: nat, recycle: bool)

  /** Request ids are "req-N" with N from one counter, so the model keeps N. */
  datatype Response = Response(kind: string, version: nat, id: nat, status: nat, meta: Meta)

  predicate ValidResponse(resp: Response, expectId: nat) {
    && resp.kind == TYPE_RESPONSE
    && resp.version == PROTOCOL_VERSION
    && resp.id == expectId
    && 100 <= resp.status <= 599
  }
}
