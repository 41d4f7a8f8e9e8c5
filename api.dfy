/**
 * The remote commerce API as the screens see it. Every apiService method is a
 * fetch followed by response.json(); it never looks at the HTTP status, so the
 * only way a call fails is by throwing (network or JSON failure), and any body
 * the server sends back, error bodies included, is returned as a result.
 */
module Api {
  import opened Wrappers

  /** How one awaited apiService call ended. */
  datatype Outcome<+T> = Threw(message: string) | Returned(body: T)

  /** Body of `search`: `success` and, under `data`, the transaction id the server minted. */
  datatype SearchData = SearchData(transactionId: Option<string>)
  datatype SearchResult = SearchResult(success: bool, data: Option<SearchData>)

  /** The success/failure envelope of `select`, `init` and `confirm`. */
  datatype Envelope = Envelope(success: bool)

  /** Body of `updateOrderStatus`: the order as the server stored it, of which only `status` is read. */
  datatype StatusReply = StatusReply(status: Option<string>)
}
