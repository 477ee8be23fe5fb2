/**
 * The value of a Remix fetcher as the cart components read it: its state, the
 * action it posted to, and the data the `/cart` action answered with.
 */
module Fetchers {
  import opened Wrappers

  datatype FetcherState = Idle | Submitting | Loading

  /** The cart object returned by the cart action; the components only pass it on. */
  datatype Cart = Cart(id: string)

  /**
   * The action's answer: the cart (absent on failure), the error list (absent
   * reads as empty) and the analytics cart id ("" when absent).
   */
  datatype CartData = CartData(cart: Option<Cart>, errors: seq<string>, analyticsCartId: string)

  /** A fetcher; `formAction` is "" when the fetcher has not posted anything. */
  datatype Fetcher = Fetcher(state: FetcherState, formAction: string, data: Option<CartData>)
}
