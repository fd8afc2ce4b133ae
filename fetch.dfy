/**
 * What the dashboard's screens receive from the backend. Every screen awaits
 * `fetch(url)` and then `response.json()`; the pair either yields a response
 * (its HTTP status and its decoded body) or throws. The network itself is not
 * modelled: each outcome is an input to the operation that consumes it.
 */
module Fetch {

  /** The outcome of awaiting `fetch` and `response.json()`. */
  datatype Fetched<T> =
    | Response(status: nat, body: T)
    | Failed(name: string, message: string)

  /** `response.ok`: a status in the 2xx range. */
  predicate Ok(status: nat)
  {
    200 <= status <= 299
  }

  /**
   * The `{ success, data, error }` body the PHP endpoints send: `success` is the
   * truthiness of that field and an absent or empty `error` is "".
   */
  datatype Envelope<T> = Envelope(success: bool, data: T, error: string)

  /** The `name` of an exception raised by `throw new Error(...)`. */
  const ERROR_NAME: string := "Error"
}
