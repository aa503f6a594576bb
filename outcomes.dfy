/** Values the components receive from the outside world: an optional value
    (a storage read that may come back null) and the outcome of one `fetch`
    round trip to the backend. */
module Outcomes {

  datatype Option<+T> = None | Some(value: T)

  /** What a handler learns from one awaited network call.
      - `Ok(body)`: the response had a 2xx status and, where the handler reads
        the body, its JSON parsed to `body` (signup and the credentials save
        never read it: any 2xx succeeds there, and `body` is `()`);
      - `NotOk(error)`: a non-2xx status; `error` is the `error` field of the
        JSON error body, "" when that field is absent or empty (only the
        credentials form reads it);
      - `Thrown(message)`: `fetch` or `response.json()` threw an Error with
        this message. */
  datatype Reply<+T> = Ok(body: T) | NotOk(error: string) | Thrown(message: string)
}
