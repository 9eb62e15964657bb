/** Small shared vocabulary: optional values, the outcome of an HTTP call,
    JavaScript's `a || fallback` on optional strings, and the past-date test
    that the form components share. */
module Base {

  /** `None` stands for JavaScript's `undefined` / `null`. */
  datatype Option<T> = None | Some(value: T)

  /** The outcome of one request to the server, supplied as an input:
      `Ok` carries the response body, `Err` the HTTP status and the
      `error.error?.message` text when the server sent one. */
  datatype Reply<T> = Ok(body: T) | Err(status: int, message: Option<string>)

  /** JavaScript truthiness of a value of type `string | undefined`. */
  predicate Truthy(s: Option<string>)
  {
    s.Some? && s.value != ""
  }

  /** `s || fallback` where `s: string | undefined`. */
  function OrElse(s: Option<string>, fallback: string): string
  {
    if Truthy(s) then s.value else fallback
  }

  /** `new Date(date) < today` where `today` is today's midnight. A date is an
      abstract ordered value; `None` is an Invalid Date (NaN), and every
      comparison with NaN is false. */
  predicate BeforeToday(selected: Option<int>, today: int)
  {
    selected.Some? && selected.value < today
  }
}
