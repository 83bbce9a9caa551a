/** Values shared by every store: optional values, the outcome of one HTTP
    request, JavaScript dates, JSON codecs and JavaScript truthiness. */
module Common {

  datatype Option<+T> = None | Some(value: T)

  /** JavaScript truthiness of a `string | null` value: `null` and `""` are
      falsy, every other string is truthy. */
  predicate Truthy(s: Option<string>)
  {
    s.Some? && s.value != ""
  }

  /** The outcome of one `fetch` call as the calling store sees it: a
      response with `res.ok` and its decoded payload, a response without
      `res.ok` (with the server's `message` field, if any), or a thrown
      error with its `message`. */
  datatype Outcome<+T> = Ok(payload: T) | NotOk(message: Option<string>) | Threw(error: string)

  /** The localStorage key the event and weather stores read the session
      token from. */
  const ACCESS_TOKEN_KEY: string := "accessToken"

  /** Largest magnitude of a JavaScript time value, in milliseconds. */
  const MAX_TIME_MS: int := 8_640_000_000_000_000

  /** A JavaScript `Date`: a time value in milliseconds since the epoch,
      or the invalid date (time value NaN). */
  datatype Date = At(ms: int) | InvalidDate

  /** `new Date(d.getTime() + delta)`: NaN stays NaN, and a time value
      outside the representable range becomes the invalid date. */
  function AddMillis(d: Date, delta: int): (r: Date)
    ensures d.InvalidDate? ==> r.InvalidDate?
    ensures d.At? && -MAX_TIME_MS <= d.ms + delta <= MAX_TIME_MS ==> r == At(d.ms + delta)
    ensures r.At? ==> d.At? && r.ms - d.ms == delta && -MAX_TIME_MS <= r.ms <= MAX_TIME_MS
  {
    match d
    case InvalidDate => InvalidDate
    case At(t) =>
      if -MAX_TIME_MS <= t + delta <= MAX_TIME_MS then At(t + delta) else InvalidDate
  }

  /** `JSON.stringify` and `JSON.parse` (followed by the store's own
      reshaping) for values of type T; `decode` answers None where the
      store's parsing throws. */
  datatype Codec<!T> = Codec(encode: T -> string, decode: string -> Option<T>)

  /** A codec whose decoding undoes its encoding, and whose encoding is
      never the empty (falsy) string. */
  ghost predicate Faithful<T(!new)>(c: Codec<T>)
  {
    forall x :: c.decode(c.encode(x)) == Some(x) && c.encode(x) != ""
  }

  /** The value stored under `key`, as `localStorage.getItem` returns it. */
  function Lookup(entries: map<string, string>, key: string): (r: Option<string>)
    ensures r.Some? <==> key in entries
    ensures r.Some? ==> r.value == entries[key]
  {
    if key in entries then Some(entries[key]) else None
  }
}
