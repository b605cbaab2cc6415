/** Shared vocabulary of the content client and of the pages that call it:
    optional values, fetch outcomes, the request sent to the CMS and the
    reply that comes back. The network itself is a `Transport` parameter. */
module Http {

  /** A value that may be absent (`null` / `undefined` in the source). */
  datatype Option<T> = None | Some(value: T)

  /** Why a fetch, or the use of its result, failed. */
  datatype Error =
    | NetworkError                                // `fetch` itself rejected
    | HttpError(status: int, statusText: string)  // a reply whose `ok` flag is false
    | InvalidJson                                 // `res.json()` rejected
    | TypeError                                   // a property read on `undefined`

  datatype Result<T> = Ok(value: T) | Err(error: Error)

  /** The JSON envelope `{ data, meta }` as decoded. The code guards `data`
      against absence, so the model lets it be absent; `meta` is not read
      by any modelled code. */
  datatype Envelope<R> = Envelope(data: Option<seq<R>>)

  /** A reply: the `ok` flag, the status line, and the body decoded as JSON
      (`None` when the body is not valid JSON). */
  datatype HttpResponse<R> =
    HttpResponse(ok: bool, status: int, statusText: string, json: Option<Envelope<R>>)

  /** What is handed to `fetch`: the URL, the Authorization header, and the
      framework's `next` cache options (tags and freshness window in seconds). */
  datatype FetchRequest =
    FetchRequest(url: string, authorization: string, tags: Option<seq<string>>, revalidate: int)

  /** The network: what `fetch` resolves to for a request, or a rejection. */
  type Transport<R> = FetchRequest -> Result<HttpResponse<R>>

  /** `process.env.X || fallback`: an unset or empty variable gives the fallback. */
  function OrElse(env: Option<string>, fallback: string): (r: string)
    ensures Truthy(env) ==> r == env.value
    ensures !Truthy(env) ==> r == fallback
    ensures fallback != "" ==> r != ""
  {
    if env.Some? && env.value != "" then env.value else fallback
  }

  /** JavaScript truthiness of a nullable string: `null` and `""` are falsy. */
  predicate Truthy(s: Option<string>)
  {
    s.Some? && s.value != ""
  }
}
