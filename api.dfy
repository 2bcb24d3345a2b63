/** The backend as the components see it: the requests they issue and the
    settled result of each awaited call. The HTTP client, its base URL and its
    timeout are not part of this model; a call is a request value going out
    and an `Outcome` coming back. */
module Api {
  import opened JsValue

  /** What a scrape or preview request carries. `customPrompt` is `None` where
      the source sends `undefined`. */
  datatype ScrapePayload = ScrapePayload(
    url: string,
    scrapeMethod: string,
    analyzeWithAI: bool,
    customPrompt: Option<string>)

  datatype Request =
    | GetStatistics
    | GetAllData(page: nat, limit: nat)
    | DeleteData(id: Json)
    | ScrapeUrl(payload: ScrapePayload)
    | PreviewScrape(payload: ScrapePayload)

  /** A rejected call. `responseBody` is the body of the error response, or
      undefined when no response arrived (a network failure or a timeout);
      `message` is the error's own `message`. */
  datatype ApiError = ApiError(responseBody: Json, message: string)

  /** How an awaited call settled: with the response body, or rejected. */
  datatype Outcome = Responded(body: Json) | Rejected(error: ApiError)

  /** A string property of an error response, read with optional chaining
      (`error.response?.data?.k`); "" when absent or not a string. */
  function ErrorField(e: ApiError, k: string): (r: string)
    ensures Nullish(e.responseBody) ==> r == ""
    ensures e.responseBody.JObj? && k in e.responseBody.fields && e.responseBody.fields[k].JStr? ==>
              r == e.responseBody.fields[k].s
    ensures r != "" ==> e.responseBody.JObj? && k in e.responseBody.fields
                        && e.responseBody.fields[k] == JStr(r)
  {
    TextOf(OptProp(e.responseBody, k))
  }
}
