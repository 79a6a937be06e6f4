/** Requests, responses and network outcomes, as the service worker's handlers see them. */
module Http {

  datatype Option<T> = None | Some(value: T)

  /** A request: its method (`verb`) and its absolute URL (the URL is also its key in a cache). */
  datatype Request = Request(verb: string, url: string)

  /**
   * A response body. Asset bodies are opaque; a manifest record holds the checksum table
   * that was saved as JSON. Only a manifest record can be read back with `json()`.
   */
  datatype Body = Asset(content: string) | ManifestJson(table: map<string, string>)

  /** A response: whether its status is in the 200 range (`response.ok`) and its body. */
  datatype Response = Response(ok: bool, body: Body)

  /** What one network `fetch` gives: a response (of any status) or a rejection. */
  datatype NetOutcome = Fetched(response: Response) | NetError(error: string)

  /** What a fetch handler does with the request. */
  datatype Reply =
    | PassThrough              // returns without `respondWith`: the browser handles the request
    | Respond(response: Response)
    | Reject(error: string)    // `respondWith` a promise that rejects with this error
}
