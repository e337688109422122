/** The network as the scorers see it: an HTTP GET of an IRI and how it ends. */
module Http {
  /** What an HTTP GET of a catalogue IRI comes to: a 2xx response, another response, or an `httpx.HTTPError`. */
  datatype FetchOutcome = Success | Failure | HttpError

  /** The network, as seen by the scorers: the outcome of fetching each IRI. */
  type Fetcher = string -> FetchOutcome
}
