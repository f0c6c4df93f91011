/**
  The external services the search pipeline talks to, reduced to what the
  pipeline observes of them, and the log of calls made to them.
 */
module Collaborators {
  import opened Wrappers
  import opened Postings

  /** The exception thrown by the HTTP client while executing the request. */
  datatype TransportError = ClientProtocol | Io

  /** The content of a response entity once the client reads it. The body
      is read line by line and the lines are joined without their
      terminators before parsing; the postings are what that text parses to. */
  datatype Payload =
    | JsonArray(postings: seq<Posting>)  // the joined lines parse as a JSON array
    | Malformed                           // the joined lines are not a JSON array
    | ReadFailure                         // reading or closing the stream threw an IOException

  /** What the job board answers: a failure of the request itself, or a
      status line and an entity that may be null. */
  datatype Response =
    | Failed(cause: TransportError)
    | Reply(status: int, entity: Option<Payload>)

  /** The job board, queried by keyword (the encoded URL and the position
      are not part of the model). */
  type JobSource = string -> Response

  /** The keyword-extraction service: one call for an ordered list of texts,
      answering one keyword list per text. */
  type Extractor = seq<string> -> seq<seq<string>>

  /** The favorites store: the favorite item ids of a user id parameter. */
  type FavoritesStore = Option<string> -> set<string>

  /** One call to an external service, in the order the pipeline makes them. */
  datatype Call =
    | FetchJobs(keyword: string)
    | ExtractKeywords(texts: seq<string>)
    | LoadFavorites(userId: Option<string>)
}
