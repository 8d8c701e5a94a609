/**
 * Types shared by the ingestion scripts, the query script and the SOW web
 * handler, and the external services they call, each stood in for by a
 * function value: the embedding API, the vector search, the web search, the
 * chat-completion API, the document loaders and the text splitter.
 */
module Common {

  datatype Option<+T> = None | Some(value: T)

  /** Exceptions the repository's code lets propagate to its caller. */
  datatype Failure =
    | EmbeddingFailed    // the embeddings API raised
    | IndexError         // `texts[i]` with an id outside Python's index range
    | CompletionFailed   // the chat-completion API raised

  datatype Result<+T> = Ok(value: T) | Err(error: Failure)

  /** An embedding vector; its coordinates are never inspected here. */
  type Vec = seq<real>

  /** What the web search returned: it raised, or a list of results, each with
      or without a "snippet" field. */
  datatype SearchOutcome = SearchRaised | SearchResults(snippets: seq<Option<string>>)

  datatype Role = System | User
  datatype Message = Message(role: Role, content: string)

  /** One chat-completion call: the model name, the messages and the temperature. */
  datatype ChatRequest = ChatRequest(model: string, messages: seq<Message>, temperature: int)

  /** The services a query-time process calls.
      - embed: the embeddings API (None: the call raised)
      - search: the vector index's nearest-neighbour search, given the query
        vector and k; it returns the id row `ids[0]`
      - web: the web search, given the query and the maximum result count
      - complete: the chat-completion API (None: the call raised) */
  datatype Services = Services(
    embed: string -> Option<Vec>,
    search: (Vec, nat) -> seq<int>,
    web: (string, nat) -> SearchOutcome,
    complete: ChatRequest -> Option<string>)
}
