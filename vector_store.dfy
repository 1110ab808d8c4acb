/**
 * The vector store as the retrieval code sees it. The embedding call, the
 * Supabase RPC and its text-search fallback are not modelled: a store is a
 * function from a similarity query to the rows it returns, or to a failure.
 */
module VectorStore {
  import opened Wrappers
  import opened JsonValue

  /** A document row as a Python dict: each key may be absent or hold any value. */
  type Doc = map<string, Json>

  /** `similarity_search(query, k, filter_domain, threshold)` */
  datatype VectorQuery = VectorQuery(query: string, k: nat, domain: Option<string>, threshold: real)

  /** What one search call gives: its rows, or the message of the exception it raised. */
  datatype DocSearch = Rows(docs: seq<Doc>) | SearchFailed(message: string)

  type Store = VectorQuery -> DocSearch
}
