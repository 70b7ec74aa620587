/**
 * The vector store collaborator (a MongoDB `$vectorSearch` collection), reduced to
 * `search(vector, top_k)` and `upsert(document)`. Ranking is the index's business:
 * the store is built with the function that answers searches. Upserted documents
 * are recorded in order.
 */
module VectorIndex {
  import opened Wrappers

  /** A search hit; only its `"text"` field is read by the core, and it may be missing. */
  datatype Hit = Hit(text: Option<string>)

  /** A stored document: `{_id?, text, embedding, source?, metadata?}`; absent keys are `None`. */
  datatype Doc = Doc(
    id: Option<string>,
    text: string,
    embedding: seq<real>,
    source: Option<string>,
    metadata: Option<map<string, string>>)

  const Unreachable := Error(ExternalError, "vector store unreachable")

  class VectorStore {
    /** The index's answer to a query vector and a result limit. */
    const answer: (seq<real>, nat) -> seq<Hit>
    var reachable: bool
    var searches: seq<(seq<real>, nat)>
    var upserts: seq<Doc>

    constructor (answer: (seq<real>, nat) -> seq<Hit>, up: bool)
      ensures this.answer == answer && reachable == up && searches == [] && upserts == []
    {
      this.answer := answer;
      reachable := up;
      searches := [];
      upserts := [];
    }

    /** `search(query_embedding, top_k)`. */
    method Search(query: seq<real>, topK: nat) returns (r: Result<seq<Hit>>)
      modifies this`searches
      ensures searches == old(searches) + [(query, topK)]
      ensures reachable ==> r == Ok(answer(query, topK))
      ensures !reachable ==> r == Err(Unreachable)
    {
      searches := searches + [(query, topK)];
      if !reachable {
        return Err(Unreachable);
      }
      r := Ok(answer(query, topK));
    }

    /** `upsert(document)`. */
    method Upsert(doc: Doc) returns (r: Result<()>)
      modifies this`upserts
      ensures reachable ==> r == Ok(()) && upserts == old(upserts) + [doc]
      ensures !reachable ==> r == Err(Unreachable) && upserts == old(upserts)
    {
      if !reachable {
        return Err(Unreachable);
      }
      upserts := upserts + [doc];
      r := Ok(());
    }
  }
}
