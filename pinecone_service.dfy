/** PineconeService.findSimilarDocuments: the query body and the match -> text -> non-blank
    pipeline, with the HTTP call as an oracle function. */
module PineconeService {
  import opened Results
  import opened JavaStrings

  /** An embedding vector (List<Double>), passed through unchanged. */
  type Embedding = seq<real>

  /** The body of POST /query. */
  datatype QueryRequest = QueryRequest(vector: Embedding, topK: int, includeMetadata: bool, namespace: string)

  /** A match's metadata map; it is null when absent, and a JSON null value reads as null. */
  datatype Match = Match(metadata: Option<map<string, Option<string>>>)
  datatype QueryResponse = QueryResponse(matches: seq<Match>)

  type IndexEndpoint = QueryRequest -> Result<QueryResponse>

  const TextKey := "text"

  function QueryBody(embedding: Embedding, maxResults: int, namespace: string): QueryRequest {
    QueryRequest(embedding, maxResults, true, namespace)
  }

  /** The first `map`: the metadata's "text", or "" when there is none. A null text makes
      the mapper return null, which Reactor rejects with a NullPointerException. */
  function MatchText(m: Match): Result<string> {
    match m.metadata
    case None => Ok("")
    case Some(metadata) =>
      if TextKey in metadata then
        match metadata[TextKey]
        case None => Err(NullPointer)
        case Some(text) => Ok(text)
      else Ok("")
  }

  /** The texts of all matches, in order, or the first failure. */
  function Texts(matches: seq<Match>): (r: Result<seq<string>>)
    ensures r.Ok? ==> |r.value| == |matches|
  {
    if matches == [] then Ok([])
    else match MatchText(matches[0])
      case Err(e) => Err(e)
      case Ok(text) =>
        match Texts(matches[1..])
        case Err(e) => Err(e)
        case Ok(rest) => Ok([text] + rest)
  }

  /** The texts that are not blank, in order. */
  function NonBlank(texts: seq<string>): (r: seq<string>)
    ensures |r| <= |texts|
  {
    if texts == [] then []
    else if IsBlank(texts[0]) then NonBlank(texts[1..])
    else [texts[0]] + NonBlank(texts[1..])
  }

  /** findSimilarDocuments */
  function FindSimilarDocuments(embedding: Embedding, maxResults: int, namespace: string, index: IndexEndpoint)
    : Result<seq<string>>
  {
    match index(QueryBody(embedding, maxResults, namespace))
    case Err(e) => Err(e)
    case Ok(response) =>
      match Texts(response.matches)
      case Err(e) => Err(e)
      case Ok(texts) => Ok(NonBlank(texts))
  }

  /** The texts are the matches' texts, position by position. */
  lemma {:induction false} TextsAreMatchTexts(matches: seq<Match>)
    ensures Texts(matches).Ok? <==> forall i | 0 <= i < |matches| :: MatchText(matches[i]).Ok?
    ensures Texts(matches).Ok? ==>
              forall i | 0 <= i < |matches| :: Texts(matches).value[i] == MatchText(matches[i]).value
  {
    if matches != [] {
      TextsAreMatchTexts(matches[1..]);
      assert forall i | 1 <= i < |matches| :: matches[1..][i - 1] == matches[i];
    }
  }

  /** Every document kept is non-blank, and a non-blank text is never dropped. */
  lemma {:induction false} NonBlankMembers(texts: seq<string>, x: string)
    ensures x in NonBlank(texts) <==> x in texts && !IsBlank(x)
  {
    if texts != [] {
      NonBlankMembers(texts[1..], x);
      assert texts == [texts[0]] + texts[1..];
    }
  }

  /** The filter keeps order: it acts on each part of a split separately. */
  lemma {:induction false} NonBlankAppend(a: seq<string>, b: seq<string>)
    ensures NonBlank(a + b) == NonBlank(a) + NonBlank(b)
  {
    if a == [] {
      assert a + b == b;
    } else {
      assert (a + b)[1..] == a[1..] + b;
      NonBlankAppend(a[1..], b);
    }
  }

  /** Nothing is dropped exactly when no text is blank. */
  lemma {:induction false} NonBlankKeepsAllIff(texts: seq<string>)
    ensures NonBlank(texts) == texts <==> forall i | 0 <= i < |texts| :: !IsBlank(texts[i])
  {
    if texts != [] {
      NonBlankKeepsAllIff(texts[1..]);
      assert forall i | 1 <= i < |texts| :: texts[1..][i - 1] == texts[i];
      if IsBlank(texts[0]) {
        assert |NonBlank(texts)| < |texts|;
      }
    }
  }

  /** The query carries topK, the namespace verbatim and includeMetadata = true; the
      documents returned are the non-blank texts of the matches, in match order. */
  lemma FindSimilarDocumentsResult(embedding: Embedding, maxResults: int, namespace: string,
                                   index: IndexEndpoint, docs: seq<string>)
    requires FindSimilarDocuments(embedding, maxResults, namespace, index) == Ok(docs)
    ensures var request := QueryBody(embedding, maxResults, namespace);
            && request.vector == embedding && request.topK == maxResults
            && request.includeMetadata && request.namespace == namespace
            && index(request).Ok?
    ensures var matches := index(QueryBody(embedding, maxResults, namespace)).value.matches;
            && |docs| <= |matches|
            && (forall i | 0 <= i < |docs| :: !IsBlank(docs[i]))
            && (forall x :: x in docs <==> !IsBlank(x) && exists i | 0 <= i < |matches| :: MatchText(matches[i]) == Ok(x))
  {
    var matches := index(QueryBody(embedding, maxResults, namespace)).value.matches;
    var texts := Texts(matches).value;
    TextsAreMatchTexts(matches);
    forall x
      ensures x in docs <==> !IsBlank(x) && exists i | 0 <= i < |matches| :: MatchText(matches[i]) == Ok(x)
    {
      NonBlankMembers(texts, x);
      if x in texts {
        var i :| 0 <= i < |texts| && texts[i] == x;
        assert MatchText(matches[i]) == Ok(x);
      }
    }
    forall i | 0 <= i < |docs| ensures !IsBlank(docs[i]) {
      NonBlankMembers(texts, docs[i]);
    }
  }
}
