/** DocsAssistantService: prompt assembly (getPromptWithContext) and the per-turn pipeline
    (getCompletionStream) over oracle functions for the external services. */
module DocsAssistantService {
  import opened Results
  import opened ChatCompletionMessages
  import opened TokenAccounting
  import opened ContextBudget
  import opened HistoryBudget
  import OpenAIService
  import PineconeService

  datatype Framework = Framework(fullName: string, value: string)

  const SupportedFrameworks := [
    Framework("Flow", "flow"),
    Framework("Hilla with React", "hilla-react"),
    Framework("Hilla with Lit", "hilla-lit")
  ]

  /** The first framework of the list whose value equals the given one, if any. */
  function FindFirst(frameworks: seq<Framework>, value: string): (r: Option<Framework>)
    ensures r.None? <==> forall i | 0 <= i < |frameworks| :: frameworks[i].value != value
    ensures r.Some? ==> exists k | 0 <= k < |frameworks| ::
              && frameworks[k] == r.value && r.value.value == value
              && forall i | 0 <= i < k :: frameworks[i].value != value
  {
    if frameworks == [] then None
    else if frameworks[0].value == value then Some(frameworks[0])
    else
      assert forall i | 1 <= i < |frameworks| :: frameworks[1..][i - 1] == frameworks[i];
      FindFirst(frameworks[1..], value)
  }

  /** The full name of a supported framework value; anything else makes `orElseThrow` fail. */
  function FrameworkLabel(framework: string): (r: Result<string>)
    ensures r.Ok? <==> framework in ["flow", "hilla-react", "hilla-lit"]
    ensures r.Err? ==> r.error == NoSuchElement
    ensures framework == "flow" ==> r == Ok("Flow")
    ensures framework == "hilla-react" ==> r == Ok("Hilla with React")
    ensures framework == "hilla-lit" ==> r == Ok("Hilla with Lit")
  {
    match FindFirst(SupportedFrameworks, framework)
    case None => Err(NoSuchElement)
    case Some(f) => Ok(f.fullName)
  }

  const SystemPromptStart := "You are a senior Vaadin expert. You love to help developers! Answer the user's question about "
  const SystemPromptEnd := " development with the help of the information in the provided documentation."
  const DocumentationStart := "Here is the documentation:\n===\n"
  const DocumentationEnd := "\n===\n"
  const Rules := "You must also follow the below rules when answering:\n"
               + "- Prefer splitting your response into multiple paragraphs\n"
               + "- Output as markdown\n"
               + "- Always include code snippets if available\n"

  /** The three leading messages: instructions naming the framework, the documentation
      between `===` lines, and the answering rules. */
  function SystemMessages(fullName: string, context: string): seq<Message> {
    [ Message(SYSTEM, SystemPromptStart + fullName + SystemPromptEnd),
      Message(USER, DocumentationStart + context + DocumentationEnd),
      Message(USER, Rules) ]
  }

  /** What getPromptWithContext returns, or its exception. */
  function PromptWithContext(tok: Tokenizer, history: seq<Message>, contextDocs: seq<string>, framework: string)
    : Result<seq<Message>>
  {
    match FrameworkLabel(framework)
    case Err(e) => Err(e)
    case Ok(fullName) => Capped(tok, SystemMessages(fullName, ContextString(tok, contextDocs)), history)
  }

  /** An unknown framework is refused; otherwise the prompt is the three leading messages,
      in that order, then a suffix of the history that keeps the user question. */
  lemma PromptShape(tok: Tokenizer, history: seq<Message>, contextDocs: seq<string>, framework: string)
    requires history != []
    ensures framework !in ["flow", "hilla-react", "hilla-lit"] ==>
              PromptWithContext(tok, history, contextDocs, framework) == Err(NoSuchElement)
    ensures PromptWithContext(tok, history, contextDocs, framework).Ok? ==>
              var prompt := PromptWithContext(tok, history, contextDocs, framework).value;
              var fullName := FrameworkLabel(framework).value;
              && |prompt| > 3
              && prompt[0] == Message(SYSTEM, SystemPromptStart + fullName + SystemPromptEnd)
              && prompt[1] == Message(USER, DocumentationStart + ContextString(tok, contextDocs) + DocumentationEnd)
              && prompt[2] == Message(USER, Rules)
              && prompt[3..] == history[|history| - (|prompt| - 3)..]
              && prompt[|prompt| - 1] == history[|history| - 1]
              && Tokens(tok, prompt[..3], prompt[3..]) <= AvailableTokens
  {
    if FrameworkLabel(framework).Ok? {
      var system := SystemMessages(FrameworkLabel(framework).value, ContextString(tok, contextDocs));
      match Evicted(tok, system, history, 0)
      case Ok(k) =>
        CappedKeepsQuestion(tok, system, history, k);
        var prompt := system + history[k..];
        assert prompt[..3] == system && prompt[3..] == history[k..];
      case Err(_) =>
    }
  }

  /** getPromptWithContext. The function above states the result; this method exists beside it
      because the source computes that result through the two loops, modelled by the methods
      `GetContextString` and `CapMessages`, which a function cannot call. */
  method GetPromptWithContext(tok: Tokenizer, history: seq<Message>, contextDocs: seq<string>, framework: string)
    returns (r: Result<seq<Message>>)
    ensures r == PromptWithContext(tok, history, contextDocs, framework)
  {
    var contextString := GetContextString(tok, contextDocs);
    var fullName := FrameworkLabel(framework);
    if fullName.Err? {
      return Err(fullName.error);
    }
    var systemMessages := SystemMessages(fullName.value, contextString);
    r := CapMessages(tok, systemMessages, history);
  }

  // ---- The pipeline ----

  const HistoryEmptyMessage := "History is empty"
  const ModerationFailedMessage := "Failed to get embedding"
  /** How many documents the retrieval asks for. */
  const MaxResults := 10

  type EmbeddingEndpoint = string -> Result<PineconeService.Embedding>

  /** A request to an external service, in the order the pipeline makes them. */
  datatype ServiceCall =
    | ModerationCall(moderation: OpenAIService.ModerationRequest)
    | EmbeddingCall(text: string)
    | QueryCall(query: PineconeService.QueryRequest)
    | CompletionCall(completion: OpenAIService.CompletionRequest)

  /** The stream a turn returns and the calls it made. */
  datatype Turn = Turn(stream: Stream<string>, calls: seq<ServiceCall>)

  function ModerationCalls(history: seq<Message>): (calls: seq<ServiceCall>)
    ensures |calls| == |history|
  {
    var requests := OpenAIService.ModerationRequests(history);
    seq(|requests|, i requires 0 <= i < |requests| => ModerationCall(requests[i]))
  }

  /** getCompletionStream: moderate -> embed the question -> query -> prompt -> complete. */
  method GetCompletionStream(
    tok: Tokenizer, history: seq<Message>, framework: string,
    moderation: OpenAIService.ModerationEndpoint, embedding: EmbeddingEndpoint,
    index: PineconeService.IndexEndpoint, completion: OpenAIService.CompletionEndpoint)
    returns (turn: Turn)
    // An empty history fails before any service is called.
    ensures history == [] ==> turn == Turn(Fail(Runtime(HistoryEmptyMessage)), [])
    // Otherwise every message is moderated first, one request each.
    ensures history != [] ==>
              |turn.calls| >= |history| && turn.calls[..|history|] == ModerationCalls(history)
    // Content that is unsafe, or whose moderation failed, stops the turn there.
    ensures history != [] && OpenAIService.Moderate(history, moderation) != Ok(true) ==>
              && turn.calls == ModerationCalls(history)
              && turn.stream == Fail(if OpenAIService.Moderate(history, moderation) == Ok(false)
                                     then Runtime(ModerationFailedMessage)
                                     else OpenAIService.Moderate(history, moderation).error)
    // Safe content: the question, the last message's content, is embedded next.
    ensures history != [] && OpenAIService.Moderate(history, moderation) == Ok(true) ==>
              var question := history[|history| - 1].content;
              && |turn.calls| > |history|
              && turn.calls[|history|] == EmbeddingCall(question)
              && (embedding(question).Err? ==>
                    turn.calls == ModerationCalls(history) + [EmbeddingCall(question)]
                    && turn.stream == Fail(embedding(question).error))
    // Then the index is queried for ten matches in the framework's namespace.
    ensures history != [] && OpenAIService.Moderate(history, moderation) == Ok(true)
            && embedding(history[|history| - 1].content).Ok? ==>
              var question := history[|history| - 1].content;
              var query := PineconeService.QueryRequest(embedding(question).value, MaxResults, true, framework);
              var documents := PineconeService.FindSimilarDocuments(embedding(question).value, MaxResults, framework, index);
              var before := ModerationCalls(history) + [EmbeddingCall(question), QueryCall(query)];
              && (documents.Err? ==> turn == Turn(Fail(documents.error), before))
              && (documents.Ok? ==>
                    var prompt := PromptWithContext(tok, history, documents.value, framework);
                    && (prompt.Err? ==> turn == Turn(Fail(prompt.error), before))
                    && (prompt.Ok? ==>
                          turn == Turn(OpenAIService.GenerateCompletionStream(prompt.value, completion),
                                       before + [CompletionCall(OpenAIService.CompletionBody(prompt.value))])))
  {
    if history == [] {
      return Turn(Fail(Runtime(HistoryEmptyMessage)), []);
    }
    var question := history[|history| - 1].content;
    var calls := ModerationCalls(history);

    var isContentSafe := OpenAIService.Moderate(history, moderation);
    if isContentSafe.Err? {
      return Turn(Fail(isContentSafe.error), calls);
    }
    if !isContentSafe.value {
      return Turn(Fail(Runtime(ModerationFailedMessage)), calls);
    }

    calls := calls + [EmbeddingCall(question)];
    var vector := embedding(question);
    if vector.Err? {
      return Turn(Fail(vector.error), calls);
    }

    calls := calls + [QueryCall(PineconeService.QueryBody(vector.value, MaxResults, framework))];
    var similarDocuments := PineconeService.FindSimilarDocuments(vector.value, MaxResults, framework, index);
    if similarDocuments.Err? {
      return Turn(Fail(similarDocuments.error), calls);
    }

    var prompt := GetPromptWithContext(tok, history, similarDocuments.value, framework);
    if prompt.Err? {
      return Turn(Fail(prompt.error), calls);
    }

    calls := calls + [CompletionCall(OpenAIService.CompletionBody(prompt.value))];
    turn := Turn(OpenAIService.GenerateCompletionStream(prompt.value, completion), calls);
  }
}
