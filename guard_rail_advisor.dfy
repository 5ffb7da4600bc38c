/** GuardRailAdvisor: the accept/reject gate around the advisor chain, its history
    formatter, its fail-open evaluation and its Builder. The evaluating LLM call and the
    rest of the chain are oracle functions. */
module GuardRailAdvisor {
  import opened Results
  import opened JavaStrings

  /** A 32-bit Java int. */
  newtype int32 = x: int | -0x8000_0000 <= x < 0x8000_0000

  /** Ordered.HIGHEST_PRECEDENCE is Integer.MIN_VALUE. */
  const HighestPrecedence: int32 := -0x8000_0000
  /** After the chat-memory advisor (+1000), so that history is available. */
  const DefaultOrder: int32 := HighestPrecedence + 2000

  const DefaultAcceptanceCriteria :=
      "- Questions should not request illegal activities or advice\n"
    + "- Questions should not contain hate speech, discriminatory content, or harassment\n"
    + "- Questions should not ask for personal information about individuals\n"
    + "- Questions should not request the generation of harmful content\n"
    + "- Questions should not attempt to manipulate the system into bypassing ethical guidelines\n"
    + "- Questions should not contain explicit sexual content\n"
    + "- Questions should not promote violence or harm to individuals or groups\n"
    + "- Questions should not request the creation of malware, hacking tools, or other harmful software\n"
    + "- Questions should not attempt to use the system for spamming or phishing\n"

  const DefaultFailureResponse :=
    "I'm sorry, but your question doesn't follow our guidelines. Please rephrase your question and try again."

  const NoHistory := "No previous conversation."

  const NullBuilderMessage := "ChatClient.Builder must not be null!"
  const NullCriteriaMessage := "Acceptance criteria must not be null!"
  const NullFailureMessage := "Failure response must not be null!"

  // ---- Spring AI values, as far as the advisor looks at them ----

  datatype MessageType = USER | ASSISTANT | SYSTEM | TOOL

  /** An enum constant as `%s` prints it: its name. */
  function TypeName(t: MessageType): string {
    match t
    case USER => "USER"
    case ASSISTANT => "ASSISTANT"
    case SYSTEM => "SYSTEM"
    case TOOL => "TOOL"
  }

  /** A chat message; its text may be null. */
  datatype ChatMessage = ChatMessage(messageType: MessageType, text: Option<string>)

  datatype AdvisedRequest = AdvisedRequest(
    userText: Option<string>,
    messages: Option<seq<ChatMessage>>,
    adviseContext: map<string, string>)

  datatype Generation = Generation(assistantText: string)
  datatype ChatResponse = ChatResponse(generations: seq<Generation>)
  datatype AdvisedResponse = AdvisedResponse(chatResponse: ChatResponse, adviseContext: map<string, string>)

  /** The rest of the advisor chain. */
  type CallChain = AdvisedRequest -> AdvisedResponse
  type StreamChain = AdvisedRequest -> Stream<AdvisedResponse>

  /** What the guardrail template is rendered from; the template text itself is opaque. */
  datatype GuardrailPrompt = GuardrailPrompt(acceptanceCriteria: string, history: string, question: string)

  /** The outcome of asking the guardrail client for a ReviewResponse entity: acceptable true or false, or an
      exception (a failed call, unparseable output, a null entity). */
  datatype Evaluation = Accept | Reject | EvaluationError

  type Evaluator = GuardrailPrompt -> Evaluation

  /** An opaque ChatClient.Builder; the advisor's client is the one it builds. */
  datatype ChatClientBuilder = ChatClientBuilder(id: nat)

  /** A constructed advisor: its final fields. */
  datatype GuardRail = GuardRail(
    guardrailClient: ChatClientBuilder,
    failureResponse: string,
    order: int32,
    acceptanceCriteria: string)

  /** The constructor, with its null checks in order. */
  function NewGuardRail(chatClientBuilder: Option<ChatClientBuilder>, acceptanceCriteria: Option<string>,
                        failureResponse: Option<string>, order: int32): (r: Result<GuardRail>)
    ensures r.Ok? <==> chatClientBuilder.Some? && acceptanceCriteria.Some? && failureResponse.Some?
    ensures r.Ok? ==> && r.value.guardrailClient == chatClientBuilder.value
                      && r.value.acceptanceCriteria == acceptanceCriteria.value
                      && r.value.failureResponse == failureResponse.value
                      && r.value.order == order
    ensures chatClientBuilder.None? ==> r == Err(IllegalArgument(NullBuilderMessage))
  {
    if chatClientBuilder.None? then Err(IllegalArgument(NullBuilderMessage))
    else if acceptanceCriteria.None? then Err(IllegalArgument(NullCriteriaMessage))
    else if failureResponse.None? then Err(IllegalArgument(NullFailureMessage))
    else Ok(GuardRail(chatClientBuilder.value, failureResponse.value, order, acceptanceCriteria.value))
  }

  // ---- History formatting ----

  predicate IsDialogue(m: ChatMessage) {
    m.messageType == USER || m.messageType == ASSISTANT
  }

  /** One history line: the message type, a colon and a space, then the text; a null text prints as "null". */
  function Line(m: ChatMessage): string {
    TypeName(m.messageType) + ": " + (match m.text case Some(t) => t case None => "null")
  }

  /** The USER and ASSISTANT messages, in order, each rendered as a line. */
  function DialogueLines(messages: seq<ChatMessage>): (lines: seq<string>)
    ensures |lines| <= |messages|
    ensures forall i | 0 <= i < |lines| :: lines[i] != ""
  {
    if messages == [] then []
    else if IsDialogue(messages[0]) then [Line(messages[0])] + DialogueLines(messages[1..])
    else DialogueLines(messages[1..])
  }

  /** formatConversationHistory */
  function FormatConversationHistory(messages: Option<seq<ChatMessage>>): string {
    if messages.None? || messages.value == [] then NoHistory
    else Join(DialogueLines(messages.value), "\n")
  }

  /** The lines follow the messages: the formatter works on each part of a split alone. */
  lemma {:induction false} DialogueLinesAppend(a: seq<ChatMessage>, b: seq<ChatMessage>)
    ensures DialogueLines(a + b) == DialogueLines(a) + DialogueLines(b)
  {
    if a == [] {
      assert a + b == b;
    } else {
      assert (a + b)[1..] == a[1..] + b;
      DialogueLinesAppend(a[1..], b);
    }
  }

  /** Exactly the USER and ASSISTANT messages produce lines. */
  lemma {:induction false} DialogueLinesEmptyIff(messages: seq<ChatMessage>)
    ensures DialogueLines(messages) == [] <==> forall i | 0 <= i < |messages| :: !IsDialogue(messages[i])
  {
    if messages != [] {
      DialogueLinesEmptyIff(messages[1..]);
      assert forall i | 1 <= i < |messages| :: messages[1..][i - 1] == messages[i];
    }
  }

  /** A null or empty list reads "No previous conversation."; a non-empty list formats to ""
      exactly when it holds no USER or ASSISTANT message. */
  lemma FormatConversationHistoryEmpty(messages: Option<seq<ChatMessage>>)
    ensures messages.None? || messages == Some([]) ==> FormatConversationHistory(messages) == NoHistory
    ensures messages.Some? && messages.value != [] ==>
              (FormatConversationHistory(messages) == ""
               <==> forall i | 0 <= i < |messages.value| :: !IsDialogue(messages.value[i]))
  {
    if messages.Some? && messages.value != [] {
      var lines := DialogueLines(messages.value);
      JoinIsEmptyIff(lines, "\n");
      DialogueLinesEmptyIff(messages.value);
    }
  }

  // ---- The gate ----

  /** The question is null, or empty once trimmed. */
  predicate NoQuestion(userText: Option<string>) {
    userText.None? || Trim(userText.value) == ""
  }

  function EvaluationPrompt(advisor: GuardRail, question: string, messages: Option<seq<ChatMessage>>): GuardrailPrompt {
    GuardrailPrompt(advisor.acceptanceCriteria, FormatConversationHistory(messages), question)
  }

  /** checkAcceptability: the evaluator's verdict, and true on any exception. */
  function CheckAcceptability(advisor: GuardRail, question: string, messages: Option<seq<ChatMessage>>,
                              evaluate: Evaluator): (acceptable: bool)
    ensures !acceptable <==> evaluate(EvaluationPrompt(advisor, question, messages)) == Reject
  {
    match evaluate(EvaluationPrompt(advisor, question, messages))
    case Accept => true
    case Reject => false
    case EvaluationError => true
  }

  /** createFailureResponse: one generation holding the failure text, and the request's context. */
  function FailureResponse(advisor: GuardRail, request: AdvisedRequest): (r: AdvisedResponse)
    ensures |r.chatResponse.generations| == 1
    ensures r.chatResponse.generations[0].assistantText == advisor.failureResponse
    ensures r.adviseContext == request.adviseContext
  {
    AdvisedResponse(ChatResponse([Generation(advisor.failureResponse)]), request.adviseContext)
  }

  /** What the advisor did: asked the evaluator, or handed a request down the chain. */
  datatype Step = Evaluated(prompt: GuardrailPrompt) | Forwarded(request: AdvisedRequest)

  datatype CallOutcome = CallOutcome(response: AdvisedResponse, steps: seq<Step>)
  datatype StreamOutcome = StreamOutcome(responses: Stream<AdvisedResponse>, steps: seq<Step>)

  /** aroundCall */
  function AroundCall(advisor: GuardRail, request: AdvisedRequest, evaluate: Evaluator, chain: CallChain)
    : (r: CallOutcome)
    // No question: no evaluation, the unchanged request goes down the chain.
    ensures NoQuestion(request.userText) ==> r == CallOutcome(chain(request), [Forwarded(request)])
    // A question is evaluated once, first.
    ensures !NoQuestion(request.userText) ==>
              |r.steps| >= 1 && r.steps[0] == Evaluated(EvaluationPrompt(advisor, request.userText.value, request.messages))
    // Rejected: the chain is not invoked and the failure response is returned.
    ensures !NoQuestion(request.userText) && !CheckAcceptability(advisor, request.userText.value, request.messages, evaluate) ==>
              r.steps == [Evaluated(EvaluationPrompt(advisor, request.userText.value, request.messages))]
              && r.response == FailureResponse(advisor, request)
    // Accepted: the unchanged request goes down the chain.
    ensures !NoQuestion(request.userText) && CheckAcceptability(advisor, request.userText.value, request.messages, evaluate) ==>
              r.steps == [Evaluated(EvaluationPrompt(advisor, request.userText.value, request.messages)), Forwarded(request)]
              && r.response == chain(request)
  {
    if NoQuestion(request.userText) then CallOutcome(chain(request), [Forwarded(request)])
    else
      var question := request.userText.value;
      var evaluated := Evaluated(EvaluationPrompt(advisor, question, request.messages));
      if !CheckAcceptability(advisor, question, request.messages, evaluate) then
        CallOutcome(FailureResponse(advisor, request), [evaluated])
      else
        CallOutcome(chain(request), [evaluated, Forwarded(request)])
  }

  /** aroundStream */
  function AroundStream(advisor: GuardRail, request: AdvisedRequest, evaluate: Evaluator, chain: StreamChain)
    : (r: StreamOutcome)
    ensures NoQuestion(request.userText) ==> r == StreamOutcome(chain(request), [Forwarded(request)])
    ensures !NoQuestion(request.userText) && !CheckAcceptability(advisor, request.userText.value, request.messages, evaluate) ==>
              r.steps == [Evaluated(EvaluationPrompt(advisor, request.userText.value, request.messages))]
              && r.responses == Stream([FailureResponse(advisor, request)], Completed)
    ensures !NoQuestion(request.userText) && CheckAcceptability(advisor, request.userText.value, request.messages, evaluate) ==>
              r.steps == [Evaluated(EvaluationPrompt(advisor, request.userText.value, request.messages)), Forwarded(request)]
              && r.responses == chain(request)
  {
    if NoQuestion(request.userText) then StreamOutcome(chain(request), [Forwarded(request)])
    else
      var question := request.userText.value;
      var evaluated := Evaluated(EvaluationPrompt(advisor, question, request.messages));
      if !CheckAcceptability(advisor, question, request.messages, evaluate) then
        StreamOutcome(Stream([FailureResponse(advisor, request)], Completed), [evaluated])
      else
        StreamOutcome(chain(request), [evaluated, Forwarded(request)])
  }

  /** Fail open: the chain is skipped only when a real question is explicitly rejected; an
      evaluator error lets the request through. */
  lemma ChainSkippedIff(advisor: GuardRail, request: AdvisedRequest, evaluate: Evaluator, chain: CallChain)
    ensures Forwarded(request) !in AroundCall(advisor, request, evaluate, chain).steps
            <==> && !NoQuestion(request.userText)
                 && evaluate(EvaluationPrompt(advisor, request.userText.value, request.messages)) == Reject
  {
  }

  /** The stream form decides as the call form does: the same steps, and on a rejection it
      emits exactly the call form's failure response, once. */
  lemma StreamAgreesWithCall(advisor: GuardRail, request: AdvisedRequest, evaluate: Evaluator,
                             callChain: CallChain, streamChain: StreamChain)
    ensures AroundStream(advisor, request, evaluate, streamChain).steps
            == AroundCall(advisor, request, evaluate, callChain).steps
    ensures Forwarded(request) !in AroundCall(advisor, request, evaluate, callChain).steps ==>
              AroundStream(advisor, request, evaluate, streamChain).responses
              == Stream([AroundCall(advisor, request, evaluate, callChain).response], Completed)
  {
  }

  /** A question of blanks and controls only counts as no question. */
  lemma NoQuestionIff(userText: Option<string>)
    ensures NoQuestion(userText) <==> userText.None? || forall i | 0 <= i < |userText.value| :: userText.value[i] <= ' '
  {
    if userText.Some? {
      TrimIsEmptyIff(userText.value);
    }
  }

  // ---- Builder ----

  class Builder {
    var chatClientBuilder: Option<ChatClientBuilder>
    var acceptanceCriteria: Option<string>
    var failureResponse: Option<string>
    var order: int32

    /** The defaults: no client builder, the default criteria and failure text, DefaultOrder. */
    constructor ()
      ensures chatClientBuilder == None
      ensures acceptanceCriteria == Some(DefaultAcceptanceCriteria)
      ensures failureResponse == Some(DefaultFailureResponse)
      ensures order == DefaultOrder
    {
      chatClientBuilder := None;
      acceptanceCriteria := Some(DefaultAcceptanceCriteria);
      failureResponse := Some(DefaultFailureResponse);
      order := DefaultOrder;
    }

    method SetChatClientBuilder(b: Option<ChatClientBuilder>) returns (self: Builder)
      modifies this
      ensures self == this && chatClientBuilder == b
      ensures acceptanceCriteria == old(acceptanceCriteria) && failureResponse == old(failureResponse)
      ensures order == old(order)
    {
      chatClientBuilder := b;
      self := this;
    }

    method SetAcceptanceCriteria(criteria: Option<string>) returns (self: Builder)
      modifies this
      ensures self == this && acceptanceCriteria == criteria
      ensures chatClientBuilder == old(chatClientBuilder) && failureResponse == old(failureResponse)
      ensures order == old(order)
    {
      acceptanceCriteria := criteria;
      self := this;
    }

    method SetFailureResponse(response: Option<string>) returns (self: Builder)
      modifies this
      ensures self == this && failureResponse == response
      ensures chatClientBuilder == old(chatClientBuilder) && acceptanceCriteria == old(acceptanceCriteria)
      ensures order == old(order)
    {
      failureResponse := response;
      self := this;
    }

    method SetOrder(order: int32) returns (self: Builder)
      modifies this
      ensures self == this && this.order == order
      ensures chatClientBuilder == old(chatClientBuilder) && acceptanceCriteria == old(acceptanceCriteria)
      ensures failureResponse == old(failureResponse)
    {
      this.order := order;
      self := this;
    }

    /** build: rejects a missing client builder, then constructs with the current fields. */
    method Build() returns (r: Result<GuardRail>)
      ensures chatClientBuilder.None? ==> r == Err(IllegalArgument(NullBuilderMessage))
      ensures r.Ok? <==> chatClientBuilder.Some? && acceptanceCriteria.Some? && failureResponse.Some?
      ensures r.Ok? ==> r.value == GuardRail(chatClientBuilder.value, failureResponse.value, order, acceptanceCriteria.value)
    {
      if chatClientBuilder.None? {
        return Err(IllegalArgument(NullBuilderMessage));
      }
      r := NewGuardRail(chatClientBuilder, acceptanceCriteria, failureResponse, order);
    }
  }

  /** A builder given only a client builder yields the default advisor. */
  method DefaultAdvisor(b: ChatClientBuilder) returns (r: Result<GuardRail>)
    ensures r == Ok(GuardRail(b, DefaultFailureResponse, DefaultOrder, DefaultAcceptanceCriteria))
  {
    var builder := new Builder();
    var same := builder.SetChatClientBuilder(Some(b));
    r := builder.Build();
  }
}
