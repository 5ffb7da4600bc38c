# Docs assistant core, modelled in Dafny

This project models the core of a retrieval-augmented chat backend for the Vaadin
documentation. For each chat turn the backend:

1. moderates every message of the history;
2. embeds the user's question (the last message);
3. queries a Pinecone namespace for similar snippets and keeps their non-blank texts;
4. packs as many leading snippets as fit 1536 tokens into the context;
5. trims the oldest history messages until the prompt fits 4096 − 1024 tokens;
6. streams the completion, dropping the double-newline fragments and turning the `[DONE]`
   decoding error into a clean end.

A second, Spring AI based variant puts a guardrail advisor in front of its chat client. The
advisor asks an LLM whether the question is acceptable, fails open, and answers a rejected
question with a fixed text.

Every external party is a function-valued parameter (an oracle): the CL100K_BASE tokenizer
(`Tokenizer = string -> nat`), the moderation, embedding, Pinecone and completion endpoints,
the guardrail evaluator and the rest of the advisor chain. Nothing else is assumed about them.
A Java exception is a `Result.Err` whose `Error` names its kind. A Reactor `Flux` is a
`Stream(items, end)` whose end is `Completed` or `Failed(error)`. The orchestrator and the
advisor also return the list of calls they made. That list is how the model states that no
embedding, retrieval or completion happens after a failed gate.

Files, one module each:
- `results.dfy`: Option, Result, Error, Stream.
- `java_strings.dfy`: the `String` methods the code relies on: `isBlank`, `trim`, `contains`, `toUpperCase` and `Collectors.joining`.
- `chat_completion_message.dfy`: the role codec and the mutable message class.
- `token_accounting.dfy`, `context_budget.dfy`, `history_budget.dfy`, `docs_assistant_service.dfy`: `DocsAssistantService`.
- `openai_service.dfy`, `pinecone_service.dfy`: the two service classes.
- `guard_rail_advisor.dfy`: `GuardRailAdvisor` and its `Builder`.

The loops of `getContextString`, `capMessages` and `getTokenCount` are methods with loop
invariants. Each is proved equal to a specification function (`ContextString`, `Capped`,
`TokenCount`), and the lemmas state what the source promises about those functions. Callers of
those loops (`getPromptWithContext`, `getCompletionStream`) are methods too.

Behaviour of the code that a reader might not expect, and that the model reproduces:
- The guardrail converts the evaluator's reply into `ReviewResponse(boolean acceptable)`.
  It treats any failure of that call as acceptable, including output it cannot parse.
  The evaluator oracle therefore answers `Accept`, `Reject` or `EvaluationError`.
- Every message of the history is moderated, not only the newest user message.
- An unknown framework is not rejected before retrieval. The index is still queried with the
  framework string as namespace. The turn then fails with `NoSuchElementException` while the
  prompt is assembled, and no completion is requested.
- `getCompletionStream` does not pass through the guardrail advisor. The advisor is used only by
  the Spring AI variant (`org/vaadin/marcus/docsassistant/client/DocsAssistantService.java`),
  which is not part of this model.

## Model

| member | source | states |
|---|---|---|
| `ChatCompletionMessages.RoleName` | src/main/java/com/example/application/service/openai/model/ChatCompletionMessage.java:11-25 | the wire names are "system", "user", "assistant", and `fromString` of a role's name gives back that role (with the model's ASCII upper-casing) |
| `ChatCompletionMessages.FromStringAcceptsIff` | src/main/java/com/example/application/service/openai/model/ChatCompletionMessage.java:27-30 | `fromString(s)` returns role r exactly when s equals r's name ignoring (ASCII) letter case |
| `ChatCompletionMessages.FromStringRejects` | src/main/java/com/example/application/service/openai/model/ChatCompletionMessage.java:29 | a string that is no role name in any case is rejected with IllegalArgumentException |
| `ChatCompletionMessages.FromStringIgnoresCase` | src/main/java/com/example/application/service/openai/model/ChatCompletionMessage.java:29 | `fromString` depends only on the upper-cased input |
| `JavaStrings.ToUpperCase` | src/main/java/com/example/application/service/openai/model/ChatCompletionMessage.java:29 | the model's upper-casing maps ASCII a-z to A-Z and leaves every other character as it is, one character for one |
| `ChatCompletionMessages.ChatCompletionMessage.constructor` | src/main/java/com/example/application/service/openai/model/ChatCompletionMessage.java:39-42 | the constructor sets both fields |
| `ChatCompletionMessages.ChatCompletionMessage.GetRole` | src/main/java/com/example/application/service/openai/model/ChatCompletionMessage.java:44-46 | returns the current role |
| `ChatCompletionMessages.ChatCompletionMessage.SetRole` | src/main/java/com/example/application/service/openai/model/ChatCompletionMessage.java:48-50 | sets the role and leaves the content alone |
| `ChatCompletionMessages.ChatCompletionMessage.GetContent` | src/main/java/com/example/application/service/openai/model/ChatCompletionMessage.java:52-54 | returns the current content |
| `ChatCompletionMessages.ChatCompletionMessage.SetContent` | src/main/java/com/example/application/service/openai/model/ChatCompletionMessage.java:56-58 | sets the content and leaves the role alone |
| `TokenAccounting.GetTokenCount` | src/main/java/com/example/application/service/DocsAssistantService.java:162-168 | the loop returns 3 plus the per-message counts of the whole list |
| `TokenAccounting.TokenCountDecomposes` | src/main/java/com/example/application/service/DocsAssistantService.java:162-183 | a list's count is 3 + 4·n + the role tokens + the content tokens |
| `TokenAccounting.CostAppend` | src/main/java/com/example/application/service/DocsAssistantService.java:164-166 | the message tokens of a concatenation are the sum of its parts' |
| `TokenAccounting.CostOfSuffix` | src/main/java/com/example/application/service/DocsAssistantService.java:176-183 | dropping j − i oldest messages saves at least 4 tokens each |
| `ContextBudget.GetContextString` | src/main/java/com/example/application/service/DocsAssistantService.java:110-123 | the loop with its early break returns the rendering of the packed prefix; empty input gives "" |
| `ContextBudget.RenderAppend` | src/main/java/com/example/application/service/DocsAssistantService.java:118-119 | every snippet is followed by "\n---\n" and rendering keeps input order |
| `ContextBudget.PackedIsMaximalFit` | src/main/java/com/example/application/service/DocsAssistantService.java:113-117 | the sum of tok(doc)+2 over the packed prefix is within the budget, and adding the next doc exceeds it |
| `ContextBudget.PackedIsTheMaximalFit` | src/main/java/com/example/application/service/DocsAssistantService.java:113-117 | conversely, a prefix that fits and cannot be extended is the packed one |
| `ContextBudget.PackedIgnoresLaterDocs` | src/main/java/com/example/application/service/DocsAssistantService.java:115-117 | after the first doc that overflows, appending more docs changes nothing |
| `ContextBudget.ContextStringIsMaximalPrefix` | src/main/java/com/example/application/service/DocsAssistantService.java:110-123 | the context is the rendering of the longest prefix within 1536 tokens |
| `ContextBudget.ContextStringIgnoresLaterDocs` | src/main/java/com/example/application/service/DocsAssistantService.java:113-117 | later, smaller docs are never considered: the context of docs + later equals that of docs |
| `HistoryBudget.Evicted` | src/main/java/com/example/application/service/DocsAssistantService.java:139-146 | the number of messages the loop removes lies between the start and the history length |
| `HistoryBudget.CapMessages` | src/main/java/com/example/application/service/DocsAssistantService.java:132-152 | the loop over a copy of the history returns exactly `Capped`, the list or the exception |
| `HistoryBudget.TokensOfSuffix` | src/main/java/com/example/application/service/DocsAssistantService.java:137-145 | the total never grows as older messages are removed |
| `HistoryBudget.EvictedFrom` | src/main/java/com/example/application/service/DocsAssistantService.java:139-146 | where the loop stops, the rest fits, and every earlier position was over budget |
| `HistoryBudget.CappedKeepsQuestion` | src/main/java/com/example/application/service/DocsAssistantService.java:134-151 | success returns system ++ a suffix of history that keeps its last message, fits in 3072 tokens (priming counted twice) and is the longest such suffix |
| `HistoryBudget.EvictedIsLongestFit` | src/main/java/com/example/application/service/DocsAssistantService.java:139-146 | conversely, the longest fitting suffix that keeps the question is what the loop finds |
| `HistoryBudget.CappedUnchangedIff` | src/main/java/com/example/application/service/DocsAssistantService.java:137-139 | the history comes back unchanged exactly when it already fits |
| `HistoryBudget.CannotCapIff` | src/main/java/com/example/application/service/DocsAssistantService.java:139-142 | "Cannot cap messages further" is thrown exactly when the question alone is still over budget, including a one-message history |
| `HistoryBudget.CannotCapFrom` | src/main/java/com/example/application/service/DocsAssistantService.java:139-144 | when every remaining suffix is over budget the loop reaches one message and throws |
| `HistoryBudget.ErrorAtQuestion` | src/main/java/com/example/application/service/DocsAssistantService.java:139-144 | a non-empty history only ever fails with "Cannot cap", and only when the question alone is over budget |
| `HistoryBudget.EmptyHistoryOutOfBoundsIff` | src/main/java/com/example/application/service/DocsAssistantService.java:139-144 | `remove(0)` fails exactly for an empty history that does not fit |
| `DocsAssistantService.FindFirst` | src/main/java/com/example/application/service/DocsAssistantService.java:71-74 | the lookup finds a framework iff one has the value, and then the first such one |
| `DocsAssistantService.FrameworkLabel` | src/main/java/com/example/application/service/DocsAssistantService.java:28-32 | flow, hilla-react and hilla-lit map to "Flow", "Hilla with React" and "Hilla with Lit"; any other value throws NoSuchElementException |
| `DocsAssistantService.PromptShape` | src/main/java/com/example/application/service/DocsAssistantService.java:67-103 | an unknown framework throws; otherwise the prompt is the SYSTEM message with the label, the documentation between `===` lines, the rules message, then a fitting history suffix ending with the question |
| `DocsAssistantService.GetPromptWithContext` | src/main/java/com/example/application/service/DocsAssistantService.java:67-103 | the method returns exactly `PromptWithContext` |
| `DocsAssistantService.ModerationCalls` | src/main/java/com/example/application/service/DocsAssistantService.java:57-58 | one moderation call per history message |
| `DocsAssistantService.GetCompletionStream` | src/main/java/com/example/application/service/DocsAssistantService.java:50-65 | empty history fails before any call; every message is moderated first; an unsafe or failed moderation stops there with no embedding, query or completion; the embedded text is the last message's content; the query asks for 10 matches in the framework namespace with metadata; completion is requested only with the assembled prompt, and its filtered stream is returned |
| `OpenAIService.ModerationRequests` | src/main/java/com/example/application/service/openai/OpenAIService.java:47-48 | exactly one moderation request per message |
| `OpenAIService.Responses` | src/main/java/com/example/application/service/openai/OpenAIService.java:47-49 | the collected list has one response per request |
| `OpenAIService.ResponsesAreTheReplies` | src/main/java/com/example/application/service/openai/OpenAIService.java:47-49 | the collected list is the endpoint's replies in message order, and fails iff some request fails |
| `OpenAIService.AnyFlaggedFalseIff` | src/main/java/com/example/application/service/openai/OpenAIService.java:50-53 | nothing is flagged iff every first result is present and not flagged |
| `OpenAIService.AnyFlaggedTrueIff` | src/main/java/com/example/application/service/openai/OpenAIService.java:50-53 | something is flagged iff some first result is flagged with all before it passing |
| `OpenAIService.ModerateSafeIff` | src/main/java/com/example/application/service/openai/OpenAIService.java:46-55 | `moderate` is true iff every message is answered and none has results[0].flagged; the empty list is safe |
| `OpenAIService.ModerateUnsafeIff` | src/main/java/com/example/application/service/openai/OpenAIService.java:46-55 | `moderate` is false iff every message is answered and one is flagged first |
| `OpenAIService.KeptContents` | src/main/java/com/example/application/service/openai/OpenAIService.java:111-116 | the filtered output is no longer than the input |
| `OpenAIService.KeptContentsMembers` | src/main/java/com/example/application/service/openai/OpenAIService.java:111-115 | a fragment is kept iff it occurs as non-null content other than "\n\n", so "" and "\n\n\n" are kept |
| `OpenAIService.KeptContentsAppend` | src/main/java/com/example/application/service/openai/OpenAIService.java:111-116 | the filter preserves order across any split of the stream |
| `OpenAIService.FilterChunksOfReadable` | src/main/java/com/example/application/service/openai/OpenAIService.java:97-116 | over readable chunks the output is the kept contents in upstream order, ending as the resumed upstream ends |
| `OpenAIService.FilterChunksStopsAtUnreadable` | src/main/java/com/example/application/service/openai/OpenAIService.java:111-116 | a chunk without choices or delta fails the stream after the fragments kept before it |
| `OpenAIService.CompletionEndsIff` | src/main/java/com/example/application/service/openai/OpenAIService.java:98-110 | the stream ends cleanly iff the upstream did or failed with a message containing "JsonToken.START_ARRAY"; other errors propagate unchanged, and fragments before an absorbed error are kept |
| `PineconeService.Texts` | src/main/java/com/example/application/service/pinecone/PineconeService.java:59-65 | one text per match |
| `PineconeService.TextsAreMatchTexts` | src/main/java/com/example/application/service/pinecone/PineconeService.java:59-65 | the i-th text is the i-th match's metadata "text", or "" without metadata or key |
| `PineconeService.NonBlank` | src/main/java/com/example/application/service/pinecone/PineconeService.java:66 | the filtered list is no longer than its input |
| `PineconeService.NonBlankMembers` | src/main/java/com/example/application/service/pinecone/PineconeService.java:66 | a text is returned iff it is one of the texts and not blank |
| `PineconeService.NonBlankAppend` | src/main/java/com/example/application/service/pinecone/PineconeService.java:66-67 | the filter keeps match order |
| `PineconeService.NonBlankKeepsAllIff` | src/main/java/com/example/application/service/pinecone/PineconeService.java:66 | nothing is dropped iff no text is blank |
| `PineconeService.FindSimilarDocumentsResult` | src/main/java/com/example/application/service/pinecone/PineconeService.java:42-68 | the query carries topK, the namespace verbatim and includeMetadata = true; the result is no longer than the matches, all non-blank, and holds exactly the non-blank match texts |
| `GuardRailAdvisor.NewGuardRail` | src/main/java/org/vaadin/marcus/docsassistant/advisors/GuardRailAdvisor.java:87-98 | construction succeeds iff builder, criteria and failure text are non-null, and keeps them and the order |
| `GuardRailAdvisor.DialogueLines` | src/main/java/org/vaadin/marcus/docsassistant/advisors/GuardRailAdvisor.java:175-178 | at most one line per message, none empty |
| `GuardRailAdvisor.DialogueLinesAppend` | src/main/java/org/vaadin/marcus/docsassistant/advisors/GuardRailAdvisor.java:175-178 | the formatter keeps message order |
| `GuardRailAdvisor.DialogueLinesEmptyIff` | src/main/java/org/vaadin/marcus/docsassistant/advisors/GuardRailAdvisor.java:176-177 | no line is produced iff no message is USER or ASSISTANT |
| `JavaStrings.JoinIsEmptyIff` | src/main/java/org/vaadin/marcus/docsassistant/advisors/GuardRailAdvisor.java:179 | joining with "\n" is empty iff there is nothing or one empty part |
| `GuardRailAdvisor.FormatConversationHistoryEmpty` | src/main/java/org/vaadin/marcus/docsassistant/advisors/GuardRailAdvisor.java:170-180 | null or empty gives "No previous conversation."; a non-empty list gives "" iff it has no USER or ASSISTANT message |
| `JavaStrings.TrimIsEmptyIff` | src/main/java/org/vaadin/marcus/docsassistant/advisors/GuardRailAdvisor.java:118 | `trim().isEmpty()` holds iff every character is at or below U+0020 |
| `GuardRailAdvisor.NoQuestionIff` | src/main/java/org/vaadin/marcus/docsassistant/advisors/GuardRailAdvisor.java:118 | a question is missing iff it is null or made only of characters at or below U+0020 |
| `GuardRailAdvisor.CheckAcceptability` | src/main/java/org/vaadin/marcus/docsassistant/advisors/GuardRailAdvisor.java:192-217 | a question is unacceptable iff the evaluator explicitly rejects it; an evaluator error means acceptable (fail open) |
| `GuardRailAdvisor.FailureResponse` | src/main/java/org/vaadin/marcus/docsassistant/advisors/GuardRailAdvisor.java:225-232 | exactly one generation, whose text is the configured failure response, with the request's context |
| `GuardRailAdvisor.AroundCall` | src/main/java/org/vaadin/marcus/docsassistant/advisors/GuardRailAdvisor.java:115-132 | no question: the unchanged request is delegated without evaluation; rejected: no chain call, failure response; accepted: the unchanged request is delegated |
| `GuardRailAdvisor.AroundStream` | src/main/java/org/vaadin/marcus/docsassistant/advisors/GuardRailAdvisor.java:135-152 | as `AroundCall`, and a rejection emits exactly one failure response |
| `GuardRailAdvisor.ChainSkippedIff` | src/main/java/org/vaadin/marcus/docsassistant/advisors/GuardRailAdvisor.java:118-131 | the chain is skipped iff a real question is explicitly rejected |
| `GuardRailAdvisor.StreamAgreesWithCall` | src/main/java/org/vaadin/marcus/docsassistant/advisors/GuardRailAdvisor.java:115-152 | both forms take the same steps, and a rejected stream is the call form's response, once |
| `GuardRailAdvisor.Builder.constructor` | src/main/java/org/vaadin/marcus/docsassistant/advisors/GuardRailAdvisor.java:238-244 | defaults: no client builder, the default criteria and failure text, order HIGHEST_PRECEDENCE + 2000 |
| `GuardRailAdvisor.Builder.SetChatClientBuilder` | src/main/java/org/vaadin/marcus/docsassistant/advisors/GuardRailAdvisor.java:246-249 | sets only the client builder and returns the same builder |
| `GuardRailAdvisor.Builder.SetAcceptanceCriteria` | src/main/java/org/vaadin/marcus/docsassistant/advisors/GuardRailAdvisor.java:251-254 | sets only the criteria and returns the same builder |
| `GuardRailAdvisor.Builder.SetFailureResponse` | src/main/java/org/vaadin/marcus/docsassistant/advisors/GuardRailAdvisor.java:256-259 | sets only the failure text and returns the same builder |
| `GuardRailAdvisor.Builder.SetOrder` | src/main/java/org/vaadin/marcus/docsassistant/advisors/GuardRailAdvisor.java:261-264 | sets only the order and returns the same builder |
| `GuardRailAdvisor.Builder.Build` | src/main/java/org/vaadin/marcus/docsassistant/advisors/GuardRailAdvisor.java:266-270 | a null client builder is rejected; otherwise the advisor is built from the fields, null criteria or failure text rejected |
| `GuardRailAdvisor.DefaultAdvisor` | src/main/java/org/vaadin/marcus/docsassistant/advisors/GuardRailAdvisor.java:237-270 | a builder given only a client builder yields the advisor with the default criteria, failure text and order |

## Left out

- The CL100K_BASE encoding (jtokkit) is not modelled. Token counts come from a parameter `tok: string -> nat` about which nothing is assumed.
- `TokenAccounting.GetTokenCount`, `ContextBudget.GetContextString`, `HistoryBudget.CapMessages`: Java's 32-bit `int` counters would wrap past 2^31 tokens; the model counts with unbounded naturals.
- HTTP plumbing: the `WebClient` setup, headers, the 45-second response timeout and the `init` methods. The request bodies of the moderation, embedding (`text-embedding-ada-002`), query and completion calls appear only as the call records the model returns.
- Reactor concurrency: `flatMap` runs the moderation requests concurrently and collects replies in arrival order. The model takes them in message order, and on several failures it reports the first in message order. Cancellation and back-pressure are not modelled.
- `OpenAIService.CompletionEndsIff`: an upstream error whose message is null would make `contains` throw a NullPointerException. It still ends in an error, but a different one; error messages are non-null strings in the model.
- Null lists and null list elements in API responses are not modelled. In the source each is a NullPointerException: a null `results` list or a null first result in a moderation response, a null `choices` list or a null first choice in a completion chunk, and a null `matches` list or a null match in a query response. Empty `results` and `choices` lists, a null `delta`, a null `metadata` map and a null "text" value are modelled.
- `JavaStrings.ToUpperCase`: the model maps ASCII letters only, as the root locale does for them. Java's `toUpperCase()` uses the default locale and the full Unicode case mapping. That mapping can change the length: 'ß' becomes "SS". Under a Turkish or Azeri default locale, "assistant" becomes "ASSİSTANT", which `valueOf` rejects.
- `ChatCompletionMessages.RoleName`: the round trip from `toString` back through `fromString` holds in Java only when the default locale upper-cases 'i' to 'I'; under a tr or az locale it fails for ASSISTANT.
- `ChatCompletionMessages.FromStringAcceptsIff`: upper-casing is modelled for ASCII letters only. Java also maps a few non-ASCII letters onto ASCII (for example 'ſ' to 'S'), so Java accepts some strings the model rejects. Under a tr or az default locale, Java also rejects some strings the model accepts (any name containing an 'i').
- The no-argument `ChatCompletionMessage` constructor (used by JSON deserialization, which leaves both fields null) and the message's `toString` (used only in logging).
- `getSupportedFrameworks`, `GuardRailAdvisor.getName` and `getOrder`: plain getters. They are represented by the `SupportedFrameworks` constant and the `order` field.
- The guardrail prompt template, its rendering by `PromptTemplate`, temperature 0, and the conversion to `ReviewResponse`: the evaluator is an oracle given the criteria, the formatted history and the question. Spring AI's `MessageType` is assumed to print as its constant name.
- Logging everywhere.
- `PineconeVectorStore`, the alternative `DocsAssistantService` classes, configuration and endpoint classes, and the web front end are not part of this model.
