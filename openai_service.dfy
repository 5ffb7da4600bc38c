/** OpenAIService: the moderation verdict over a message list and the completion-chunk
    shim, with the HTTP calls as oracle functions. */
module OpenAIService {
  import opened Results
  import opened JavaStrings
  import opened ChatCompletionMessages

  // ---- Moderation ----

  /** The body of POST /v1/moderations. */
  datatype ModerationRequest = ModerationRequest(input: string)
  datatype ModerationResult = ModerationResult(flagged: bool)
  datatype ModerationResponse = ModerationResponse(results: seq<ModerationResult>)

  /** sendModerationRequest, as seen from the caller. */
  type ModerationEndpoint = ModerationRequest -> Result<ModerationResponse>

  /** One request per message, carrying its content, in message order. */
  function ModerationRequests(messages: seq<Message>): (requests: seq<ModerationRequest>)
    ensures |requests| == |messages|
  {
    seq(|messages|, i requires 0 <= i < |messages| => ModerationRequest(messages[i].content))
  }

  /** flatMap + collectList: every response, or the first failure. */
  function Responses(requests: seq<ModerationRequest>, send: ModerationEndpoint): (r: Result<seq<ModerationResponse>>)
    ensures r.Ok? ==> |r.value| == |requests|
  {
    if requests == [] then Ok([])
    else match send(requests[0])
      case Err(e) => Err(e)
      case Ok(response) =>
        match Responses(requests[1..], send)
        case Err(e) => Err(e)
        case Ok(rest) => Ok([response] + rest)
  }

  /** Whether some response has its first result flagged. The search stops at the first
      flagged response and fails on an empty result list met before one. */
  function AnyFlagged(responses: seq<ModerationResponse>): Result<bool> {
    if responses == [] then Ok(false)
    else if responses[0].results == [] then Err(IndexOutOfBounds)
    else if responses[0].results[0].flagged then Ok(true)
    else AnyFlagged(responses[1..])
  }

  /** moderate: true when the content is safe. */
  function Moderate(messages: seq<Message>, send: ModerationEndpoint): Result<bool> {
    match Responses(ModerationRequests(messages), send)
    case Err(e) => Err(e)
    case Ok(responses) =>
      match AnyFlagged(responses)
      case Err(e) => Err(e)
      case Ok(flagged) => Ok(!flagged)
  }

  /** The response's first result is present and not flagged. */
  predicate Passes(response: ModerationResponse) {
    response.results != [] && !response.results[0].flagged
  }

  /** The response's first result is present and flagged. */
  predicate Flags(response: ModerationResponse) {
    response.results != [] && response.results[0].flagged
  }

  /** Response k flags its message, and every response before it passes. */
  predicate FirstFlagged(responses: seq<ModerationResponse>, k: nat)
    requires k < |responses|
  {
    Flags(responses[k]) && forall i | 0 <= i < k :: Passes(responses[i])
  }

  /** The moderation endpoint's answer for message i. */
  function Reply(messages: seq<Message>, send: ModerationEndpoint, i: nat): Result<ModerationResponse>
    requires i < |messages|
  {
    send(ModerationRequest(messages[i].content))
  }

  lemma {:induction false} ResponsesAreTheReplies(messages: seq<Message>, send: ModerationEndpoint)
    ensures var rs := Responses(ModerationRequests(messages), send);
            && (rs.Ok? <==> forall i | 0 <= i < |messages| :: Reply(messages, send, i).Ok?)
            && (rs.Ok? ==> |rs.value| == |messages|
                           && forall i | 0 <= i < |messages| :: Reply(messages, send, i) == Ok(rs.value[i]))
  {
    if messages != [] {
      var rest := messages[1..];
      ResponsesAreTheReplies(rest, send);
      var requests := ModerationRequests(messages);
      assert requests[0] == ModerationRequest(messages[0].content);
      assert requests[1..] == ModerationRequests(rest);
      assert forall i | 1 <= i < |messages| :: Reply(rest, send, i - 1) == Reply(messages, send, i);
      if forall i | 0 <= i < |messages| :: Reply(messages, send, i).Ok? {
        assert forall i | 0 <= i < |rest| :: Reply(rest, send, i) == Reply(messages, send, i + 1);
        assert Reply(messages, send, 0).Ok?;
      }
    }
  }

  lemma {:induction false} AnyFlaggedFalseIff(responses: seq<ModerationResponse>)
    ensures AnyFlagged(responses) == Ok(false) <==> forall i | 0 <= i < |responses| :: Passes(responses[i])
  {
    if responses != [] {
      AnyFlaggedFalseIff(responses[1..]);
      assert forall i | 1 <= i < |responses| :: responses[1..][i - 1] == responses[i];
    }
  }

  lemma {:induction false} AnyFlaggedTrueIff(responses: seq<ModerationResponse>)
    ensures AnyFlagged(responses) == Ok(true) <==> exists k | 0 <= k < |responses| :: FirstFlagged(responses, k)
  {
    if responses != [] {
      var tail := responses[1..];
      AnyFlaggedTrueIff(tail);
      assert forall i | 1 <= i < |responses| :: tail[i - 1] == responses[i];
      if AnyFlagged(responses) == Ok(true) {
        if Flags(responses[0]) {
          assert FirstFlagged(responses, 0);
        } else {
          var k :| 0 <= k < |tail| && FirstFlagged(tail, k);
          assert FirstFlagged(responses, k + 1);
        }
      } else if exists k | 0 <= k < |responses| :: FirstFlagged(responses, k) {
        var k :| 0 <= k < |responses| && FirstFlagged(responses, k);
        if k > 0 {
          assert FirstFlagged(tail, k - 1);
        }
      }
    }
  }

  /** A list is safe exactly when every message was answered and no message's first
      moderation result is flagged; in particular the empty list is safe. */
  lemma ModerateSafeIff(messages: seq<Message>, send: ModerationEndpoint)
    ensures Moderate(messages, send) == Ok(true)
            <==> forall i | 0 <= i < |messages| :: Reply(messages, send, i).Ok? && Passes(Reply(messages, send, i).value)
  {
    ResponsesAreTheReplies(messages, send);
    var rs := Responses(ModerationRequests(messages), send);
    if rs.Ok? {
      AnyFlaggedFalseIff(rs.value);
    }
  }

  /** A list is unsafe exactly when every message was answered and some message's first
      result is flagged, every earlier message passing. */
  lemma ModerateUnsafeIff(messages: seq<Message>, send: ModerationEndpoint)
    ensures Moderate(messages, send) == Ok(false)
            <==> && (forall i | 0 <= i < |messages| :: Reply(messages, send, i).Ok?)
                 && Responses(ModerationRequests(messages), send).Ok?
                 && exists k | 0 <= k < |messages| :: FirstFlagged(Responses(ModerationRequests(messages), send).value, k)
  {
    ResponsesAreTheReplies(messages, send);
    var rs := Responses(ModerationRequests(messages), send);
    if rs.Ok? {
      AnyFlaggedTrueIff(rs.value);
    }
  }

  // ---- Completion stream ----

  datatype Delta = Delta(content: Option<string>)
  datatype ChunkChoice = ChunkChoice(delta: Option<Delta>)
  /** One parsed server-sent event of the completion stream. */
  datatype ChunkResponse = ChunkResponse(choices: seq<ChunkChoice>)

  /** How the decoded upstream Flux ends: cleanly, or with an error and its message. */
  datatype ChunkEnd = Done | Errored(message: string)
  datatype ChunkStream = ChunkStream(chunks: seq<ChunkResponse>, end: ChunkEnd)

  /** The body of POST /v1/chat/completions. */
  datatype CompletionRequest = CompletionRequest(model: string, messages: seq<Message>, stream: bool)

  type CompletionEndpoint = CompletionRequest -> ChunkStream

  const CompletionModel := "gpt-3.5-turbo"
  /** Part of the message of the decoding error that the terminal `[DONE]` event causes. */
  const DoneMarker := "JsonToken.START_ARRAY"
  /** The double-newline fragment the stream drops. */
  const BlankFragment := "\n\n"

  function CompletionBody(messages: seq<Message>): CompletionRequest {
    CompletionRequest(CompletionModel, messages, true)
  }

  /** onErrorResume: the `[DONE]` decoding error becomes a clean end, others propagate. */
  function ResumeEnd(end: ChunkEnd): End {
    match end
    case Done => Completed
    case Errored(message) => if Contains(message, DoneMarker) then Completed else Failed(Upstream(message))
  }

  /** The content of the first choice's delta: an empty choice list or a null delta is an exception. */
  function ChunkContent(chunk: ChunkResponse): Result<Option<string>> {
    if chunk.choices == [] then Err(IndexOutOfBounds)
    else match chunk.choices[0].delta
      case None => Err(NullPointer)
      case Some(delta) => Ok(delta.content)
  }

  /** The filter's test: a non-null content other than exactly "\n\n". */
  predicate Kept(content: Option<string>) {
    content.Some? && content.value != BlankFragment
  }

  /** filter + map over the chunks; the first chunk the lambda cannot read fails the stream. */
  function FilterChunks(chunks: seq<ChunkResponse>, end: End): Stream<string> {
    if chunks == [] then Stream([], end)
    else match ChunkContent(chunks[0])
      case Err(e) => Stream([], Failed(e))
      case Ok(content) =>
        var rest := FilterChunks(chunks[1..], end);
        if Kept(content) then Stream([content.value] + rest.items, rest.end) else rest
  }

  /** generateCompletionStream */
  function GenerateCompletionStream(messages: seq<Message>, complete: CompletionEndpoint): Stream<string> {
    var upstream := complete(CompletionBody(messages));
    FilterChunks(upstream.chunks, ResumeEnd(upstream.end))
  }

  /** The contents of the chunks, as plain values. */
  function Contents(chunks: seq<ChunkResponse>): seq<Option<string>>
    requires forall i | 0 <= i < |chunks| :: ChunkContent(chunks[i]).Ok?
  {
    seq(|chunks|, i requires 0 <= i < |chunks| => ChunkContent(chunks[i]).value)
  }

  /** The reference filter over plain content values. */
  function KeptContents(contents: seq<Option<string>>): (r: seq<string>)
    ensures |r| <= |contents|
  {
    if contents == [] then []
    else if Kept(contents[0]) then [contents[0].value] + KeptContents(contents[1..])
    else KeptContents(contents[1..])
  }

  /** The filter keeps a fragment exactly when it occurs as a non-null content other than
      "\n\n"; so "" and "\n\n\n" are kept. */
  lemma {:induction false} KeptContentsMembers(contents: seq<Option<string>>, x: string)
    ensures x in KeptContents(contents) <==> Some(x) in contents && x != BlankFragment
  {
    if contents != [] {
      KeptContentsMembers(contents[1..], x);
      assert contents == [contents[0]] + contents[1..];
    }
  }

  /** The filter works element by element, so it preserves order across any split. */
  lemma {:induction false} KeptContentsAppend(a: seq<Option<string>>, b: seq<Option<string>>)
    ensures KeptContents(a + b) == KeptContents(a) + KeptContents(b)
  {
    if a == [] {
      assert a + b == b;
    } else {
      assert (a + b)[1..] == a[1..] + b;
      KeptContentsAppend(a[1..], b);
    }
  }

  /** Over readable chunks the output is the kept contents in upstream order, and the
      stream ends as the upstream ended, after the resume shim; in particular every
      fragment emitted before an absorbed `[DONE]` error is retained. */
  lemma {:induction false} FilterChunksOfReadable(chunks: seq<ChunkResponse>, end: End)
    requires forall i | 0 <= i < |chunks| :: ChunkContent(chunks[i]).Ok?
    ensures FilterChunks(chunks, end) == Stream(KeptContents(Contents(chunks)), end)
  {
    if chunks != [] {
      assert forall i | 1 <= i < |chunks| :: chunks[1..][i - 1] == chunks[i];
      FilterChunksOfReadable(chunks[1..], end);
      assert Contents(chunks) == [Contents(chunks)[0]] + Contents(chunks[1..]);
    }
  }

  /** A chunk the filter cannot read ends the stream with that error, after the fragments
      kept from the chunks before it. */
  lemma {:induction false} FilterChunksStopsAtUnreadable(chunks: seq<ChunkResponse>, end: End, k: nat)
    requires k < |chunks| && ChunkContent(chunks[k]).Err?
    requires forall i | 0 <= i < k :: ChunkContent(chunks[i]).Ok?
    ensures FilterChunks(chunks, end)
            == Stream(KeptContents(Contents(chunks[..k])), Failed(ChunkContent(chunks[k]).error))
  {
    if k > 0 {
      assert forall i | 0 <= i < k - 1 :: chunks[1..][i] == chunks[i + 1];
      FilterChunksStopsAtUnreadable(chunks[1..], end, k - 1);
      assert chunks[1..][..k - 1] == chunks[..k][1..];
      assert Contents(chunks[..k]) == [Contents(chunks[..k])[0]] + Contents(chunks[..k][1..]);
    }
  }

  /** The stream ends cleanly exactly when the upstream did or failed with the `[DONE]`
      decoding error; every other upstream error reaches the caller unchanged. */
  lemma CompletionEndsIff(messages: seq<Message>, complete: CompletionEndpoint)
    requires var up := complete(CompletionBody(messages));
             forall i | 0 <= i < |up.chunks| :: ChunkContent(up.chunks[i]).Ok?
    ensures var up := complete(CompletionBody(messages));
            var s := GenerateCompletionStream(messages, complete);
            && s.items == KeptContents(Contents(up.chunks))
            && (s.end == Completed <==> up.end.Done? || Contains(up.end.message, DoneMarker))
            && (s.end.Failed? ==> s.end.error == Upstream(up.end.message))
  {
    var up := complete(CompletionBody(messages));
    FilterChunksOfReadable(up.chunks, ResumeEnd(up.end));
  }
}
