/** Token accounting of DocsAssistantService (getTokenCount, getMessageTokenCount),
    following the OpenAI cookbook's chat-format rule. */
module TokenAccounting {
  import opened ChatCompletionMessages

  /** The number of tokens of a string under the CL100K_BASE encoding, which is not modelled. */
  type Tokenizer = string -> nat

  /** Every message is framed as <|start|>{role}\n{content}<|end|>\n. */
  const MessageOverhead: nat := 4
  /** Every reply is primed with <|start|>assistant<|message|>. */
  const ReplyPriming: nat := 3

  /** getMessageTokenCount */
  function MessageTokens(tok: Tokenizer, m: Message): nat {
    MessageOverhead + tok(RoleName(m.role)) + tok(m.content)
  }

  /** The message tokens of a list, without the reply priming. */
  function Cost(tok: Tokenizer, ms: seq<Message>): nat {
    if ms == [] then 0 else MessageTokens(tok, ms[0]) + Cost(tok, ms[1..])
  }

  /** getTokenCount: the priming once, plus every message. */
  function TokenCount(tok: Tokenizer, ms: seq<Message>): nat {
    ReplyPriming + Cost(tok, ms)
  }

  /** The role tokens and the content tokens of a list, summed separately. */
  function RoleTokens(tok: Tokenizer, ms: seq<Message>): nat {
    if ms == [] then 0 else tok(RoleName(ms[0].role)) + RoleTokens(tok, ms[1..])
  }

  function ContentTokens(tok: Tokenizer, ms: seq<Message>): nat {
    if ms == [] then 0 else tok(ms[0].content) + ContentTokens(tok, ms[1..])
  }

  /** The count is 3 + sum of (4 + role tokens + content tokens). */
  lemma {:induction false} TokenCountDecomposes(tok: Tokenizer, ms: seq<Message>)
    ensures TokenCount(tok, ms)
            == ReplyPriming + MessageOverhead * |ms| + RoleTokens(tok, ms) + ContentTokens(tok, ms)
  {
    if ms != [] {
      TokenCountDecomposes(tok, ms[1..]);
    }
  }

  /** Counting a concatenation adds the message tokens of its parts. */
  lemma {:induction false} CostAppend(tok: Tokenizer, a: seq<Message>, b: seq<Message>)
    ensures Cost(tok, a + b) == Cost(tok, a) + Cost(tok, b)
  {
    if a == [] {
      assert a + b == b;
    } else {
      assert (a + b)[1..] == a[1..] + b;
      CostAppend(tok, a[1..], b);
    }
  }

  /** Dropping the oldest messages saves at least the per-message overhead of each. */
  lemma {:induction false} CostOfSuffix(tok: Tokenizer, ms: seq<Message>, i: nat, j: nat)
    requires i <= j <= |ms|
    ensures Cost(tok, ms[j..]) + MessageOverhead * (j - i) <= Cost(tok, ms[i..])
    decreases j - i
  {
    if i < j {
      assert ms[i..][1..] == ms[i + 1..];
      CostOfSuffix(tok, ms, i + 1, j);
    }
  }

  /** getTokenCount's loop. */
  method GetTokenCount(tok: Tokenizer, messages: seq<Message>) returns (tokenCount: nat)
    ensures tokenCount == TokenCount(tok, messages)
  {
    tokenCount := ReplyPriming;
    for i := 0 to |messages|
      invariant tokenCount == ReplyPriming + Cost(tok, messages[..i])
    {
      assert messages[..i + 1] == messages[..i] + [messages[i]];
      CostAppend(tok, messages[..i], [messages[i]]);
      tokenCount := tokenCount + MessageTokens(tok, messages[i]);
    }
    assert messages[..|messages|] == messages;
  }
}
