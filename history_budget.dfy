/** capMessages of DocsAssistantService: oldest-first eviction of the conversation history
    until system messages and history fit the room left for the prompt. */
module HistoryBudget {
  import opened Results
  import opened ChatCompletionMessages
  import opened TokenAccounting

  const MaxTokens: nat := 4096
  const MaxResponseTokens: nat := 1024
  /** The room for the prompt once the reply is reserved: 3072. */
  const AvailableTokens: nat := MaxTokens - MaxResponseTokens

  const CannotCapMessage := "Cannot cap messages further, only user question left"

  /** The count the loop compares: each list is counted separately, so the priming twice. */
  function Tokens(tok: Tokenizer, system: seq<Message>, history: seq<Message>): nat {
    TokenCount(tok, system) + TokenCount(tok, history)
  }

  /** How many of the oldest messages the loop removes, starting with `j` removed already,
      or the exception it ends with. */
  function Evicted(tok: Tokenizer, system: seq<Message>, history: seq<Message>, j: nat): (r: Result<nat>)
    requires j <= |history|
    ensures r.Ok? ==> j <= r.value <= |history|
    decreases |history| - j
  {
    if Tokens(tok, system, history[j..]) <= AvailableTokens then Ok(j)
    else if |history| - j == 1 then Err(Runtime(CannotCapMessage))
    else if |history| - j == 0 then Err(IndexOutOfBounds)
    else Evicted(tok, system, history, j + 1)
  }

  /** The list capMessages returns, or its exception. */
  function Capped(tok: Tokenizer, system: seq<Message>, history: seq<Message>): Result<seq<Message>> {
    match Evicted(tok, system, history, 0)
    case Ok(k) => Ok(system + history[k..])
    case Err(e) => Err(e)
  }

  /** The total never grows as older messages are dropped. */
  lemma TokensOfSuffix(tok: Tokenizer, system: seq<Message>, history: seq<Message>, i: nat, j: nat)
    requires i <= j <= |history|
    ensures Tokens(tok, system, history[j..]) <= Tokens(tok, system, history[i..])
  {
    CostOfSuffix(tok, history, i, j);
  }

  /** What the eviction loop stops at, when it stops normally. */
  lemma {:induction false} EvictedFrom(tok: Tokenizer, system: seq<Message>, history: seq<Message>, j: nat, k: nat)
    requires j <= |history|
    requires Evicted(tok, system, history, j) == Ok(k)
    ensures j <= k <= |history|
    ensures j < |history| ==> k < |history|
    ensures Tokens(tok, system, history[k..]) <= AvailableTokens
    ensures forall i | j <= i < k :: Tokens(tok, system, history[i..]) > AvailableTokens
    decreases |history| - j
  {
    if Tokens(tok, system, history[j..]) > AvailableTokens {
      EvictedFrom(tok, system, history, j + 1, k);
    }
  }

  /** On success the history keeps a suffix that still ends with the user question, that
      fits, and that is the longest one that does: every longer suffix was over budget. */
  lemma CappedKeepsQuestion(tok: Tokenizer, system: seq<Message>, history: seq<Message>, k: nat)
    requires Evicted(tok, system, history, 0) == Ok(k)
    ensures k <= |history| && Capped(tok, system, history) == Ok(system + history[k..])
    ensures history != [] ==> history[k..] != [] && history[k..][|history[k..]| - 1] == history[|history| - 1]
    ensures Tokens(tok, system, history[k..]) <= AvailableTokens
    ensures forall i | 0 <= i < k :: Tokens(tok, system, history[i..]) > AvailableTokens
  {
    EvictedFrom(tok, system, history, 0, k);
  }

  /** Conversely, the longest fitting suffix that keeps the question is what the loop finds. */
  lemma {:induction false} EvictedIsLongestFit(tok: Tokenizer, system: seq<Message>, history: seq<Message>, j: nat, k: nat)
    requires j <= k <= |history|
    requires history != [] ==> k < |history|
    requires Tokens(tok, system, history[k..]) <= AvailableTokens
    requires forall i | j <= i < k :: Tokens(tok, system, history[i..]) > AvailableTokens
    ensures Evicted(tok, system, history, j) == Ok(k)
    decreases k - j
  {
    if j < k {
      EvictedIsLongestFit(tok, system, history, j + 1, k);
    }
  }

  /** The history comes back unchanged exactly when it already fits. */
  lemma CappedUnchangedIff(tok: Tokenizer, system: seq<Message>, history: seq<Message>)
    ensures Capped(tok, system, history) == Ok(system + history)
            <==> Tokens(tok, system, history) <= AvailableTokens
  {
    assert history[0..] == history;
    match Evicted(tok, system, history, 0)
    case Ok(k) =>
      EvictedFrom(tok, system, history, 0, k);
      if Capped(tok, system, history) == Ok(system + history) {
        assert history[k..] == (system + history[k..])[|system|..] == (system + history)[|system|..];
      }
    case Err(_) =>
  }

  /** "Cannot cap messages further" is thrown exactly when the question alone is still over
      budget; this includes a history that holds only the question. */
  lemma {:induction false} CannotCapIff(tok: Tokenizer, system: seq<Message>, history: seq<Message>)
    ensures Capped(tok, system, history) == Err(Runtime(CannotCapMessage))
            <==> history != [] && Tokens(tok, system, history[|history| - 1..]) > AvailableTokens
  {
    if history != [] {
      var last := |history| - 1;
      if Tokens(tok, system, history[last..]) > AvailableTokens {
        forall i | 0 <= i <= last
          ensures Tokens(tok, system, history[i..]) > AvailableTokens
        {
          TokensOfSuffix(tok, system, history, i, last);
        }
        CannotCapFrom(tok, system, history, 0);
      } else {
        match Evicted(tok, system, history, 0)
        case Ok(k) =>
          EvictedFrom(tok, system, history, 0, k);
        case Err(e) =>
          ErrorAtQuestion(tok, system, history, 0);
      }
    }
  }

  /** If every suffix is over budget, the loop reaches the question and throws. */
  lemma {:induction false} CannotCapFrom(tok: Tokenizer, system: seq<Message>, history: seq<Message>, j: nat)
    requires j < |history|
    requires forall i | j <= i < |history| :: Tokens(tok, system, history[i..]) > AvailableTokens
    ensures Evicted(tok, system, history, j) == Err(Runtime(CannotCapMessage))
    decreases |history| - j
  {
    if |history| - j > 1 {
      CannotCapFrom(tok, system, history, j + 1);
    }
  }

  /** When a non-empty history ends in an exception, the question alone was over budget. */
  lemma {:induction false} ErrorAtQuestion(tok: Tokenizer, system: seq<Message>, history: seq<Message>, j: nat)
    requires j < |history|
    requires Evicted(tok, system, history, j).Err?
    ensures Evicted(tok, system, history, j) == Err(Runtime(CannotCapMessage))
    ensures Tokens(tok, system, history[|history| - 1..]) > AvailableTokens
    decreases |history| - j
  {
    if |history| - j > 1 {
      ErrorAtQuestion(tok, system, history, j + 1);
    }
  }

  /** An empty history that does not fit makes `remove(0)` fail. */
  lemma EmptyHistoryOutOfBoundsIff(tok: Tokenizer, system: seq<Message>, history: seq<Message>)
    ensures Capped(tok, system, history) == Err(IndexOutOfBounds)
            <==> history == [] && Tokens(tok, system, []) > AvailableTokens
  {
    if history != [] {
      match Evicted(tok, system, history, 0)
      case Ok(k) =>
        EvictedFrom(tok, system, history, 0, k);
      case Err(e) =>
        ErrorAtQuestion(tok, system, history, 0);
    }
  }

  /** capMessages' loop over a copy of the history. */
  method CapMessages(tok: Tokenizer, systemMessages: seq<Message>, history: seq<Message>)
    returns (r: Result<seq<Message>>)
    ensures r == Capped(tok, systemMessages, history)
  {
    var availableTokens := MaxTokens - MaxResponseTokens;
    var cappedHistory := history;
    ghost var removed := 0;

    var systemTokens := GetTokenCount(tok, systemMessages);
    var historyTokens := GetTokenCount(tok, cappedHistory);
    var tokens := systemTokens + historyTokens;

    while tokens > availableTokens
      invariant removed <= |history| && cappedHistory == history[removed..]
      invariant tokens == Tokens(tok, systemMessages, cappedHistory)
      invariant Evicted(tok, systemMessages, history, removed) == Evicted(tok, systemMessages, history, 0)
      decreases |cappedHistory|
    {
      if |cappedHistory| == 1 {
        return Err(Runtime(CannotCapMessage));
      }
      if cappedHistory == [] {
        return Err(IndexOutOfBounds);
      }
      cappedHistory := cappedHistory[1..];
      removed := removed + 1;
      systemTokens := GetTokenCount(tok, systemMessages);
      historyTokens := GetTokenCount(tok, cappedHistory);
      tokens := systemTokens + historyTokens;
    }

    r := Ok(systemMessages + cappedHistory);
  }
}
