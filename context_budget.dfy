/** getContextString of DocsAssistantService: strict prefix packing of the retrieved
    snippets under the context ceiling. */
module ContextBudget {
  import opened TokenAccounting

  const MaxContextTokens: nat := 1536
  /** What follows every included snippet. */
  const Separator := "\n---\n"
  /** What the loop charges for the newline and the `---` separator. */
  const SeparatorTokens: nat := 2

  /** What one snippet adds to the running count. */
  function DocTokens(tok: Tokenizer, doc: string): nat {
    tok(doc) + SeparatorTokens
  }

  /** The running count after the given snippets. */
  function DocsTokens(tok: Tokenizer, docs: seq<string>): nat {
    if docs == [] then 0 else DocTokens(tok, docs[0]) + DocsTokens(tok, docs[1..])
  }

  /** The snippets, each followed by the separator. */
  function Render(docs: seq<string>): string {
    if docs == [] then "" else docs[0] + Separator + Render(docs[1..])
  }

  /** How many leading snippets fit in `budget` when none may be skipped. */
  function Packed(tok: Tokenizer, docs: seq<string>, budget: nat): (k: nat)
    ensures k <= |docs|
  {
    if docs == [] || DocTokens(tok, docs[0]) > budget then 0
    else 1 + Packed(tok, docs[1..], budget - DocTokens(tok, docs[0]))
  }

  /** The string getContextString returns. */
  function ContextString(tok: Tokenizer, docs: seq<string>): string {
    Render(docs[..Packed(tok, docs, MaxContextTokens)])
  }

  lemma {:induction false} DocsTokensAppend(tok: Tokenizer, a: seq<string>, b: seq<string>)
    ensures DocsTokens(tok, a + b) == DocsTokens(tok, a) + DocsTokens(tok, b)
  {
    if a == [] {
      assert a + b == b;
    } else {
      assert (a + b)[1..] == a[1..] + b;
      DocsTokensAppend(tok, a[1..], b);
    }
  }

  lemma {:induction false} RenderAppend(a: seq<string>, b: seq<string>)
    ensures Render(a + b) == Render(a) + Render(b)
  {
    if a == [] {
      assert a + b == b;
    } else {
      assert (a + b)[1..] == a[1..] + b;
      RenderAppend(a[1..], b);
    }
  }

  /** The packed prefix fits, and one more snippet would not. */
  lemma {:induction false} PackedIsMaximalFit(tok: Tokenizer, docs: seq<string>, budget: nat)
    ensures DocsTokens(tok, docs[..Packed(tok, docs, budget)]) <= budget
    ensures Packed(tok, docs, budget) < |docs| ==>
              DocsTokens(tok, docs[..Packed(tok, docs, budget) + 1]) > budget
  {
    var k := Packed(tok, docs, budget);
    if docs == [] {
    } else if DocTokens(tok, docs[0]) > budget {
      assert docs[..1] == [docs[0]];
    } else {
      var rest := budget - DocTokens(tok, docs[0]);
      PackedIsMaximalFit(tok, docs[1..], rest);
      assert docs[..k][1..] == docs[1..][..k - 1];
      if k < |docs| {
        assert docs[..k + 1][1..] == docs[1..][..k];
      }
    }
  }

  /** Conversely, a prefix that fits and cannot be extended is the packed one. */
  lemma {:induction false} PackedIsTheMaximalFit(tok: Tokenizer, docs: seq<string>, budget: nat, k: nat)
    requires k <= |docs|
    requires DocsTokens(tok, docs[..k]) <= budget
    requires k < |docs| ==> DocsTokens(tok, docs[..k + 1]) > budget
    ensures Packed(tok, docs, budget) == k
  {
    if k == 0 {
      if docs != [] {
        assert docs[..1] == [docs[0]];
      }
    } else {
      assert docs[..k][1..] == docs[1..][..k - 1];
      if k < |docs| {
        assert docs[..k + 1][1..] == docs[1..][..k];
      }
      PackedIsTheMaximalFit(tok, docs[1..], budget - DocTokens(tok, docs[0]), k - 1);
    }
  }

  /** Once a snippet is refused, nothing after it is looked at: appending more snippets,
      however small, leaves the context unchanged. */
  lemma {:induction false} PackedIgnoresLaterDocs(tok: Tokenizer, docs: seq<string>, later: seq<string>, budget: nat)
    requires Packed(tok, docs, budget) < |docs|
    ensures Packed(tok, docs + later, budget) == Packed(tok, docs, budget)
  {
    if DocTokens(tok, docs[0]) <= budget {
      assert (docs + later)[1..] == docs[1..] + later;
      PackedIgnoresLaterDocs(tok, docs[1..], later, budget - DocTokens(tok, docs[0]));
    }
  }

  /** getContextString's loop, with its early break. */
  method GetContextString(tok: Tokenizer, contextDocs: seq<string>) returns (s: string)
    ensures s == ContextString(tok, contextDocs)
    ensures contextDocs == [] ==> s == ""
  {
    var tokenCount := 0;
    s := "";
    var i := 0;
    while i < |contextDocs|
      invariant i <= |contextDocs|
      invariant tokenCount == DocsTokens(tok, contextDocs[..i]) <= MaxContextTokens
      invariant s == Render(contextDocs[..i])
    {
      assert contextDocs[..i + 1] == contextDocs[..i] + [contextDocs[i]];
      DocsTokensAppend(tok, contextDocs[..i], [contextDocs[i]]);
      tokenCount := tokenCount + tok(contextDocs[i]) + 2;
      if tokenCount > MaxContextTokens {
        break;
      }
      RenderAppend(contextDocs[..i], [contextDocs[i]]);
      s := s + contextDocs[i] + Separator;
      i := i + 1;
    }
    PackedIsTheMaximalFit(tok, contextDocs, MaxContextTokens, i);
  }

  /** The context is the rendering of a prefix that fits the ceiling and cannot grow. */
  lemma ContextStringIsMaximalPrefix(tok: Tokenizer, docs: seq<string>)
    ensures var k := Packed(tok, docs, MaxContextTokens);
            && ContextString(tok, docs) == Render(docs[..k])
            && DocsTokens(tok, docs[..k]) <= MaxContextTokens
            && (k < |docs| ==> DocsTokens(tok, docs[..k + 1]) > MaxContextTokens)
  {
    PackedIsMaximalFit(tok, docs, MaxContextTokens);
  }

  /** Snippets after the first one that overflows never reach the context. */
  lemma ContextStringIgnoresLaterDocs(tok: Tokenizer, docs: seq<string>, later: seq<string>)
    requires Packed(tok, docs, MaxContextTokens) < |docs|
    ensures ContextString(tok, docs + later) == ContextString(tok, docs)
  {
    var k := Packed(tok, docs, MaxContextTokens);
    PackedIgnoresLaterDocs(tok, docs, later, MaxContextTokens);
    assert (docs + later)[..k] == docs[..k];
  }
}
