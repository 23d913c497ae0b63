/** Prompt assembly shared by `chat` and `stream_chat`: the greeting
    fast path, the retrieval call, and the choice between the raw message
    and the retrieval-augmented instruction template. */
module Prompt {
  import opened Strings
  import opened Context

  /** The fixed greeting words; a message is a greeting only when its
      lower-cased, stripped text is exactly one of them. */
  const Greetings: seq<string> := ["hi", "hey", "hello", "hola", "yo", "sup", "wassup"]

  predicate IsGreeting(message: string) {
    Trim(Lower(message)) in Greetings
  }

  /** The pieces of the instruction template around the context and the question. */
  const Preamble := "Use this information to answer:\n\n"
  const QuestionTag := "\n\nQuestion: "
  const Closing := "\n\nAnswer naturally without mentioning the context."

  /** The retrieval-augmented prompt: the context and then the question,
      each verbatim at a fixed place, inside the instruction template. */
  function RagPrompt(context: string, question: string): (p: string)
    ensures InfixAt(context, p, |Preamble|)
    ensures InfixAt(question, p, |Preamble| + |context| + |QuestionTag|)
    ensures |p| > |context| + |question|
  {
    var p := Preamble + context + QuestionTag + question + Closing;
    assert p[|Preamble|..|Preamble| + |context|] == context;
    assert p == (Preamble + context + QuestionTag) + question + Closing;
    InfixInside(question, Preamble + context + QuestionTag, question, Closing, 0);
    p
  }

  /** What one turn sends and keeps: the prompt stored as the user turn,
      and the context and sources of the retrieval (empty when skipped). */
  datatype Turn = Turn(prompt: string, context: string, sources: seq<string>)

  /** The turn for a message, as both entry points build it. */
  function BuildTurn(message: string, useRag: bool, retrieve: Retriever): Turn {
    if useRag && !IsGreeting(message) then
      var block := FormatContext(retrieve(message, TopK));
      var prompt := if block.context != "" then RagPrompt(block.context, message) else message;
      Turn(prompt, block.context, block.sources)
    else
      Turn(message, "", [])
  }

  /** The prompt-building steps at the top of `chat` and `stream_chat`. */
  method PrepareTurn(message: string, useRag: bool, retrieve: Retriever) returns (turn: Turn)
    ensures turn == BuildTurn(message, useRag, retrieve)
  {
    var isGreeting := Trim(Lower(message)) in Greetings;
    var sources: seq<string> := [];
    var context := "";
    var prompt: string;
    if useRag && !isGreeting {
      context, sources := GetRelevantContext(message, TopK, retrieve);
      if context != "" {
        prompt := RagPrompt(context, message);
      } else {
        prompt := message;
      }
    } else {
      prompt := message;
    }
    turn := Turn(prompt, context, sources);
  }

  /** The prompt is the raw message exactly when the message is a greeting,
      retrieval is off, or retrieval yields an empty context. */
  lemma RawPromptIff(message: string, useRag: bool, retrieve: Retriever)
    ensures BuildTurn(message, useRag, retrieve).prompt == message
        <==> IsGreeting(message) || !useRag || FormatContext(retrieve(message, TopK)).context == ""
  {
  }

  /** A greeting never reaches the vector store, whatever `useRag` says. */
  lemma GreetingSkipsRetrieval(message: string, useRag: bool, retrieve: Retriever)
    requires IsGreeting(message)
    ensures BuildTurn(message, useRag, retrieve) == Turn(message, "", [])
  {
  }

  /** Whenever the raw message is sent, there is no context and no source. */
  lemma RawPromptHasNoSources(message: string, useRag: bool, retrieve: Retriever)
    requires BuildTurn(message, useRag, retrieve).prompt == message
    ensures BuildTurn(message, useRag, retrieve).context == ""
    ensures BuildTurn(message, useRag, retrieve).sources == []
  {
    RawPromptIff(message, useRag, retrieve);
  }

  /** The sources of a turn are exactly the sources of the passages behind its context. */
  lemma TurnSources(message: string, useRag: bool, retrieve: Retriever)
    requires useRag && !IsGreeting(message)
    ensures var t := BuildTurn(message, useRag, retrieve);
            var ps := Passages(retrieve(message, TopK));
            |t.sources| == |ps| && forall i :: 0 <= i < |ps| ==> t.sources[i] == ps[i].source
  {
  }

  /** A prompt other than the raw message is the template around the
      retrieved context. */
  lemma AugmentedPromptIsTemplate(message: string, useRag: bool, retrieve: Retriever)
    requires BuildTurn(message, useRag, retrieve).prompt != message
    ensures useRag && !IsGreeting(message)
    ensures var context := FormatContext(retrieve(message, TopK)).context;
            context != "" && BuildTurn(message, useRag, retrieve).prompt == RagPrompt(context, message)
  {
  }

  /** Each retrieved document occurs verbatim in the template built around its context. */
  lemma DocumentInTemplate(r: QueryResult, i: nat, question: string) returns (k: nat)
    requires i < |Passages(r)|
    ensures InfixAt(Passages(r)[i].document, RagPrompt(FormatContext(r).context, question), k)
  {
    var context := FormatContext(r).context;
    var d := PassageInContext(r, i);
    InfixTrans(Passages(r)[i].document, context, RagPrompt(context, question),
               d + |Tag(Passages(r)[i].source)|, |Preamble|);
    k := |Preamble| + d + |Tag(Passages(r)[i].source)|;
  }

  /** An augmented prompt holds every retrieved document and the question verbatim. */
  lemma AugmentedPromptContents(message: string, useRag: bool, retrieve: Retriever, i: nat)
    returns (k: nat, q: nat)
    requires BuildTurn(message, useRag, retrieve).prompt != message
    requires i < |Passages(retrieve(message, TopK))|
    ensures InfixAt(Passages(retrieve(message, TopK))[i].document, BuildTurn(message, useRag, retrieve).prompt, k)
    ensures InfixAt(message, BuildTurn(message, useRag, retrieve).prompt, q)
  {
    AugmentedPromptIsTemplate(message, useRag, retrieve);
    k := DocumentInTemplate(retrieve(message, TopK), i, message);
    q := |Preamble| + |FormatContext(retrieve(message, TopK)).context| + |QuestionTag|;
  }

  /** A non-empty message always yields a non-empty prompt. */
  lemma PromptNonEmpty(message: string, useRag: bool, retrieve: Retriever)
    requires message != ""
    ensures BuildTurn(message, useRag, retrieve).prompt != ""
  {
  }

  /** No greeting word is empty, starts or ends with whitespace, or has an
      upper-case letter. */
  lemma GreetingWordsPlain(g: string)
    requires g in Greetings
    ensures g != [] && !IsSpace(g[0]) && !IsSpace(g[|g| - 1])
    ensures Lower(g) == g
  {
  }

  /** A greeting word in any mix of case, with any whitespace around it, is
      a greeting. */
  lemma GreetingCaseAndSpace(g: string, m: string, pre: string, post: string)
    requires g in Greetings && Lower(m) == g
    requires forall i :: 0 <= i < |pre| ==> IsSpace(pre[i])
    requires forall i :: 0 <= i < |post| ==> IsSpace(post[i])
    ensures IsGreeting(pre + m + post)
  {
    GreetingWordsPlain(g);
    LowerAppend(pre + m, post);
    LowerAppend(pre, m);
    LowerSpaces(pre);
    LowerSpaces(post);
    assert Lower(pre + m + post) == pre + (g + post);
    TrimLeftSkips(pre, g + post);
    TrimRightSkips(g, post);
  }

  /** The greeting test strips surrounding whitespace ... */
  lemma GreetingStripped()
    ensures IsGreeting(" hello\n")
  {
    assert Lower(" hello\n") == " hello\n";
    assert Trim(" hello\n") == "hello" by {
      assert TrimLeft(" hello\n") == "hello\n";
    }
  }

  /** ... and folds case ... */
  lemma GreetingFolded()
    ensures IsGreeting("WASSUP")
  {
    assert Lower("WASSUP") == "wassup";
    assert Trim("wassup") == "wassup";
  }

  /** ... but is otherwise an exact match. */
  lemma GreetingExact()
    ensures !IsGreeting("hello there") && !IsGreeting("hii") && !IsGreeting("")
  {
    assert Lower("hello there") == "hello there";
    assert Trim("hello there") == "hello there";
    assert Lower("hii") == "hii";
    assert Trim("hii") == "hii";
  }
}
