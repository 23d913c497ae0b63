/** The conversation bookkeeping of `FlowboticsChatbotOptimized`: the
    history of role-tagged messages, the bounded window sent to the
    completion API, one synchronous or streamed turn, clearing, and the
    transcript written by `save_conversation`. The completion API is an
    oracle argument; the feedback (RLHF) subsystem is a ghost log. */
module Conversation {
  import opened Strings
  import opened Context
  import opened Prompt

  datatype Role = System | User | Assistant

  /** The role as the message dictionaries spell it. */
  function RoleName(r: Role): string {
    match r
    case System => "system"
    case User => "user"
    case Assistant => "assistant"
  }

  datatype Message = Message(role: Role, content: string)

  /** How many history entries go with each request. */
  const HistoryWindow: nat := 10

  /** The reply stored and returned when the synchronous call fails. */
  const Apology := "I apologize, but I encountered an error. Please try again."

  /** The single fragment emitted when the streaming call fails. */
  const StreamError := "I apologize, but I encountered an error."

  const SystemPrompt :=
    "You are a friendly AI assistant for Flowbotics, an AI automation agency. Talk like a real person having a conversation - no jargon, no corporate speak.\n"
    + "\n"
    + "Communication Style:\n"
    + "- Keep it casual and natural - like texting a knowledgeable friend\n"
    + "- Skip the fluff - get straight to the point\n"
    + "- Break things into bite-sized chunks\n"
    + "- Use simple words instead of tech talk (say \"chat system\" not \"conversational AI interface\")\n"
    + "- Match their energy - formal when they're formal, chill when they're chill\n"
    + "- If you don't know, just say so\n"
    + "\n"
    + "What We Do:\n"
    + "- AI Chatbots that actually help customers\n"
    + "- Automate boring business tasks\n"
    + "- Generate leads while you sleep\n"
    + "- Smart customer support systems\n"
    + "- Custom AI tools for your specific needs\n"
    + "\n"
    + "Pricing:\n"
    + "- Starter: $99/month - Good for small businesses, handles 500 chats\n"
    + "- Professional: $149/month - Unlimited chats, you get priority help\n"
    + "- Enterprise: Let's talk - Custom built for your needs\n"
    + "\n"
    + "Response Rules:\n"
    + "- Keep answers SHORT (2-4 sentences max when possible)\n"
    + "- No walls of text\n"
    + "- No technical mumbo jumbo\n"
    + "- No phrases like \"based on the context\" or \"according to information\"\n"
    + "- Just answer naturally, like you already know this stuff\n"
    + "\n"
    + "Think: helpful neighbor, not corporate robot."

  /** Python's `h[-n:]`: the last `n` entries, or all of them when there are
      fewer. Since `-0` is `0`, `h[-0:]` is the whole of `h`. */
  function RecentWindow(h: seq<Message>, n: nat): (w: seq<Message>)
    ensures n > 0 ==> |w| == Min(n, |h|)
    ensures n == 0 ==> w == h
    ensures h == h[..|h| - |w|] + w
  {
    if n == 0 || |h| <= n then h else h[|h| - n..]
  }

  /** The message list of one request: the system prompt, then the last
      entries of the history. */
  function ModelMessages(h: seq<Message>): (ms: seq<Message>)
    ensures |ms| == 1 + Min(HistoryWindow, |h|) && |ms| <= HistoryWindow + 1
    ensures ms[0] == Message(System, SystemPrompt)
    ensures h == h[..|h| - (|ms| - 1)] + ms[1..]
    ensures h != [] ==> ms[|ms| - 1] == h[|h| - 1]
  {
    [Message(System, SystemPrompt)] + RecentWindow(h, HistoryWindow)
  }

  /** What the synchronous completion call does: return a text or raise. */
  datatype Reply = Success(text: string) | Failure

  /** The completion API, as a function of the messages sent. */
  type Completion = seq<Message> -> Reply

  /** The streamed completion: the delta contents delivered, in order, and
      whether the stream then raised instead of finishing. */
  datatype StreamReply = StreamReply(deltas: seq<string>, failed: bool)

  type StreamCompletion = seq<Message> -> StreamReply

  /** The fragments `stream_chat` yields for a stream. */
  function Yielded(r: StreamReply): seq<string> {
    NonEmpty(r.deltas) + (if r.failed then [StreamError] else [])
  }

  /** The assistant content `stream_chat` stores for a stream. */
  function Streamed(r: StreamReply): string {
    if r.failed then StreamError else Concat(r.deltas)
  }

  /** What the caller of `stream_chat` sees agrees with what is stored:
      all fragments joined on success, the error fragment alone on failure
      (earlier fragments are not kept). No fragment is empty. */
  lemma YieldedMatchesStored(r: StreamReply)
    ensures forall i :: 0 <= i < |Yielded(r)| ==> Yielded(r)[i] != ""
    ensures !r.failed ==> Concat(Yielded(r)) == Streamed(r)
    ensures r.failed ==> Yielded(r) != [] && Yielded(r)[|Yielded(r)| - 1] == Streamed(r) == StreamError
  {
    if !r.failed {
      assert Yielded(r) == NonEmpty(r.deltas);
      ConcatNonEmpty(r.deltas);
    }
  }

  /** The try/for/except block of `stream_chat`: relay the non-empty
      deltas while accumulating them, or end with the error fragment. */
  method RelayStream(reply: StreamReply) returns (tokens: seq<string>, fullResponse: string)
    ensures tokens == Yielded(reply)
    ensures fullResponse == Streamed(reply)
  {
    fullResponse := "";
    tokens := [];
    var i := 0;
    while i < |reply.deltas|
      invariant i <= |reply.deltas|
      invariant tokens == NonEmpty(reply.deltas[..i])
      invariant fullResponse == Concat(tokens)
    {
      var delta := reply.deltas[i];
      assert reply.deltas[..i + 1][..i] == reply.deltas[..i];
      if delta != "" {
        ConcatAppend(tokens, [delta]);
        fullResponse := fullResponse + delta;
        tokens := tokens + [delta];
      }
      i := i + 1;
    }
    assert reply.deltas[..i] == reply.deltas;
    if reply.failed {
      fullResponse := StreamError;
      tokens := tokens + [StreamError];
    } else {
      ConcatNonEmpty(reply.deltas);
    }
  }

  /** One exchange as handed to the feedback subsystem. */
  datatype Interaction = Interaction(question: string, response: string, context: string)

  /** The role in capitals, as `role.upper()` spells it in the transcript. */
  function Label(r: Role): string {
    match r
    case System => "SYSTEM"
    case User => "USER"
    case Assistant => "ASSISTANT"
  }

  lemma LabelIsUpperRole(r: Role)
    ensures Label(r) == Upper(RoleName(r))
  {
  }

  /** One transcript block: the role label, the content, a blank line. */
  function Entry(m: Message): string {
    Label(m.role) + ":\n" + m.content + "\n\n"
  }

  /** The text `save_conversation` writes: every entry's block, in order. */
  function Transcript(h: seq<Message>): string {
    if h == [] then "" else Transcript(h[..|h| - 1]) + Entry(h[|h| - 1])
  }

  lemma {:induction false} TranscriptAppend(a: seq<Message>, b: seq<Message>)
    ensures Transcript(a + b) == Transcript(a) + Transcript(b)
    decreases |b|
  {
    if b == [] {
      assert a + b == a;
    } else {
      var b', last := b[..|b| - 1], b[|b| - 1];
      assert (a + b)[..|a + b| - 1] == a + b';
      assert (a + b)[|a + b| - 1] == last;
      TranscriptAppend(a, b');
      AppendAssoc(Transcript(a), Transcript(b'), Entry(last));
    }
  }

  /** The transcript covers the whole history, not just the window: the
      block of entry `i` follows the blocks of the entries before it. */
  lemma TranscriptHasEntry(h: seq<Message>, i: nat)
    requires i < |h|
    ensures InfixAt(Entry(h[i]), Transcript(h), |Transcript(h[..i])|)
  {
    assert h == h[..i] + [h[i]] + h[i + 1..];
    TranscriptAppend(h[..i] + [h[i]], h[i + 1..]);
    TranscriptAppend(h[..i], [h[i]]);
    assert Transcript([h[i]]) == Entry(h[i]);
    InfixInside(Entry(h[i]), Transcript(h[..i]), Entry(h[i]), Transcript(h[i + 1..]), 0);
  }

  /** A finished turn adds exactly its two blocks to the transcript. */
  lemma TurnExtendsTranscript(h: seq<Message>, prompt: string, answer: string)
    ensures Transcript(h + [Message(User, prompt), Message(Assistant, answer)])
         == Transcript(h) + Entry(Message(User, prompt)) + Entry(Message(Assistant, answer))
  {
    var u, r := Message(User, prompt), Message(Assistant, answer);
    TranscriptAppend(h, [u, r]);
    assert [u, r][..1] == [u];
    assert Transcript([u]) == Entry(u);
    assert Transcript([u, r]) == Entry(u) + Entry(r);
    AppendAssoc(Transcript(h), Entry(u), Entry(r));
  }

  /** The first request after the history is cleared carries the system
      prompt and the new user turn only. */
  lemma FirstRequestAfterClear(prompt: string)
    ensures ModelMessages([Message(User, prompt)]) == [Message(System, SystemPrompt), Message(User, prompt)]
  {
  }

  /** After a user turn is appended, the request ends with that turn and
      holds at most ten history entries. */
  lemma RequestEndsWithTurn(h: seq<Message>, prompt: string)
    ensures var ms := ModelMessages(h + [Message(User, prompt)]);
            ms[|ms| - 1] == Message(User, prompt) && 2 <= |ms| <= HistoryWindow + 1
  {
  }

  /** User and assistant entries alternate, a user entry first, and every
      user entry has its reply. */
  ghost predicate Alternating(h: seq<Message>) {
    |h| % 2 == 0 &&
    forall i :: 0 <= i < |h| ==> h[i].role == (if i % 2 == 0 then User else Assistant)
  }

  /** A finished turn keeps the history alternating. */
  lemma TurnKeepsAlternating(h: seq<Message>, prompt: string, answer: string)
    requires Alternating(h)
    ensures Alternating(h + [Message(User, prompt), Message(Assistant, answer)])
  {
  }

  class Chatbot {
    /** Whether exchanges are handed to the feedback subsystem. */
    const enableRlhf: bool
    /** `conversation_history`, oldest entry first. */
    var history: seq<Message>
    /** The exchanges handed to the feedback subsystem so far. */
    ghost var feedback: seq<Interaction>

    /** The history alternates user and assistant entries, starting with a
        user entry and ending with an assistant one. */
    ghost predicate Valid()
      reads this
    {
      Alternating(history)
    }

    constructor (apiKey: string, enableRlhf: bool)
      requires apiKey != ""
      ensures Valid()
      ensures this.enableRlhf == enableRlhf && history == [] && feedback == []
    {
      this.enableRlhf := enableRlhf;
      history := [];
      feedback := [];
    }

    /** The feedback entry for one finished exchange, when feedback is on. */
    function Relayed(question: string, response: string, context: string): seq<Interaction> {
      if enableRlhf then [Interaction(question, response, context)] else []
    }

    /** `chat`: store the prompt as a user turn, send the window, store and
        return the reply (the apology when the call fails). */
    method Chat(userMessage: string, useRag: bool, retrieve: Retriever, complete: Completion)
      returns (answer: string)
      modifies this
      ensures old(Valid()) ==> Valid()
      ensures var turn := BuildTurn(userMessage, useRag, retrieve);
              var reply := complete(ModelMessages(old(history) + [Message(User, turn.prompt)]));
              && (reply.Success? ==> answer == reply.text)
              && (reply.Failure? ==> answer == Apology)
              && history == old(history) + [Message(User, turn.prompt), Message(Assistant, answer)]
              && feedback == old(feedback) + Relayed(userMessage, answer, turn.context)
    {
      var turn := PrepareTurn(userMessage, useRag, retrieve);
      ghost var before := history;
      history := history + [Message(User, turn.prompt)];
      var messages := ModelMessages(history);
      var reply := complete(messages);
      match reply {
        case Success(text) => answer := text;
        case Failure => answer := Apology;
      }
      history := history + [Message(Assistant, answer)];
      assert history == before + [Message(User, turn.prompt), Message(Assistant, answer)];
      if Alternating(before) {
        TurnKeepsAlternating(before, turn.prompt, answer);
      }
      if enableRlhf {
        feedback := feedback + [Interaction(userMessage, answer, turn.context)];
      }
    }

    /** `stream_chat`: as `chat`, but the reply arrives in fragments; the
        fragments relayed to the caller are returned in order. */
    method StreamChat(userMessage: string, useRag: bool, retrieve: Retriever, stream: StreamCompletion)
      returns (tokens: seq<string>)
      modifies this
      ensures old(Valid()) ==> Valid()
      ensures var turn := BuildTurn(userMessage, useRag, retrieve);
              var reply := stream(ModelMessages(old(history) + [Message(User, turn.prompt)]));
              && tokens == Yielded(reply)
              && history == old(history) + [Message(User, turn.prompt), Message(Assistant, Streamed(reply))]
              && feedback == old(feedback) + Relayed(userMessage, Streamed(reply), turn.context)
    {
      var turn := PrepareTurn(userMessage, useRag, retrieve);
      ghost var before := history;
      history := history + [Message(User, turn.prompt)];
      var messages := ModelMessages(history);
      var reply := stream(messages);
      var fullResponse;
      tokens, fullResponse := RelayStream(reply);
      history := history + [Message(Assistant, fullResponse)];
      assert history == before + [Message(User, turn.prompt), Message(Assistant, fullResponse)];
      if Alternating(before) {
        TurnKeepsAlternating(before, turn.prompt, fullResponse);
      }
      if enableRlhf {
        feedback := feedback + [Interaction(userMessage, fullResponse, turn.context)];
      }
    }

    /** `clear_history`: drop every entry; the feedback already given stays. */
    method ClearHistory()
      modifies this
      ensures Valid()
      ensures history == [] && feedback == old(feedback)
    {
      history := [];
    }

    /** `save_conversation`: the file name and the text written to it, one
        block per history entry. */
    method SaveConversation(requested: string, timestamp: string) returns (fileName: string, contents: string)
      ensures requested != "" ==> fileName == requested
      ensures requested == "" ==> fileName == "conversation_" + timestamp + ".txt"
      ensures contents == Transcript(history)
    {
      fileName := if requested != "" then requested else "conversation_" + timestamp + ".txt";
      contents := "";
      var i := 0;
      while i < |history|
        invariant i <= |history|
        invariant contents == Transcript(history[..i])
      {
        var msg := history[i];
        assert history[..i + 1][..i] == history[..i];
        LabelIsUpperRole(msg.role);
        contents := contents + (Upper(RoleName(msg.role)) + ":\n" + msg.content + "\n\n");
        i := i + 1;
      }
      assert history[..i] == history;
    }
  }
}
