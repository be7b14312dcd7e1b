// The chat-intake widget (components/AIConsultant.tsx): one session's message
// log and flags, updated in place by the submit and transfer handlers. Each
// `await` in `handleSubmit` and `handleTransfer` splits the handler into
// steps; the composed handlers run the steps in order against a given gateway
// behaviour.

module AIConsultant {
  import opened Types
  import opened Text
  import GeminiService

  const WelcomeText: string :=
    "Welcome to Western Pacific Counsel. I'm your AI intake assistant. How can we assist you with your legal matters today?"

  /** The message every session starts with. */
  const Welcome: ChatMessage := ChatMessage("welcome", Model, WelcomeText, false)

  /** The arguments `handleSubmit` passes to the gateway adapter. */
  datatype ReplyRequest = ReplyRequest(history: seq<HistoryEntry>, message: string)

  /** No message of the log carries `id`. */
  predicate IdUnused(log: seq<ChatMessage>, id: string)
  {
    forall i :: 0 <= i < |log| ==> log[i].id != id
  }

  /** The last message's id belongs to it alone. */
  predicate LastIdUnique(log: seq<ChatMessage>)
  {
    |log| >= 1 && IdUnused(log[..|log| - 1], log[|log| - 1].id)
  }

  /** `messages.map(m => ({ role: m.role, text: m.text }))`: the log as the
      gateway sees it. */
  function ToHistory(log: seq<ChatMessage>): (h: seq<HistoryEntry>)
    ensures |h| == |log|
  {
    if log == [] then [] else [HistoryEntry(log[0].role, log[0].text)] + ToHistory(log[1..])
  }

  /** One (role, text) pair per message, in order. */
  lemma {:induction false} ToHistoryPointwise(log: seq<ChatMessage>)
    ensures forall i :: 0 <= i < |log| ==>
      ToHistory(log)[i].role == log[i].role && ToHistory(log)[i].text == log[i].text
  {
    if log != [] {
      ToHistoryPointwise(log[1..]);
    }
  }

  /** The update a streamed chunk makes: every message with the placeholder's
      id gets the accumulated text; all else, and the order, stay. */
  function WithText(log: seq<ChatMessage>, id: string, text: string): (r: seq<ChatMessage>)
    ensures |r| == |log|
  {
    if log == [] then []
    else
      var m := log[|log| - 1];
      WithText(log[..|log| - 1], id, text) + [if m.id == id then m.(text := text) else m]
  }

  /** `WithText` is the element-wise map `handleSubmit`'s chunk callback writes: a message with the
      id gets the new text, every other message is kept as it was. */
  lemma {:induction false} WithTextPointwise(log: seq<ChatMessage>, id: string, text: string)
    ensures forall i :: 0 <= i < |log| ==>
      WithText(log, id, text)[i] == (if log[i].id == id then log[i].(text := text) else log[i])
  {
    if log != [] {
      WithTextPointwise(log[..|log| - 1], id, text);
    }
  }

  /** A log without the id is left as it is. */
  lemma {:induction false} WithTextUnused(log: seq<ChatMessage>, id: string, text: string)
    requires IdUnused(log, id)
    ensures WithText(log, id, text) == log
  {
    if log != [] {
      WithTextUnused(log[..|log| - 1], id, text);
    }
  }

  /** With unique ids, updating by the last message's id changes only the last
      message, and only its text. */
  lemma WithTextOnlyLast(log: seq<ChatMessage>, text: string)
    requires LastIdUnique(log)
    ensures WithText(log, log[|log| - 1].id, text) == log[..|log| - 1] + [log[|log| - 1].(text := text)]
  {
    WithTextUnused(log[..|log| - 1], log[|log| - 1].id, text);
  }

  /** The update at the end of a stream: every message with the placeholder's
      id stops streaming; all else, and the order, stay. */
  function WithStreamingCleared(log: seq<ChatMessage>, id: string): (r: seq<ChatMessage>)
    ensures |r| == |log|
  {
    if log == [] then []
    else
      var m := log[|log| - 1];
      WithStreamingCleared(log[..|log| - 1], id) + [if m.id == id then m.(streaming := false) else m]
  }

  /** `WithStreamingCleared` is the element-wise map `handleSubmit`'s final update writes: a
      message with the id stops streaming, every other message is kept. */
  lemma {:induction false} StreamingClearedPointwise(log: seq<ChatMessage>, id: string)
    ensures forall i :: 0 <= i < |log| ==>
      WithStreamingCleared(log, id)[i] == (if log[i].id == id then log[i].(streaming := false) else log[i])
  {
    if log != [] {
      StreamingClearedPointwise(log[..|log| - 1], id);
    }
  }

  /** A log without the id is left as it is. */
  lemma {:induction false} StreamingClearedUnused(log: seq<ChatMessage>, id: string)
    requires IdUnused(log, id)
    ensures WithStreamingCleared(log, id) == log
  {
    if log != [] {
      StreamingClearedUnused(log[..|log| - 1], id);
    }
  }

  /** With unique ids, clearing by the last message's id changes only the
      last message, and only its streaming flag. */
  lemma StreamingClearedOnlyLast(log: seq<ChatMessage>)
    requires LastIdUnique(log)
    ensures WithStreamingCleared(log, log[|log| - 1].id) == log[..|log| - 1] + [log[|log| - 1].(streaming := false)]
  {
    StreamingClearedUnused(log[..|log| - 1], log[|log| - 1].id);
  }

  /** `after` keeps every message of `before` at its place, with the same id
      and role, and may add more at the end. */
  predicate KeepsOrder(before: seq<ChatMessage>, after: seq<ChatMessage>)
  {
    |before| <= |after| &&
    forall i :: 0 <= i < |before| ==> after[i].id == before[i].id && after[i].role == before[i].role
  }

  /** No update of the log removes or reorders messages: appending, the
      per-chunk text update and the end-of-stream update all keep every
      message, in order, and the log never gets shorter. */
  lemma LogOnlyGrows(log: seq<ChatMessage>, extra: seq<ChatMessage>, id: string, text: string)
    ensures KeepsOrder(log, log + extra)
    ensures KeepsOrder(log, WithText(log, id, text))
    ensures KeepsOrder(log, WithStreamingCleared(log, id))
  {
  }

  /** Replacing the last of two appended messages leaves the first; kept as
      a lemma so that `HandleSubmit` reasons about this step in isolation. */
  lemma ReplaceLastOfTwo(log: seq<ChatMessage>, first: ChatMessage, second: ChatMessage, replacement: ChatMessage)
    ensures var s := log + [first, second]; s[..|s| - 1] + [replacement] == log + [first, replacement]
  {
    var s := log + [first, second];
    assert s[..|s| - 1] == log + [first];
  }

  class ChatSession {
    var isOpen: bool
    var messages: seq<ChatMessage>
    var input: string
    var isLoading: bool
    var isSummarizing: bool
    // The locals of the `handleSubmit` call that is awaiting the gateway:
    // the placeholder's id and the reply accumulated so far.
    var pending: Option<string>
    var fullResponse: string

    /** The session invariant: a reply is in flight exactly while
        `isLoading`; its placeholder is then the last message, the only one
        with its id, holds the reply accumulated so far and is the only
        message that is streaming. */
    ghost predicate Valid()
      reads this
    {
      |messages| >= 1 &&
      (isLoading <==> pending.Some?) &&
      (pending.Some? ==>
        messages[|messages| - 1] == ChatMessage(pending.value, Model, fullResponse, true) &&
        LastIdUnique(messages)) &&
      (forall i :: 0 <= i < |messages| - 1 ==> !messages[i].streaming) &&
      (pending.None? ==> !messages[|messages| - 1].streaming)
    }

    /** The initial state: the log is the welcome message alone, the widget
        is closed, the input empty and no request in flight. */
    constructor ()
      ensures Valid()
      ensures messages == [Welcome] && input == "" && !isOpen && !isLoading && !isSummarizing
    {
      isOpen := false;
      messages := [Welcome];
      input := "";
      isLoading := false;
      isSummarizing := false;
      pending := None;
      fullResponse := "";
    }

    /** The floating button opens the widget. */
    method Open()
      requires Valid()
      modifies this
      ensures Valid() && isOpen
      ensures messages == old(messages) && input == old(input) && isLoading == old(isLoading)
      ensures isSummarizing == old(isSummarizing) && pending == old(pending) && fullResponse == old(fullResponse)
    {
      isOpen := true;
    }

    /** The header's close button closes the widget. */
    method Close()
      requires Valid()
      modifies this
      ensures Valid() && !isOpen
      ensures messages == old(messages) && input == old(input) && isLoading == old(isLoading)
      ensures isSummarizing == old(isSummarizing) && pending == old(pending) && fullResponse == old(fullResponse)
    {
      isOpen := false;
    }

    /** Typing replaces the input. */
    method SetInput(value: string)
      requires Valid()
      modifies this
      ensures Valid() && input == value
      ensures messages == old(messages) && isOpen == old(isOpen) && isLoading == old(isLoading)
      ensures isSummarizing == old(isSummarizing) && pending == old(pending) && fullResponse == old(fullResponse)
    {
      input := value;
    }

    /** The synchronous part of `handleSubmit`. A reply in flight or an input
        that is blank after trimming changes nothing and asks nothing of the
        gateway. Otherwise the log grows by the user's trimmed message and an
        empty streaming placeholder, the input clears, loading starts, and the
        gateway is asked with the log as it was before this submit. */
    method BeginSubmit(userId: string, modelId: string) returns (call: Option<ReplyRequest>)
      requires Valid()
      requires userId != modelId && IdUnused(messages, modelId)
      modifies this
      ensures Valid()
      ensures old(isLoading) || Trim(old(input)) == "" ==> call.None? && unchanged(this)
      ensures !old(isLoading) && Trim(old(input)) != "" ==>
        call == Some(ReplyRequest(ToHistory(old(messages)), Trim(old(input)))) &&
        messages == old(messages) + [ChatMessage(userId, User, Trim(old(input)), false),
                                     ChatMessage(modelId, Model, "", true)] &&
        input == "" && isLoading && pending == Some(modelId) && fullResponse == "" &&
        isOpen == old(isOpen) && isSummarizing == old(isSummarizing)
    {
      var text := Trim(input);
      if text == "" || isLoading {
        return None;
      }
      var history := ToHistory(messages);
      StartReply(userId, modelId, text);
      call := Some(ReplyRequest(history, text));
    }

    /** The state updates of an accepted submit: the user's message and an
        empty streaming placeholder join the log, the input clears and the
        reply is awaited under the placeholder's id. */
    method StartReply(userId: string, modelId: string, text: string)
      requires Valid() && !isLoading
      requires userId != modelId && IdUnused(messages, modelId)
      modifies this
      ensures Valid()
      ensures messages == old(messages) + [ChatMessage(userId, User, text, false),
                                           ChatMessage(modelId, Model, "", true)]
      ensures input == "" && isLoading && pending == Some(modelId) && fullResponse == ""
      ensures isOpen == old(isOpen) && isSummarizing == old(isSummarizing)
    {
      messages := messages + [ChatMessage(userId, User, text, false)];
      input := "";
      isLoading := true;
      messages := messages + [ChatMessage(modelId, Model, "", true)];
      pending := Some(modelId);
      fullResponse := "";
    }

    /** The `onChunk` callback: the chunk is added to the accumulated reply
        and the placeholder's text becomes that accumulation; every other
        message, the order and the length stay as they were. */
    method OnChunk(chunk: string)
      requires Valid() && pending.Some?
      modifies this
      ensures Valid()
      ensures pending == old(pending) && fullResponse == old(fullResponse) + chunk
      ensures messages == WithText(old(messages), pending.value, fullResponse)
      ensures messages == old(messages)[..|old(messages)| - 1] + [old(messages)[|old(messages)| - 1].(text := fullResponse)]
      ensures input == old(input) && isOpen == old(isOpen) && isLoading == old(isLoading)
      ensures isSummarizing == old(isSummarizing)
    {
      WithTextOnlyLast(messages, fullResponse + chunk);
      fullResponse := fullResponse + chunk;
      messages := WithText(messages, pending.value, fullResponse);
    }

    /** Every `onChunk` call of one stream, in order: the accumulated reply
        grows by the chunks' in-order concatenation and the placeholder
        shows it; every other message stays. */
    method ReceiveChunks(chunks: seq<string>)
      requires Valid() && pending.Some?
      modifies this
      ensures Valid()
      ensures pending == old(pending) && fullResponse == old(fullResponse) + Concat(chunks)
      ensures messages == old(messages)[..|old(messages)| - 1] + [old(messages)[|old(messages)| - 1].(text := fullResponse)]
      ensures input == old(input) && isOpen == old(isOpen) && isLoading == old(isLoading)
      ensures isSummarizing == old(isSummarizing)
    {
      ghost var earlier := messages[..|messages| - 1];
      ghost var placeholder := messages[|messages| - 1];
      var i := 0;
      while i < |chunks|
        invariant 0 <= i <= |chunks|
        invariant Valid() && pending == old(pending)
        invariant fullResponse == old(fullResponse) + Concat(chunks[..i])
        invariant messages == earlier + [placeholder.(text := fullResponse)]
        invariant input == old(input) && isOpen == old(isOpen) && isLoading == old(isLoading)
        invariant isSummarizing == old(isSummarizing)
      {
        ConcatPrefixStep(chunks, i);
        OnChunk(chunks[i]);
        i := i + 1;
      }
      assert chunks[..i] == chunks;
    }

    /** The step after the stream ends: the placeholder stops streaming with
        its text kept, every other message stays, and loading ends. */
    method FinishSubmit()
      requires Valid() && pending.Some?
      modifies this
      ensures Valid() && pending.None? && !isLoading
      ensures messages == WithStreamingCleared(old(messages), old(pending).value)
      ensures messages == old(messages)[..|old(messages)| - 1] + [old(messages)[|old(messages)| - 1].(streaming := false)]
      ensures input == old(input) && isOpen == old(isOpen) && isSummarizing == old(isSummarizing)
      ensures fullResponse == old(fullResponse)
    {
      StreamingClearedOnlyLast(messages);
      messages := WithStreamingCleared(messages, pending.value);
      isLoading := false;
      pending := None;
    }

    /** `handleSubmit` run to completion against the adapter and a given
        gateway behaviour. A rejected submit changes nothing and sends
        nothing. An accepted one grows the log by exactly two messages, the
        user's trimmed input and a finished reply whose text is the in-order
        concatenation of every chunk the adapter emitted (empty if none);
        the earlier messages stay, the input is cleared and loading is over.
        The gateway is contacted once, with the earlier log, unless the key
        is missing. */
    method HandleSubmit(userId: string, modelId: string, apiKey: string, reply: GeminiService.StreamReply)
      returns (sent: Option<GeminiService.ChatRequest>)
      requires Valid()
      requires userId != modelId && IdUnused(messages, modelId)
      modifies this
      ensures Valid()
      ensures old(isLoading) || Trim(old(input)) == "" ==> sent.None? && unchanged(this)
      ensures !old(isLoading) && Trim(old(input)) != "" ==>
        (sent.Some? <==> apiKey != "") &&
        (sent.Some? ==>
          sent.value == GeminiService.ChatRequest(GeminiService.ApiHistory(ToHistory(old(messages))), Trim(old(input)))) &&
        messages == old(messages) + [ChatMessage(userId, User, Trim(old(input)), false),
                                     ChatMessage(modelId, Model, Concat(GeminiService.ReplyChunks(apiKey, reply)), false)] &&
        input == "" && !isLoading && isOpen == old(isOpen) && isSummarizing == old(isSummarizing)
    {
      var call := BeginSubmit(userId, modelId);
      if call.None? {
        return None;
      }
      sent := AwaitReply(apiKey, call.value.history, call.value.message, reply);
      ReplaceLastOfTwo(old(messages), ChatMessage(userId, User, Trim(old(input)), false),
                       ChatMessage(modelId, Model, "", true),
                       ChatMessage(modelId, Model, Concat(GeminiService.ReplyChunks(apiKey, reply)), false));
    }

    /** Everything of `handleSubmit` from the gateway call on: the adapter
        streams its chunks into the placeholder, which then stops streaming
        and shows every emitted chunk concatenated in order; loading ends and
        every other message stays. */
    method AwaitReply(apiKey: string, history: seq<HistoryEntry>, message: string, reply: GeminiService.StreamReply)
      returns (sent: Option<GeminiService.ChatRequest>)
      requires Valid() && pending.Some? && fullResponse == ""
      modifies this
      ensures Valid() && !isLoading
      ensures sent.None? <==> apiKey == ""
      ensures sent.Some? ==> sent.value == GeminiService.ChatRequest(GeminiService.ApiHistory(history), message)
      ensures messages == old(messages)[..|old(messages)| - 1] +
        [old(messages)[|old(messages)| - 1].(text := Concat(GeminiService.ReplyChunks(apiKey, reply)), streaming := false)]
      ensures input == old(input) && isOpen == old(isOpen) && isSummarizing == old(isSummarizing)
    {
      ghost var earlier := messages[..|messages| - 1];
      ghost var placeholder := messages[|messages| - 1];
      var emitted;
      sent, emitted := GeminiService.StreamChatResponse(apiKey, history, message, reply);
      ReceiveChunks(emitted);
      assert fullResponse == Concat(emitted);
      ghost var streamed := messages;
      assert streamed == earlier + [placeholder.(text := Concat(emitted))];
      assert streamed[..|streamed| - 1] == earlier;
      FinishSubmit();
      assert messages == earlier + [placeholder.(text := Concat(emitted), streaming := false)];
    }

    /** The synchronous part of `handleTransfer`: with only the welcome
        message nothing happens; otherwise summarising starts and the whole
        log, as ordered pairs, goes to the summariser. The log is not touched. */
    method BeginTransfer() returns (history: Option<seq<HistoryEntry>>)
      requires Valid()
      modifies this
      ensures Valid() && messages == old(messages)
      ensures |old(messages)| <= 1 ==> history.None? && unchanged(this)
      ensures |old(messages)| > 1 ==>
        history == Some(ToHistory(messages)) && isSummarizing &&
        input == old(input) && isOpen == old(isOpen) && isLoading == old(isLoading) &&
        pending == old(pending) && fullResponse == old(fullResponse)
    {
      if |messages| <= 1 {
        return None;
      }
      isSummarizing := true;
      history := Some(ToHistory(messages));
    }

    /** The step after the summary arrives: the summary is handed off, the
        widget closes and summarising ends. The log is not touched. */
    method CompleteTransfer(summary: string) returns (handoff: string)
      requires Valid()
      modifies this
      ensures Valid() && handoff == summary && !isOpen && !isSummarizing
      ensures messages == old(messages) && input == old(input) && isLoading == old(isLoading)
      ensures pending == old(pending) && fullResponse == old(fullResponse)
    {
      handoff := summary;
      isOpen := false;
      isSummarizing := false;
    }

    /** `handleTransfer` run to completion against the adapter and a given
        gateway behaviour. With only the welcome message it is a no-op with no
        summary request and no hand-off. Otherwise it hands off exactly one
        summary, never empty, of the whole log, closes the widget and ends
        summarising; the log is never modified. */
    method HandleTransfer(apiKey: string, reply: GeminiService.SummaryReply)
      returns (request: Option<string>, handoff: Option<string>)
      requires Valid()
      modifies this
      ensures Valid() && messages == old(messages)
      ensures |old(messages)| <= 1 ==> request.None? && handoff.None? && unchanged(this)
      ensures |old(messages)| > 1 ==>
        var call := GeminiService.SummarizeChat(apiKey, ToHistory(old(messages)), reply);
        request == call.prompt && (request.None? <==> apiKey == "") &&
        handoff == Some(call.summary) && handoff.value != "" && !isOpen && !isSummarizing &&
        input == old(input) && isLoading == old(isLoading) && pending == old(pending) &&
        fullResponse == old(fullResponse)
    {
      var history := BeginTransfer();
      if history.None? {
        return None, None;
      }
      var call := GeminiService.SummarizeChat(apiKey, history.value, reply);
      request := call.prompt;
      var summary := CompleteTransfer(call.summary);
      handoff := Some(summary);
    }
  }
}
