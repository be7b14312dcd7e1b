// The gateway adapter (services/geminiService.ts): the policy that sits between
// the chat widget and the hosted generative-AI client. The hosted client
// itself is not modelled; what it answers is an input of each operation.

module GeminiService {
  import opened Types
  import opened Text

  /** The single chunk emitted when no API key is configured. */
  const MissingKeyChunk: string := "Error: API Key is missing. Please check your configuration."

  /** The chunk appended when the hosted client fails during a reply. */
  const ApologyChunk: string :=
    "\n\n(System: I apologize, but I am currently experiencing high traffic. Please try again or use the contact form.)"

  /** The three summaries `summarizeChat` falls back on. */
  const SummaryMissingKey: string := "Summary unavailable (API Key missing)"
  const SummaryEmpty: string := "Could not generate summary."
  const SummaryFailed: string := "Error generating summary."

  /** The instructions placed before the transcript in a summary request. */
  const SummaryInstructions: string :=
    "Please summarize the following conversation between a legal assistant AI and a potential client. \n" +
    "    Focus on the user's legal issue, location, and any specific details provided. \n" +
    "    Format it as a concise note for an attorney to review before contacting the client.\n" +
    "    \n" +
    "    Conversation:\n" +
    "    "

  // ---------------------------------------------------------------------------
  // Streaming replies

  /** The two roles the hosted chat API accepts in a history. */
  datatype ApiRole = ApiUser | ApiModel

  datatype ApiEntry = ApiEntry(role: ApiRole, text: string)

  /** What the adapter sends to the hosted chat: the normalised history and the new message. */
  datatype ChatRequest = ChatRequest(history: seq<ApiEntry>, message: string)

  /** One chunk of the hosted model's stream; its `text` may be absent. */
  datatype Chunk = Chunk(text: Option<string>)

  /** The hosted model's behaviour for one reply, seen from the adapter: the
      chunks it delivers in order, and whether it then fails. A failure before
      any chunk (while opening the chat or the stream) has no chunks. */
  datatype StreamReply = StreamReply(chunks: seq<Chunk>, failed: bool)

  function ApiRoleOf(r: Role): ApiRole
  {
    if r == Model then ApiModel else ApiUser
  }

  /** The history as the hosted chat receives it. */
  function ApiHistory(h: seq<HistoryEntry>): (r: seq<ApiEntry>)
    ensures |r| == |h|
  {
    if h == [] then [] else [ApiEntry(ApiRoleOf(h[0].role), h[0].text)] + ApiHistory(h[1..])
  }

  /** One entry per message, in order, with the same text; `model` stays
      `model` and every other role (`system` included) becomes `user`. */
  lemma {:induction false} ApiHistoryPointwise(h: seq<HistoryEntry>)
    ensures forall i :: 0 <= i < |h| ==>
      ApiHistory(h)[i].text == h[i].text && (ApiHistory(h)[i].role == ApiModel <==> h[i].role == Model)
  {
    if h != [] {
      ApiHistoryPointwise(h[1..]);
    }
  }

  /** A chunk is passed on only when its text is present and non-empty. */
  predicate IsForwarded(c: Chunk)
  {
    c.text.Some? && c.text.value != ""
  }

  /** The text a chunk carries, an absent text read as empty. */
  function ChunkText(c: Chunk): string
  {
    if c.text.Some? then c.text.value else ""
  }

  function ChunkTexts(cs: seq<Chunk>): (r: seq<string>)
    ensures |r| == |cs|
    ensures forall i :: 0 <= i < |cs| ==> r[i] == ChunkText(cs[i])
  {
    if cs == [] then [] else ChunkTexts(cs[..|cs| - 1]) + [ChunkText(cs[|cs| - 1])]
  }

  /** The texts of the forwarded chunks, in arrival order. */
  function Forwarded(cs: seq<Chunk>): (r: seq<string>)
    ensures |r| <= |cs|
    ensures forall i :: 0 <= i < |r| ==> r[i] != ""
  {
    if cs == [] then []
    else
      var last := cs[|cs| - 1];
      Forwarded(cs[..|cs| - 1]) + (if IsForwarded(last) then [last.text.value] else [])
  }

  /** Filtering respects arrival order: the chunks of a later stretch of the
      stream are forwarded after those of an earlier one. */
  lemma {:induction false} ForwardedAppend(a: seq<Chunk>, b: seq<Chunk>)
    ensures Forwarded(a + b) == Forwarded(a) + Forwarded(b)
    decreases |b|
  {
    if b == [] {
      assert a + b == a;
    } else {
      var b' := b[..|b| - 1];
      assert (a + b)[..|a + b| - 1] == a + b';
      ForwardedAppend(a, b');
    }
  }

  /** When every chunk has text, every chunk is forwarded, unchanged and in order. */
  lemma {:induction false} ForwardedAll(cs: seq<Chunk>)
    requires forall i :: 0 <= i < |cs| ==> IsForwarded(cs[i])
    ensures Forwarded(cs) == ChunkTexts(cs)
  {
    if cs != [] {
      ForwardedAll(cs[..|cs| - 1]);
    }
  }

  /** Dropping the empty chunks loses no text: the forwarded chunks concatenate
      to the same string as all the chunks the hosted model delivered. */
  lemma {:induction false} ForwardedConcat(cs: seq<Chunk>)
    ensures Concat(Forwarded(cs)) == Concat(ChunkTexts(cs))
  {
    if cs != [] {
      var init, last := cs[..|cs| - 1], cs[|cs| - 1];
      var kept := if IsForwarded(last) then [last.text.value] else [];
      ForwardedConcat(init);
      ConcatAppend(Forwarded(init), kept);
      assert Concat(kept) == ChunkText(last) by {
        if kept != [] {
          assert kept[..0] == [];
        }
      }
      assert ChunkTexts(cs)[..|cs| - 1] == ChunkTexts(init);
    }
  }

  /** The chunks `streamChatResponse` hands to `onChunk` for a given key and
      hosted-model behaviour: never an empty one, and with no key exactly the
      fixed error chunk. */
  function ReplyChunks(apiKey: string, reply: StreamReply): (r: seq<string>)
    ensures forall i :: 0 <= i < |r| ==> r[i] != ""
    ensures apiKey == "" ==> r == [MissingKeyChunk]
  {
    if apiKey == "" then [MissingKeyChunk]
    else Forwarded(reply.chunks) + (if reply.failed then [ApologyChunk] else [])
  }

  /** With a key, the emitted chunks start with every forwarded chunk in
      arrival order and together spell out everything the hosted model
      delivered; after a failure the apology comes last, after that text. */
  lemma ReplyText(apiKey: string, reply: StreamReply)
    requires apiKey != ""
    ensures var r := ReplyChunks(apiKey, reply);
      |Forwarded(reply.chunks)| <= |r| && r[..|Forwarded(reply.chunks)|] == Forwarded(reply.chunks) &&
      (!reply.failed ==> Concat(r) == Concat(ChunkTexts(reply.chunks))) &&
      (reply.failed ==> r[|r| - 1] == ApologyChunk && Concat(r) == Concat(ChunkTexts(reply.chunks)) + ApologyChunk)
  {
    var tail := if reply.failed then [ApologyChunk] else [];
    ForwardedConcat(reply.chunks);
    ConcatAppend(Forwarded(reply.chunks), tail);
    assert tail != [] ==> tail[..0] == [];
  }

  /** `streamChatResponse`: with no key, one fixed error chunk and no request;
      otherwise one request carrying the normalised history and the new
      message, the non-empty chunks in arrival order, and the apology chunk
      after them if the hosted model fails. Nothing is thrown. */
  method StreamChatResponse(apiKey: string, history: seq<HistoryEntry>, newMessage: string, reply: StreamReply)
    returns (request: Option<ChatRequest>, emitted: seq<string>)
    ensures request.None? <==> apiKey == ""
    ensures request.Some? ==> request.value == ChatRequest(ApiHistory(history), newMessage)
    ensures emitted == ReplyChunks(apiKey, reply)
  {
    if apiKey == "" {
      return None, [MissingKeyChunk];
    }
    request := Some(ChatRequest(ApiHistory(history), newMessage));
    emitted := [];
    var i := 0;
    while i < |reply.chunks|
      invariant 0 <= i <= |reply.chunks|
      invariant emitted == Forwarded(reply.chunks[..i])
    {
      var chunk := reply.chunks[i];
      if chunk.text.Some? && chunk.text.value != "" {
        emitted := emitted + [chunk.text.value];
      }
      assert reply.chunks[..i + 1][..i] == reply.chunks[..i];
      i := i + 1;
    }
    assert reply.chunks[..i] == reply.chunks;
    if reply.failed {
      emitted := emitted + [ApologyChunk];
    }
  }

  // ---------------------------------------------------------------------------
  // Summaries

  /** The hosted model's behaviour for one summary request: an answer whose
      text may be absent or empty, or a failure. */
  datatype SummaryReply = Answered(text: Option<string>) | Failed

  /** What one `summarizeChat` call does: the prompt it sends, if any, and the
      summary it returns. */
  datatype SummaryCall = SummaryCall(prompt: Option<string>, summary: string)

  function Speaker(r: Role): string
  {
    if r == Model then "Assistant" else "User"
  }

  function TranscriptLine(e: HistoryEntry): string
  {
    Speaker(e.role) + ": " + e.text
  }

  function TranscriptLines(h: seq<HistoryEntry>): (lines: seq<string>)
    ensures |lines| == |h|
    ensures forall i :: 0 <= i < |h| ==> lines[i] == TranscriptLine(h[i])
  {
    if h == [] then [] else [TranscriptLine(h[0])] + TranscriptLines(h[1..])
  }

  /** The conversation as the summary prompt shows it: one line per entry, in
      order, joined by newlines. */
  function Transcript(h: seq<HistoryEntry>): string
  {
    Join(TranscriptLines(h), "\n")
  }

  /** Reads one transcript line back: the role it shows and the text after the label. */
  function ParseLine(line: string): Option<HistoryEntry>
  {
    if |line| >= 11 && line[..11] == "Assistant: " then Some(HistoryEntry(Model, line[11..]))
    else if |line| >= 6 && line[..6] == "User: " then Some(HistoryEntry(User, line[6..]))
    else None
  }

  /** The entry as the transcript can show it: `system` is shown as `User`. */
  function Shown(e: HistoryEntry): HistoryEntry
  {
    HistoryEntry(if e.role == Model then Model else User, e.text)
  }

  /** A transcript line keeps the whole text and tells the assistant from
      everyone else. */
  lemma ParseTranscriptLine(e: HistoryEntry)
    ensures ParseLine(TranscriptLine(e)) == Some(Shown(e))
  {
    var line := TranscriptLine(e);
    if e.role == Model {
      assert line[..11] == "Assistant: ";
      assert line[11..] == e.text;
    } else {
      assert line[..6] == "User: ";
      assert line[0] != 'A';
      assert line[6..] == e.text;
    }
  }

  /** When no message text holds a newline, the transcript splits back into
      exactly one line per entry, in history order, and each line reads back
      as its entry. */
  lemma TranscriptReadBack(h: seq<HistoryEntry>)
    requires |h| >= 1
    requires forall i :: 0 <= i < |h| ==> '\n' !in h[i].text
    ensures |Split(Transcript(h), '\n')| == |h|
    ensures forall i :: 0 <= i < |h| ==> ParseLine(Split(Transcript(h), '\n')[i]) == Some(Shown(h[i]))
  {
    var lines := TranscriptLines(h);
    forall i | 0 <= i < |lines|
      ensures '\n' !in lines[i]
    {
      assert '\n' !in Speaker(h[i].role) + ": ";
    }
    SplitJoin(lines, '\n');
    forall i | 0 <= i < |h|
      ensures ParseLine(Split(Transcript(h), '\n')[i]) == Some(Shown(h[i]))
    {
      ParseTranscriptLine(h[i]);
    }
  }

  /** `summarizeChat`: always some non-empty summary. With no key, the
      key-missing string and no request; otherwise one request whose prompt is
      the instructions followed by the transcript, and the answer's text when
      it has one, the "could not" string when it is absent or empty, the error
      string when the hosted model fails. */
  function SummarizeChat(apiKey: string, history: seq<HistoryEntry>, reply: SummaryReply): (r: SummaryCall)
    ensures r.summary != ""
    ensures r.prompt.None? <==> apiKey == ""
    ensures r.prompt.Some? ==> r.prompt.value == SummaryInstructions + Transcript(history)
    ensures apiKey == "" ==> r.summary == SummaryMissingKey
    ensures apiKey != "" && reply.Failed? ==> r.summary == SummaryFailed
    ensures apiKey != "" && reply.Answered? ==>
      r.summary == (if reply.text.Some? && reply.text.value != "" then reply.text.value else SummaryEmpty)
  {
    if apiKey == "" then SummaryCall(None, SummaryMissingKey)
    else
      var prompt := SummaryInstructions + Transcript(history);
      match reply
      case Failed => SummaryCall(Some(prompt), SummaryFailed)
      case Answered(text) =>
        SummaryCall(Some(prompt), if text.Some? && text.value != "" then text.value else SummaryEmpty)
  }
}
