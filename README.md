# Chat intake and contact hand-off of a law-firm site, in Dafny

The site's one piece of real logic is a chat-intake widget and the contact form that receives its summary. This project models that logic and proves properties of it.

- **Chat session** (`ai_consultant.dfy`, module `AIConsultant`). The widget keeps an ordered message log, the input line and the flags `isOpen`, `isLoading` and `isSummarizing`. `ChatSession` is a class whose methods update these fields in place.
  - A submit appends the user's trimmed message and an empty streaming placeholder.
  - Each streamed chunk is added to a running `fullResponse`, and the message with the placeholder's id is rewritten to show it.
  - At the end of the stream the placeholder stops streaming.
  - A transfer summarises the log and hands the summary on.
  - Each `await` splits a handler into steps (`BeginSubmit`, `OnChunk`, `FinishSubmit`; `BeginTransfer`, `CompleteTransfer`). `HandleSubmit` and `HandleTransfer` run those steps back to back.
- **Gateway adapter** (`gemini_service.dfy`, module `GeminiService`). This is the policy between the widget and the hosted model:
  - the missing-key short cuts;
  - role normalisation;
  - dropping empty chunks;
  - the apology chunk on failure;
  - the `Assistant:`/`User:` transcript;
  - the fallback strings that make `summarizeChat` total.

  The hosted model's behaviour is an input. `StreamReply` is the chunks it delivers plus whether it then fails. `SummaryReply` is an answer, whose text may be absent or empty, or a failure.
- **Contact form** (`contact_form.dfy`, module `ContactForm`). This is the five-field record, edited one field at a time by name, and the status cycle idle → submitting → success → idle. The `initialMessage` effect is how the hand-off arrives.
- **Page wiring** (`app.dfy`, module `App`). `handleTransferChat` stores the summary as `formMessage`, which the next render passes to the form as `initialMessage`.
- **Supporting modules.**
  - `types.dfy` (module `Types`) holds the message types of `types.ts`.
  - `text.dfy` (module `Text`) holds the JavaScript string built-ins the code relies on: `trim` with ECMAScript's whitespace set, `+=` accumulation and `join`. It also has a `split` used as the reference that reads joined transcripts back.

Ids from `Date.now()` become method parameters. The callers must pass a placeholder id that no message already carries, and a user id that differs from it. The API key is a parameter; an empty string stands for a missing key.

## Behaviour of the handlers worth knowing

- **No re-entry guards in the handlers.** `handleSubmit` checks only `isLoading` and the trimmed input (components/AIConsultant.tsx:38). `handleTransfer` checks only the log length (components/AIConsultant.tsx:83).
  - The transfer button is disabled while `isSummarizing` (components/AIConsultant.tsx:130).
  - The chat input is disabled only while `isLoading` (components/AIConsultant.tsx:189).
  - The send button is disabled while `isLoading` or while the trimmed input is empty (components/AIConsultant.tsx:193).
  - Neither is disabled while `isSummarizing`.
  - So nothing stops a submit while a summary is in progress. `ChatSession.BeginSubmit` accepts one, and `ChatSession.BeginTransfer` starts a transfer even while another is running.
- **A repeated hand-off is not applied.** The form's effect depends on `[initialMessage]`, so it runs only when the prop changes (components/ContactForm.tsx:18-22). Consider two transfers that hand over the same string, such as the fixed "Summary unavailable (API Key missing)". The second one does not overwrite a `message` field the user has edited in between. `App.Page.TransferChat` states this case explicitly.

## Model

| member | source | states |
|---|---|---|
| Text.IsSpace | components/AIConsultant.tsx:38 | the characters `trim()` strips: ECMAScript's WhiteSpace and LineTerminator characters; `IsSpaceIsTrimmedChars` states it as that list |
| Text.IsSpaceIsTrimmedChars | components/AIConsultant.tsx:38 | a character is stripped by `trim()` if and only if it is one of the 25 listed WhiteSpace and LineTerminator characters |
| Text.TrimStart | components/AIConsultant.tsx:38 | the front half of `trim()`: the result is a suffix of the input (what it drops is stated by `TrimStartDropsSpace`) |
| Text.TrimEnd | components/AIConsultant.tsx:38 | the back half of `trim()`: the result is a prefix of the input (what it drops is stated by `TrimEndDropsSpace`) |
| Text.Trim | components/AIConsultant.tsx:38 | `input.trim()` is never longer than the input |
| Text.TrimStartDropsSpace | components/AIConsultant.tsx:38 | what trimming drops at the front is all whitespace, and the kept text starts with a non-space |
| Text.TrimEndDropsSpace | components/AIConsultant.tsx:38 | what trimming drops at the back is all whitespace, and the kept text ends with a non-space |
| Text.TrimmedEnds | components/AIConsultant.tsx:43 | the user message's text has no whitespace at either end |
| Text.TrimEmptyIff | components/AIConsultant.tsx:38 | an input is empty after trimming exactly when it is all whitespace, in both directions |
| Text.TrimIdempotent | components/AIConsultant.tsx:43 | trimming the stored text again changes nothing |
| Text.Concat | components/AIConsultant.tsx:65 | the accumulation `fullResponse += chunk` builds, one chunk at a time at the end; its properties are `ConcatPrefixStep` and `ConcatAppend` |
| Text.ConcatPrefixStep | components/AIConsultant.tsx:65 | after one more chunk, the accumulation is the previous accumulation followed by that chunk |
| Text.ConcatAppend | components/AIConsultant.tsx:59-65 | the accumulation of two stretches of chunks is the first's accumulation followed by the second's |
| Text.Join | services/geminiService.ts:64 | `join('\n')`: the parts in order with the separator between neighbours and none at either end; `SplitJoin` proves `Split` is its inverse |
| Text.Split | services/geminiService.ts:64 | splitting always yields at least one piece |
| Text.SplitNoSeparator | services/geminiService.ts:64 | a line without a newline splits into itself alone |
| Text.SplitAtFirstSeparator | services/geminiService.ts:64 | splitting at the first newline yields the text before it, then the split of the rest |
| Text.SplitJoin | services/geminiService.ts:64 | parts with no newline, joined by `'\n'`, split back into exactly those parts (the inverse of `join`) |
| GeminiService.ApiRoleOf | services/geminiService.ts:42 | `model` stays `model`, anything else becomes `user`; its effect on a history is stated by `ApiHistoryPointwise` |
| GeminiService.ApiHistory | services/geminiService.ts:41-44 | the history sent to the hosted chat has one entry per message |
| GeminiService.ApiHistoryPointwise | services/geminiService.ts:41-44 | same order as the history; each text is kept; the role is `model` if and only if the entry's role is `model`, so `system` becomes `user` |
| GeminiService.IsForwarded | services/geminiService.ts:50 | the `if (chunk.text)` test: the text is present and not empty; `Forwarded` and its lemmas state what it keeps |
| GeminiService.ChunkText | services/geminiService.ts:50 | a chunk's text, an absent one read as empty; the reference `ForwardedConcat` measures the forwarded text against |
| GeminiService.ChunkTexts | services/geminiService.ts:49-50 | one text per delivered chunk, in order, with an absent text read as empty |
| GeminiService.Forwarded | services/geminiService.ts:49-53 | never more chunks than were delivered, and none of them empty |
| GeminiService.ForwardedAppend | services/geminiService.ts:49-53 | filtering respects arrival order: a later stretch is forwarded after an earlier one |
| GeminiService.ForwardedAll | services/geminiService.ts:49-53 | when every chunk has text, all are forwarded, unchanged and in order |
| GeminiService.ForwardedConcat | services/geminiService.ts:49-53 | dropping empty chunks loses no text: the forwarded chunks concatenate to everything delivered |
| GeminiService.ReplyChunks | services/geminiService.ts:29-57 | `onChunk` never receives an empty chunk; with no key it receives exactly the one error chunk |
| GeminiService.ReplyText | services/geminiService.ts:49-57 | with a key: the forwarded chunks come first, in order, and spell out everything delivered; after a failure exactly one apology chunk follows them, last |
| GeminiService.StreamChatResponse | services/geminiService.ts:24-58 | no request exactly when the key is missing; otherwise one request with the normalised history and the new message. The emitted chunks are the ones `ReplyChunks` describes; the loop invariant states this for each prefix of the stream |
| GeminiService.Speaker | services/geminiService.ts:64 | `Assistant` for role `model`, `User` for every other role; `ParseTranscriptLine` reads it back |
| GeminiService.TranscriptLine | services/geminiService.ts:64 | one entry rendered as its speaker, `: `, and its text; `ParseTranscriptLine` proves the line reads back as the entry |
| GeminiService.TranscriptLines | services/geminiService.ts:64 | one line per history entry, in order, each labelled with its speaker |
| GeminiService.Transcript | services/geminiService.ts:64 | the lines joined by `'\n'` in history order; `TranscriptReadBack` proves it splits back into one line per entry, each reading back as its entry |
| GeminiService.ParseTranscriptLine | services/geminiService.ts:64 | a transcript line reads back as its entry: `Assistant:` exactly for `model`, `User:` otherwise, with the whole text kept |
| GeminiService.TranscriptReadBack | services/geminiService.ts:64 | with newline-free texts, the transcript splits into exactly one line per entry, in history order, with no trailing separator; each line reads back as its entry |
| GeminiService.SummarizeChat | services/geminiService.ts:60-82 | the summary is never empty. With no key: the key-missing string and no request. Otherwise one prompt, the instructions followed by the transcript. The summary is then the answer's text when non-empty, "Could not generate summary." when it is absent or empty, and "Error generating summary." on failure |
| AIConsultant.ToHistory | components/AIConsultant.tsx:62 | the history has one entry per message |
| AIConsultant.ToHistoryPointwise | components/AIConsultant.tsx:62 | the history holds each message's (role, text) pair, in log order |
| AIConsultant.WithText | components/AIConsultant.tsx:66-70 | the per-chunk update keeps the log's length |
| AIConsultant.WithTextPointwise | components/AIConsultant.tsx:66-70 | the update is the element-wise map: the message with the id gets the new text, every other message is kept |
| AIConsultant.WithTextUnused | components/AIConsultant.tsx:66-70 | a log without the id is left unchanged |
| AIConsultant.WithTextOnlyLast | components/AIConsultant.tsx:66-70 | with unique ids, only the placeholder changes, and only its text |
| AIConsultant.WithStreamingCleared | components/AIConsultant.tsx:74-78 | the end-of-stream update keeps the log's length |
| AIConsultant.StreamingClearedPointwise | components/AIConsultant.tsx:74-78 | the update is the element-wise map: the message with the id stops streaming, every other message is kept |
| AIConsultant.StreamingClearedUnused | components/AIConsultant.tsx:74-78 | a log without the id is left unchanged |
| AIConsultant.StreamingClearedOnlyLast | components/AIConsultant.tsx:74-78 | with unique ids, only the placeholder's streaming flag flips; its text, the length and the order stay |
| AIConsultant.LogOnlyGrows | components/AIConsultant.tsx:46-78 | no update removes or reorders messages: appending, the chunk update and the end-of-stream update keep every message's id and role at its place, and the log never shrinks |
| AIConsultant.ChatSession.constructor | components/AIConsultant.tsx:11-21 | the log starts as exactly the welcome message (id `welcome`, role model, the fixed greeting, not streaming); closed, empty input, no flags set |
| AIConsultant.ChatSession.Open | components/AIConsultant.tsx:98 | opens the widget; nothing else changes |
| AIConsultant.ChatSession.Close | components/AIConsultant.tsx:141 | closes the widget; nothing else changes |
| AIConsultant.ChatSession.SetInput | components/AIConsultant.tsx:186 | typing replaces the input; nothing else changes |
| AIConsultant.ChatSession.BeginSubmit | components/AIConsultant.tsx:36-57 | while loading, or with blank input: nothing changes and nothing is sent. Otherwise: the log grows by the trimmed user message, then an empty streaming placeholder; the input clears; loading starts; the gateway gets the log as it was before this submit, plus the trimmed text |
| AIConsultant.ChatSession.StartReply | components/AIConsultant.tsx:40-57 | the state updates of an accepted submit, keeping the session invariant |
| AIConsultant.ChatSession.OnChunk | components/AIConsultant.tsx:64-71 | the accumulation grows by the chunk and the placeholder shows it; every other message, the order and the length stay |
| AIConsultant.ChatSession.ReceiveChunks | components/AIConsultant.tsx:59-72 | after the k-th chunk, the placeholder's text is chunks 1..k concatenated in order (empty for none); every other message stays |
| AIConsultant.ChatSession.FinishSubmit | components/AIConsultant.tsx:74-79 | only the placeholder's streaming flag flips off; its text, the log length and the order stay; loading ends |
| AIConsultant.ChatSession.AwaitReply | components/AIConsultant.tsx:59-79 | the adapter's emitted chunks, concatenated in order, become the placeholder's text and it stops streaming; every other message stays; loading ends; the gateway request carries the normalised history and the message unless the key is missing |
| AIConsultant.ChatSession.HandleSubmit | components/AIConsultant.tsx:36-80 | a rejected submit changes nothing and sends nothing. An accepted one: the log grows by exactly the trimmed user message and a finished reply. The reply's text is every emitted chunk concatenated in order. The gateway is asked once, with the earlier log normalised, unless the key is missing |
| AIConsultant.ChatSession.BeginTransfer | components/AIConsultant.tsx:82-86 | with at most one message nothing happens; otherwise summarising starts and the whole log goes out as ordered pairs; the log is untouched |
| AIConsultant.ChatSession.CompleteTransfer | components/AIConsultant.tsx:87-91 | the summary is handed on, the widget closes and summarising ends; the log is untouched |
| AIConsultant.ChatSession.HandleTransfer | components/AIConsultant.tsx:82-92 | with at most one message: a no-op, with no summary request and no hand-off. Otherwise the summary request is the one `SummarizeChat` makes for the whole log (none without a key), and exactly one non-empty summary is handed on. The widget closes and summarising ends; the log, the input and any in-flight reply are untouched |
| ContactForm.FormData.Set | components/ContactForm.tsx:24-27 | setting a field by name gives it the value and leaves the other four alone |
| ContactForm.SameFields | components/ContactForm.tsx:10-16 | a record is determined by its five fields |
| ContactForm.SetIsTheFieldUpdate | components/ContactForm.tsx:24-27 | any record with the field set and the others kept is `Set`'s result, so `Set` changes exactly one field |
| ContactForm.EmptyFormIff | components/ContactForm.tsx:35 | the reset record is exactly the one whose five fields are all `''` |
| ContactForm.WithInitialMessage | components/ContactForm.tsx:18-22 | a non-empty message replaces `message` with exactly that string; an empty one changes nothing; the other four fields stay |
| ContactForm.Form.constructor | components/ContactForm.tsx:8-22 | status idle, every field `''`, except that a non-empty initial message fills `message` |
| ContactForm.Form.ReceiveInitialMessage | components/ContactForm.tsx:18-22 | the effect runs only when the prop changes; when it runs, only `message` can change; status and timers are untouched |
| ContactForm.Form.HandleInputChange | components/ContactForm.tsx:24-27 | exactly the named field takes the value; the status stays |
| ContactForm.Form.HandleSubmit | components/ContactForm.tsx:29-32 | status becomes submitting and the completion timer is scheduled; the fields are untouched |
| ContactForm.Form.TimerFires | components/ContactForm.tsx:33-36 | status becomes success and all five fields are reset to `''` |
| ContactForm.Form.SendAnother | components/ContactForm.tsx:112 | from success back to idle, with the fields untouched |
| App.Page.constructor | App.tsx:12 | no hand-off yet; the chat holds only the welcome message; the form is idle and empty |
| App.Page.HandleTransferChat | App.tsx:29-32 | the summary becomes `formMessage` and reaches the form. Only if it differs from the previous one and is not empty does it replace `message`; the other fields and the status stay |
| App.Page.TransferChat | App.tsx:29-32 | with only the welcome message no summary is requested and nothing changes, on the page, in the chat or in the form. Otherwise the request is the one `SummarizeChat` makes for the whole log, and its never-empty summary becomes `formMessage`. The summary fills the form's `message` field unless it equals the previous hand-off. The chat log, input and in-flight reply, and the form's status and timers are untouched |

## Left out

- The hosted model's client is not modelled: `GoogleGenAI`, `chats.create`, `sendMessageStream`, `generateContent`, the system instruction, the model name and the temperature (services/geminiService.ts:1-22, 35-47, 72-75). It is a foreign network library. Its behaviour is the `StreamReply`/`SummaryReply` input.
- `process.env.API_KEY` is the `apiKey` parameter; an empty string stands for a missing key.
- `types.ts`'s optional `isStreaming` flag is the plain boolean `ChatMessage.streaming`. An absent flag reads as `false`, which is how the widget treats it.
- `Date.now()` ids are parameters. The model does not capture two submits in the same millisecond producing colliding ids; a precondition asks for fresh ids instead.
- Asynchronous interleaving and React's batching are not modelled:
  - each `await` is a step boundary;
  - the composed handlers run their steps with nothing in between;
  - the step methods can be called in any interleaving, and each keeps the session invariant.
- The 1500 ms `setTimeout` is a counted pending callback that `TimerFires` consumes. Time itself is not modelled.
- `disabled` attributes are not modelled as guards, because the code's handlers do not check them: the transfer button, the chat input, the send button and the form's submit button. The form is shown only outside the success panel, so `HandleInputChange` and `HandleSubmit` require a status other than success, and `SendAnother` requires success.
- The browser's checks that block a form submission before `handleSubmit` runs are not modelled: the `required` attributes and the `type="email"` check on the contact form.
- `handleInputChange` with a `name` outside the five controls is not modelled. It would add a new key to the record, but every caller is one of the five controls, so names are the `Field` type.
- Scrolling and focus effects (`scrollToBottom`, `inputRef.focus`, `scrollToSection`) are not modelled: they are DOM geometry and window events.
- `console.error` logging is not modelled.
- The presentational components and the JSX markup are not modelled: `Header`, `Hero`, `Services`, `Team`, `Footer`.
- GeminiService.TranscriptReadBack: stated only for texts with no newline. With newlines in a text, the joined transcript does not determine its lines.
- Text.Split: serves only as the reference that transcripts are read back against; the code itself never splits.
