// The page root (App.tsx) as far as the chat hand-off goes: the summary the
// chat widget hands over is kept as `formMessage` and passed to the contact
// form as its `initialMessage` prop on the next render.

module App {
  import opened Types
  import AIConsultant
  import GeminiService
  import ContactForm

  class Page {
    var formMessage: string
    const chat: AIConsultant.ChatSession
    const form: ContactForm.Form

    /** Both components are in a valid state and the form has been rendered
        with the current `formMessage`. */
    ghost predicate Valid()
      reads this, chat, form
    {
      chat.Valid() && form.Valid() && form.initialMessage == formMessage
    }

    /** The first render: no hand-off yet, a fresh chat session holding only
        the welcome message, and an idle, empty contact form. */
    constructor ()
      ensures Valid() && fresh(chat) && fresh(form)
      ensures formMessage == "" && chat.messages == [AIConsultant.Welcome]
      ensures form.status == ContactForm.Idle && form.formData == ContactForm.EmptyForm
    {
      formMessage := "";
      chat := new AIConsultant.ChatSession();
      form := new ContactForm.Form("");
    }

    /** `handleTransferChat` followed by the re-render it causes: the summary
        becomes `formMessage` and reaches the form as its prop. When it differs
        from the previous `formMessage` and is not empty it replaces the
        form's `message` field; the other four fields, the status and the chat
        are untouched. */
    method HandleTransferChat(summary: string)
      requires Valid()
      modifies this, form
      ensures Valid() && formMessage == summary
      ensures form.formData ==
        (if summary != old(formMessage) then ContactForm.WithInitialMessage(old(form.formData), summary)
         else old(form.formData))
      ensures form.status == old(form.status) && form.pendingTimers == old(form.pendingTimers)
    {
      formMessage := summary;
      form.ReceiveInitialMessage(summary);
    }

    /** The transfer button run to completion: `handleTransfer` in the chat
        widget, then the hand-off to the page. With only the welcome message
        nothing changes and no summary is requested. Otherwise the summary
        request carries the whole log (none without a key), and the summary,
        which is never empty, becomes `formMessage`; it fills the form's
        `message` field unless it equals the previous hand-off, in which case
        the form keeps what it has. The chat log, the chat's input and
        in-flight reply, and the form's status and timers are never touched. */
    method TransferChat(apiKey: string, reply: GeminiService.SummaryReply) returns (request: Option<string>)
      requires Valid()
      modifies this, chat, form
      ensures Valid() && chat.messages == old(chat.messages)
      ensures |old(chat.messages)| <= 1 ==> request.None? && unchanged(this, chat, form)
      ensures |old(chat.messages)| > 1 ==>
        var call := GeminiService.SummarizeChat(apiKey, AIConsultant.ToHistory(old(chat.messages)), reply);
        request == call.prompt &&
        formMessage == call.summary && !chat.isOpen && !chat.isSummarizing &&
        chat.input == old(chat.input) && chat.isLoading == old(chat.isLoading) &&
        chat.pending == old(chat.pending) && chat.fullResponse == old(chat.fullResponse) &&
        form.formData ==
          (if call.summary != old(formMessage) then old(form.formData).Set(ContactForm.Message, call.summary)
           else old(form.formData)) &&
        form.status == old(form.status) && form.pendingTimers == old(form.pendingTimers)
    {
      var handoff;
      request, handoff := chat.HandleTransfer(apiKey, reply);
      if handoff.Some? {
        HandleTransferChat(handoff.value);
      }
    }
  }
}
