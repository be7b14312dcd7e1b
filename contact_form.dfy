// The contact form (components/ContactForm.tsx): a five-field record edited
// one field at a time, a status that cycles idle -> submitting -> success ->
// idle, and the `initialMessage` prop through which the chat hand-off arrives.
// The simulated submission's timer is a discrete step of its own.

module ContactForm {

  datatype Status = Idle | Submitting | Success

  /** The `name` attributes of the form's five controls. */
  datatype Field = FirstName | LastName | Email | CaseType | Message

  /** The `formData` record. */
  datatype FormData = FormData(firstName: string, lastName: string, email: string, caseType: string, message: string)
  {
    /** `formData[name]`. */
    function Get(f: Field): string
    {
      match f
      case FirstName => firstName
      case LastName => lastName
      case Email => email
      case CaseType => caseType
      case Message => message
    }

    /** `{ ...formData, [name]: value }`: the named field takes the value and
        the other four keep theirs. */
    function Set(f: Field, value: string): (r: FormData)
      ensures r.Get(f) == value
      ensures forall g :: g != f ==> r.Get(g) == Get(g)
    {
      match f
      case FirstName => this.(firstName := value)
      case LastName => this.(lastName := value)
      case Email => this.(email := value)
      case CaseType => this.(caseType := value)
      case Message => this.(message := value)
    }
  }

  /** Every field empty: the initial record and the one a completed
      submission leaves behind. */
  const EmptyForm: FormData := FormData("", "", "", "", "")

  /** A record is determined by what its five fields read. */
  lemma SameFields(a: FormData, b: FormData)
    requires forall f :: a.Get(f) == b.Get(f)
    ensures a == b
  {
    assert a.Get(FirstName) == b.Get(FirstName);
    assert a.Get(LastName) == b.Get(LastName);
    assert a.Get(Email) == b.Get(Email);
    assert a.Get(CaseType) == b.Get(CaseType);
    assert a.Get(Message) == b.Get(Message);
  }

  /** `Set` is the only update that gives the field the value and leaves
      the rest alone: any record that does so is `d.Set(f, value)`. */
  lemma SetIsTheFieldUpdate(d: FormData, f: Field, value: string, e: FormData)
    requires e.Get(f) == value
    requires forall g :: g != f ==> e.Get(g) == d.Get(g)
    ensures e == d.Set(f, value)
  {
    var r := d.Set(f, value);
    forall g
      ensures e.Get(g) == r.Get(g)
    {
      if g != f {
        assert r.Get(g) == d.Get(g);
      }
    }
    SameFields(e, r);
  }

  /** Every field of the empty record reads as the empty string, and no other
      record does so. */
  lemma EmptyFormIff(d: FormData)
    ensures d == EmptyForm <==> forall f :: d.Get(f) == ""
  {
    if forall f :: d.Get(f) == "" {
      forall f
        ensures d.Get(f) == EmptyForm.Get(f)
      {
        assert EmptyForm.Get(f) == "";
      }
      SameFields(d, EmptyForm);
    }
  }

  /** What the `initialMessage` effect does to the record when it runs: a
      non-empty message replaces the `message` field, an empty one changes
      nothing. */
  function WithInitialMessage(d: FormData, initialMessage: string): (r: FormData)
    ensures initialMessage != "" ==> r.Get(Message) == initialMessage
    ensures initialMessage == "" ==> r == d
    ensures forall g :: g != Message ==> r.Get(g) == d.Get(g)
  {
    if initialMessage != "" then d.Set(Message, initialMessage) else d
  }

  class Form {
    var status: Status
    var formData: FormData
    // The `initialMessage` prop of the latest render, against which the
    // effect's dependency list is compared.
    var initialMessage: string
    // Timer callbacks scheduled by `handleSubmit` that have not yet fired.
    var pendingTimers: nat

    /** While a submission is in progress its timer is still to fire. */
    ghost predicate Valid()
      reads this
    {
      status == Submitting ==> pendingTimers > 0
    }

    /** The first render and its effect: status idle, every field empty,
        except that a non-empty initial message fills `message`. */
    constructor (initialMessage: string)
      ensures Valid()
      ensures status == Idle && pendingTimers == 0 && this.initialMessage == initialMessage
      ensures formData == WithInitialMessage(EmptyForm, initialMessage)
    {
      status := Idle;
      formData := EmptyForm;
      this.initialMessage := initialMessage;
      pendingTimers := 0;
      new;
      formData := WithInitialMessage(formData, initialMessage);
    }

    /** A re-render with the prop `m`. The effect runs only when `m` differs
        from the prop of the previous render; when it runs, a non-empty `m`
        replaces `message` and leaves the other four fields alone. */
    method ReceiveInitialMessage(m: string)
      requires Valid()
      modifies this
      ensures Valid() && initialMessage == m
      ensures formData == (if m != old(initialMessage) then WithInitialMessage(old(formData), m) else old(formData))
      ensures status == old(status) && pendingTimers == old(pendingTimers)
    {
      if m != initialMessage {
        formData := WithInitialMessage(formData, m);
      }
      initialMessage := m;
    }

    /** `handleInputChange`: exactly the named field takes the value. The
        controls exist only while the form is shown, that is, outside the
        success panel. */
    method HandleInputChange(name: Field, value: string)
      requires Valid() && status != Success
      modifies this
      ensures Valid() && formData == old(formData).Set(name, value)
      ensures status == old(status) && pendingTimers == old(pendingTimers) && initialMessage == old(initialMessage)
    {
      formData := formData.Set(name, value);
    }

    /** `handleSubmit`: the status becomes submitting and the completion timer
        is scheduled; the fields are not yet touched. */
    method HandleSubmit()
      requires Valid() && status != Success
      modifies this
      ensures Valid() && status == Submitting && pendingTimers == old(pendingTimers) + 1
      ensures formData == old(formData) && initialMessage == old(initialMessage)
    {
      status := Submitting;
      pendingTimers := pendingTimers + 1;
    }

    /** The timer callback: the status becomes success and every field is
        reset to the empty string. */
    method TimerFires()
      requires Valid() && pendingTimers > 0
      modifies this
      ensures Valid() && status == Success && formData == EmptyForm
      ensures pendingTimers == old(pendingTimers) - 1 && initialMessage == old(initialMessage)
    {
      status := Success;
      formData := EmptyForm;
      pendingTimers := pendingTimers - 1;
    }

    /** "Send another message", shown only on the success panel: back to idle
        with the fields untouched. */
    method SendAnother()
      requires Valid() && status == Success
      modifies this
      ensures Valid() && status == Idle && formData == old(formData)
      ensures pendingTimers == old(pendingTimers) && initialMessage == old(initialMessage)
    {
      status := Idle;
    }
  }
}
