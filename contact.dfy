/**
 * The contact form: idle, then submitting, then a success banner with the
 * fields cleared, then idle again, driven by two fixed-delay timers.
 */
module Contact {

  datatype ContactField = Name | Email | Phone | Subject | Message

  datatype FormData = FormData(name: string, email: string, phone: string, subject: string, message: string)
  {
    function Get(f: ContactField): string
    {
      match f
      case Name => name
      case Email => email
      case Phone => phone
      case Subject => subject
      case Message => message
    }

    /** `{...formData, [name]: value}`: no other field changes. */
    function With(f: ContactField, value: string): (d: FormData)
      ensures d.Get(f) == value
      ensures forall g :: g != f ==> d.Get(g) == Get(g)
    {
      match f
      case Name => this.(name := value)
      case Email => this.(email := value)
      case Phone => this.(phone := value)
      case Subject => this.(subject := value)
      case Message => this.(message := value)
    }
  }

  const EmptyForm := FormData("", "", "", "", "")

  lemma EmptyFormIsBlank()
    ensures forall f :: EmptyForm.Get(f) == ""
  {
    forall f ensures EmptyForm.Get(f) == "" {
      match f
      case Name =>
      case Email =>
      case Phone =>
      case Subject =>
      case Message =>
    }
  }

  class ContactPage {
    var formData: FormData
    var isSubmitting: bool
    var isSuccess: bool
    /** The 1500 ms "send" callbacks scheduled by `handleSubmit` and not yet run. */
    var pendingSendTimers: nat
    /** The 5000 ms callbacks, each scheduled by a send callback, that hide the banner. */
    var pendingDismissTimers: nat

    /**
     * At most one send is outstanding, and exactly while `isSubmitting` holds
     * (the button is disabled meanwhile); a shown success banner always has a
     * callback scheduled that will hide it.
     */
    ghost predicate Valid()
      reads this
    {
      && pendingSendTimers == (if isSubmitting then 1 else 0)
      && (isSuccess ==> pendingDismissTimers > 0)
    }

    constructor ()
      ensures Valid()
      ensures formData == EmptyForm && !isSubmitting && !isSuccess
      ensures pendingSendTimers == 0 && pendingDismissTimers == 0
    {
      formData := EmptyForm;
      isSubmitting := false;
      isSuccess := false;
      pendingSendTimers := 0;
      pendingDismissTimers := 0;
    }

    /** The Send Message button is disabled while a submission runs. */
    predicate SubmitEnabled()
      reads this
    {
      !isSubmitting
    }

    /** `handleChange`: only the named field changes. The inputs stay enabled throughout. */
    method HandleChange(f: ContactField, value: string)
      requires Valid()
      modifies this`formData
      ensures Valid() && formData == old(formData).With(f, value)
    {
      formData := formData.With(f, value);
    }

    /** `handleSubmit`: marks the form as submitting and schedules the send callback. */
    method HandleSubmit()
      requires Valid() && SubmitEnabled()
      modifies this`isSubmitting, this`pendingSendTimers
      ensures Valid() && isSubmitting && pendingSendTimers == old(pendingSendTimers) + 1
    {
      isSubmitting := true;
      pendingSendTimers := pendingSendTimers + 1;
    }

    /**
     * The first timer fires: submitting ends, the banner is shown, all five
     * fields are cleared, and the dismiss callback is scheduled.
     */
    method SendTimerFires()
      requires Valid() && pendingSendTimers > 0
      modifies this`isSubmitting, this`isSuccess, this`formData, this`pendingSendTimers, this`pendingDismissTimers
      ensures Valid()
      ensures !isSubmitting && isSuccess && formData == EmptyForm
      ensures pendingSendTimers == old(pendingSendTimers) - 1
      ensures pendingDismissTimers == old(pendingDismissTimers) + 1
    {
      isSubmitting := false;
      isSuccess := true;
      formData := EmptyForm;
      pendingSendTimers := pendingSendTimers - 1;
      pendingDismissTimers := pendingDismissTimers + 1;
    }

    /** The second, later timer fires: the banner is hidden; the fields are left as they are. */
    method DismissTimerFires()
      requires Valid() && pendingDismissTimers > 0
      modifies this`isSuccess, this`pendingDismissTimers
      ensures Valid() && !isSuccess
      ensures pendingDismissTimers == old(pendingDismissTimers) - 1
    {
      isSuccess := false;
      pendingDismissTimers := pendingDismissTimers - 1;
    }
  }

  /** One message: typed, sent, confirmed with the fields cleared, and the banner hidden again. */
  method ExampleMessage(text: string)
  {
    var page := new ContactPage();
    page.HandleChange(Message, text);
    page.HandleSubmit();
    assert !page.SubmitEnabled();
    page.SendTimerFires();
    assert page.isSuccess && page.formData == EmptyForm;
    page.HandleChange(Name, "A");
    page.DismissTimerFires();
    assert !page.isSuccess && !page.isSubmitting && page.formData.name == "A";
  }
}
