/**
 * The three-step donor registration wizard: a step counter, a simulated
 * submission that a timer completes, and a reset to the initial state.
 */
module DonorRegistration {

  /** The text, date and select inputs of the form, by their `name`. */
  datatype TextField =
    | FirstName | LastName | Email | Phone | BloodType | DateOfBirth
    | Address | City | State | ZipCode | LastDonation | MedicalConditions

  datatype FormData = FormData(
    firstName: string,
    lastName: string,
    email: string,
    phone: string,
    bloodType: string,
    dateOfBirth: string,
    address: string,
    city: string,
    state: string,
    zipCode: string,
    lastDonation: string,
    medicalConditions: string,
    agreeToTerms: bool)
  {
    function Get(f: TextField): string
    {
      match f
      case FirstName => firstName
      case LastName => lastName
      case Email => email
      case Phone => phone
      case BloodType => bloodType
      case DateOfBirth => dateOfBirth
      case Address => address
      case City => city
      case State => state
      case ZipCode => zipCode
      case LastDonation => lastDonation
      case MedicalConditions => medicalConditions
    }

    /** `{...formData, [name]: value}` for a text field: no other field changes. */
    function With(f: TextField, value: string): (d: FormData)
      ensures d.Get(f) == value
      ensures forall g :: g != f ==> d.Get(g) == Get(g)
      ensures d.agreeToTerms == agreeToTerms
    {
      match f
      case FirstName => this.(firstName := value)
      case LastName => this.(lastName := value)
      case Email => this.(email := value)
      case Phone => this.(phone := value)
      case BloodType => this.(bloodType := value)
      case DateOfBirth => this.(dateOfBirth := value)
      case Address => this.(address := value)
      case City => this.(city := value)
      case State => this.(state := value)
      case ZipCode => this.(zipCode := value)
      case LastDonation => this.(lastDonation := value)
      case MedicalConditions => this.(medicalConditions := value)
    }
  }

  /** Every text field empty and the terms not accepted. */
  const EmptyForm := FormData("", "", "", "", "", "", "", "", "", "", "", "", false)

  /**
   * An input's change event: a text input delivers its `value`; the one
   * checkbox, `agreeToTerms`, delivers `checked`.
   */
  datatype ChangeEvent = TextChange(field: TextField, value: string) | CheckboxChange(checked: bool)

  /** The whole component state at one moment. */
  datatype WizardState = WizardState(step: int, isSubmitting: bool, isSuccess: bool, formData: FormData)

  const InitialState := WizardState(1, false, false, EmptyForm)

  class DonorRegistrationForm {
    var formData: FormData
    var step: int
    var isSubmitting: bool
    var isSuccess: bool
    /** Callbacks scheduled by `handleSubmit`'s `setTimeout` and not yet run. */
    var pendingTimers: nat

    /**
     * The step stays within the three rendered steps, a submission that is
     * running always has a completion timer outstanding, and the success
     * screen is never shown while a submission is still running. Several
     * timers can be outstanding at once (see `ImplicitSubmit`).
     */
    ghost predicate Valid()
      reads this
    {
      && 1 <= step <= 3
      && (isSubmitting ==> pendingTimers > 0)
      && !(isSubmitting && isSuccess)
    }

    function State(): WizardState
      reads this
    {
      WizardState(step, isSubmitting, isSuccess, formData)
    }

    /** Back is rendered on steps 2 and 3, Next on steps 1 and 2, the submit button on step 3. */
    predicate BackShown() reads this { step > 1 }
    predicate NextShown() reads this { step < 3 }

    /** The submit button is enabled unless a submission runs or the terms are unticked. */
    predicate SubmitEnabled()
      reads this
    {
      step == 3 && !isSubmitting && formData.agreeToTerms
    }

    constructor ()
      ensures Valid() && State() == InitialState && pendingTimers == 0
    {
      formData := EmptyForm;
      step := 1;
      isSubmitting := false;
      isSuccess := false;
      pendingTimers := 0;
    }

    /** `handleChange`: only the named field changes; the checkbox takes `checked`. */
    method HandleChange(e: ChangeEvent)
      requires Valid() && !isSuccess
      modifies this`formData
      ensures Valid()
      ensures formData == match e
                          case TextChange(f, v) => old(formData).With(f, v)
                          case CheckboxChange(c) => old(formData).(agreeToTerms := c)
    {
      match e
      case TextChange(f, v) => formData := formData.With(f, v);
      case CheckboxChange(c) => formData := formData.(agreeToTerms := c);
    }

    /** `nextStep`: exactly one step on, whatever the fields hold. */
    method NextStep()
      requires Valid() && !isSuccess && NextShown()
      modifies this`step
      ensures Valid() && step == old(step) + 1
    {
      step := step + 1;
    }

    /** `prevStep`: exactly one step back. */
    method PrevStep()
      requires Valid() && !isSuccess && BackShown()
      modifies this`step
      ensures Valid() && step == old(step) - 1
    {
      step := step - 1;
    }

    /** `handleSubmit`: marks the form as submitting and schedules the completion timer. */
    method HandleSubmit()
      requires Valid() && !isSuccess && SubmitEnabled()
      modifies this`isSubmitting, this`pendingTimers
      ensures Valid() && isSubmitting && pendingTimers == old(pendingTimers) + 1
    {
      isSubmitting := true;
      pendingTimers := pendingTimers + 1;
    }

    /**
     * Enter pressed in the "Last Donation Date" input on step 2. That step
     * renders no submit button and has exactly one field that blocks implicit
     * submission (the date input), so the browser submits the form itself
     * (section 4.10.21.2, "Implicit submission", of the HTML Living Standard)
     * once its constraints hold: the blood type, a required select, must be
     * chosen. `handleSubmit` then runs with no check of the step, of the
     * terms or of a running submission.
     */
    method ImplicitSubmit()
      requires Valid() && !isSuccess && step == 2 && formData.bloodType != ""
      modifies this`isSubmitting, this`pendingTimers
      ensures Valid() && isSubmitting && pendingTimers == old(pendingTimers) + 1
    {
      isSubmitting := true;
      pendingTimers := pendingTimers + 1;
    }

    /** The submission timer fires: the form becomes successful; the fields and step are kept. */
    method TimerFires()
      requires Valid() && pendingTimers > 0
      modifies this`isSubmitting, this`isSuccess, this`pendingTimers
      ensures Valid() && !isSubmitting && isSuccess && pendingTimers == old(pendingTimers) - 1
    {
      isSubmitting := false;
      isSuccess := true;
      pendingTimers := pendingTimers - 1;
    }

    /**
     * "Register Another Donor", offered on the success screen: back to exactly
     * the initial state. A timer from an earlier repeated submission is not
     * cancelled and stays outstanding.
     */
    method RegisterAnother()
      requires Valid() && isSuccess
      modifies this`isSuccess, this`step, this`formData
      ensures Valid() && State() == InitialState && pendingTimers == old(pendingTimers)
    {
      isSuccess := false;
      step := 1;
      formData := EmptyForm;
    }
  }

  /** A complete session: fill in step 1, go through the steps, accept the terms, submit, succeed. */
  method ExampleSession(first: string)
  {
    var form := new DonorRegistrationForm();
    form.HandleChange(TextChange(FirstName, first));
    form.NextStep();
    form.NextStep();
    assert !form.NextShown() && form.BackShown();
    form.HandleChange(CheckboxChange(true));
    form.HandleSubmit();
    form.TimerFires();
    assert form.isSuccess && form.formData.firstName == first && form.step == 3;
    form.RegisterAnother();
    assert form.State() == InitialState;
  }

  /**
   * Enter in the step-2 date input, twice: the registration succeeds with the
   * terms never accepted, and the second timer, still outstanding after
   * "Register Another Donor", shows the success screen again on step 1.
   */
  method ExampleEnterOnStepTwo()
  {
    var form := new DonorRegistrationForm();
    form.HandleChange(TextChange(BloodType, "O-"));
    form.NextStep();
    form.ImplicitSubmit();
    form.ImplicitSubmit();
    form.TimerFires();
    assert form.isSuccess && !form.formData.agreeToTerms && form.step == 2 && form.pendingTimers == 1;
    form.RegisterAnother();
    form.TimerFires();
    assert form.isSuccess && form.step == 1 && form.formData == EmptyForm;
  }
}
