/**
 * The three-step account registration page: a donor/hospital switch over one
 * shared field record, a step counter, and a submit handler that only logs.
 */
module Registration {

  datatype UserType = Donor | Hospital

  /** Every text input of both variants, by its `name`; the two variants share the first three. */
  datatype TextField =
    | Email | Password | ConfirmPassword
    | FirstName | LastName | DateOfBirth | BloodType | Phone | Address | City | State | ZipCode
    | HospitalName | LicenseNumber | ContactPerson | HospitalPhone
    | HospitalAddress | HospitalCity | HospitalState | HospitalZipCode

  datatype FormData = FormData(
    email: string,
    password: string,
    confirmPassword: string,
    firstName: string,
    lastName: string,
    dateOfBirth: string,
    bloodType: string,
    phone: string,
    address: string,
    city: string,
    state: string,
    zipCode: string,
    hospitalName: string,
    licenseNumber: string,
    contactPerson: string,
    hospitalPhone: string,
    hospitalAddress: string,
    hospitalCity: string,
    hospitalState: string,
    hospitalZipCode: string,
    agreeToTerms: bool)
  {
    function Get(f: TextField): string
    {
      match f
      case Email => email
      case Password => password
      case ConfirmPassword => confirmPassword
      case FirstName => firstName
      case LastName => lastName
      case DateOfBirth => dateOfBirth
      case BloodType => bloodType
      case Phone => phone
      case Address => address
      case City => city
      case State => state
      case ZipCode => zipCode
      case HospitalName => hospitalName
      case LicenseNumber => licenseNumber
      case ContactPerson => contactPerson
      case HospitalPhone => hospitalPhone
      case HospitalAddress => hospitalAddress
      case HospitalCity => hospitalCity
      case HospitalState => hospitalState
      case HospitalZipCode => hospitalZipCode
    }

    /** `{...formData, [name]: value}` for a text field: no other field changes. */
    function With(f: TextField, value: string): (d: FormData)
      ensures d.Get(f) == value
      ensures forall g :: g != f ==> d.Get(g) == Get(g)
      ensures d.agreeToTerms == agreeToTerms
    {
      match f
      case Email => this.(email := value)
      case Password => this.(password := value)
      case ConfirmPassword => this.(confirmPassword := value)
      case FirstName => this.(firstName := value)
      case LastName => this.(lastName := value)
      case DateOfBirth => this.(dateOfBirth := value)
      case BloodType => this.(bloodType := value)
      case Phone => this.(phone := value)
      case Address => this.(address := value)
      case City => this.(city := value)
      case State => this.(state := value)
      case ZipCode => this.(zipCode := value)
      case HospitalName => this.(hospitalName := value)
      case LicenseNumber => this.(licenseNumber := value)
      case ContactPerson => this.(contactPerson := value)
      case HospitalPhone => this.(hospitalPhone := value)
      case HospitalAddress => this.(hospitalAddress := value)
      case HospitalCity => this.(hospitalCity := value)
      case HospitalState => this.(hospitalState := value)
      case HospitalZipCode => this.(hospitalZipCode := value)
    }
  }

  const EmptyForm := FormData("", "", "", "", "", "", "", "", "", "", "", "", "", "", "", "", "", "", "", "", false)

  /** A text input delivers its `value`; the `agreeToTerms` checkbox delivers `checked`. */
  datatype ChangeEvent = TextChange(field: TextField, value: string) | CheckboxChange(checked: bool)

  class RegisterPage {
    var userType: UserType
    var showPassword: bool
    var showConfirmPassword: bool
    var step: int
    var formData: FormData

    /** With the Back button on steps 2 and 3 and Next on steps 1 and 2, only steps 1 to 3 are reached. */
    ghost predicate Valid()
      reads this
    {
      1 <= step <= 3
    }

    constructor ()
      ensures Valid()
      ensures userType == Donor && step == 1 && formData == EmptyForm
      ensures !showPassword && !showConfirmPassword
    {
      userType := Donor;
      showPassword := false;
      showConfirmPassword := false;
      step := 1;
      formData := EmptyForm;
    }

    predicate BackShown() reads this { step > 1 }
    predicate NextShown() reads this { step < 3 }

    /** The Donor and Hospital/Blood Bank tabs: the step and every field, email and passwords included, are kept. */
    method SelectUserType(t: UserType)
      requires Valid()
      modifies this`userType
      ensures Valid() && userType == t
    {
      userType := t;
    }

    /** The eye buttons beside the two password inputs flip their visibility. */
    method TogglePassword()
      requires Valid()
      modifies this`showPassword
      ensures Valid()
      ensures showPassword == !old(showPassword)
    {
      showPassword := !showPassword;
    }

    method ToggleConfirmPassword()
      requires Valid()
      modifies this`showConfirmPassword
      ensures Valid()
      ensures showConfirmPassword == !old(showConfirmPassword)
    {
      showConfirmPassword := !showConfirmPassword;
    }

    /** `handleChange`: only the named field changes; the checkbox takes `checked`. */
    method HandleChange(e: ChangeEvent)
      requires Valid()
      modifies this`formData
      ensures Valid()
      ensures formData == match e
                          case TextChange(f, v) => old(formData).With(f, v)
                          case CheckboxChange(c) => old(formData).(agreeToTerms := c)
    {
      match e
      case TextChange(f, v) => formData := formData.With(f, v);
      case CheckboxChange(c) => formData := formData.(agreeToTerms := c);
    }

    /** `nextStep`: one step on, unconditionally; offered only below step 3. */
    method NextStep()
      requires Valid() && NextShown()
      modifies this`step
      ensures Valid() && step == old(step) + 1
    {
      step := step + 1;
    }

    /** `prevStep`: one step back, unconditionally; offered only above step 1. */
    method PrevStep()
      requires Valid() && BackShown()
      modifies this`step
      ensures Valid() && step == old(step) - 1
    {
      step := step - 1;
    }

    /**
     * `handleSubmit`, from the Register button on step 3: it changes no state
     * and only writes the form data to the console, returned here as `logged`.
     */
    method HandleSubmit() returns (logged: FormData)
      requires Valid() && step == 3
      ensures logged == formData
    {
      logged := formData;
    }
  }

  /** Switching the account type in the middle of step 1 keeps what was typed. */
  method ExampleSwitch(address: string)
  {
    var page := new RegisterPage();
    page.HandleChange(TextChange(Email, address));
    page.SelectUserType(Hospital);
    assert page.formData.email == address && page.step == 1;
    page.NextStep();
    page.NextStep();
    assert !page.NextShown();
    var logged := page.HandleSubmit();
    assert logged.email == address;
  }
}
