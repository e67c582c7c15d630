/**
 * The registration form (src/pages/Register.tsx): five text fields updated by input id, and a
 * submit handler that first requires every field and then equal passwords.
 */
module Register {
  import opened Wrappers

  datatype RegisterForm = RegisterForm(
    name: string, email: string, password: string, confirmPassword: string, vehiclePlate: string)

  datatype RegisterOutcome = Success | Rejected(message: string)

  const FillMessage := "Please fill in all fields"
  const MismatchMessage := "Passwords do not match"

  /** The five input ids, which are also the form's keys. */
  const FieldKeys: set<string> := {"name", "email", "password", "confirmPassword", "vehiclePlate"}

  /** The initial `formData`: every field empty. */
  const InitialForm := RegisterForm("", "", "", "", "")

  /** `formData[key]`, absent for a key the form does not have. */
  function Field(form: RegisterForm, key: string): (v: Option<string>)
    ensures v.Some? <==> key in FieldKeys
  {
    match key
    case "name" => Some(form.name)
    case "email" => Some(form.email)
    case "password" => Some(form.password)
    case "confirmPassword" => Some(form.confirmPassword)
    case "vehiclePlate" => Some(form.vehiclePlate)
    case _ => None
  }

  /**
   * `{ ...prev, [id]: value }` restricted to the five keys: the field named `id` takes the
   * value and every other field keeps its own.
   */
  function WithField(form: RegisterForm, id: string, value: string): (r: RegisterForm)
    ensures id in FieldKeys ==> Field(r, id) == Some(value)
    ensures forall key :: key != id ==> Field(r, key) == Field(form, key)
    ensures id !in FieldKeys ==> r == form
  {
    match id
    case "name" => form.(name := value)
    case "email" => form.(email := value)
    case "password" => form.(password := value)
    case "confirmPassword" => form.(confirmPassword := value)
    case "vehiclePlate" => form.(vehiclePlate := value)
    case _ => form
  }

  /** Some field of the form is the empty string. */
  predicate HasEmptyField(form: RegisterForm) {
    exists key :: key in FieldKeys && Field(form, key) == Some("")
  }

  lemma HasEmptyFieldIff(form: RegisterForm)
    ensures HasEmptyField(form) <==>
      form.name == "" || form.email == "" || form.password == ""
      || form.confirmPassword == "" || form.vehiclePlate == ""
  {
    if form.name == "" { assert Field(form, "name") == Some(""); }
    if form.email == "" { assert Field(form, "email") == Some(""); }
    if form.password == "" { assert Field(form, "password") == Some(""); }
    if form.confirmPassword == "" { assert Field(form, "confirmPassword") == Some(""); }
    if form.vehiclePlate == "" { assert Field(form, "vehiclePlate") == Some(""); }
  }

  /**
   * `handleSubmit`: an empty field is reported before a password mismatch; registration
   * succeeds exactly when every field is filled and the two passwords agree.
   */
  function HandleSubmit(form: RegisterForm): (r: RegisterOutcome)
    ensures HasEmptyField(form) ==> r == Rejected(FillMessage)
    ensures !HasEmptyField(form) && form.password != form.confirmPassword ==> r == Rejected(MismatchMessage)
    ensures r == Success <==> !HasEmptyField(form) && form.password == form.confirmPassword
  {
    HasEmptyFieldIff(form);
    if form.name == "" || form.email == "" || form.password == ""
       || form.confirmPassword == "" || form.vehiclePlate == "" then
      Rejected(FillMessage)
    else if form.password != form.confirmPassword then
      Rejected(MismatchMessage)
    else
      Success
  }

  /** The untouched form is always rejected for its empty fields. */
  lemma InitialFormRejected()
    ensures HandleSubmit(InitialForm) == Rejected(FillMessage)
  {
    assert Field(InitialForm, "name") == Some("");
  }

  /** The state of one rendered registration page. */
  class RegisterPage {
    var formData: RegisterForm

    constructor ()
      ensures formData == InitialForm
      ensures forall key :: key in FieldKeys ==> Field(formData, key) == Some("")
    {
      formData := InitialForm;
    }

    /** `handleChange`: the input whose id is `id` now holds `value`; nothing else moves. */
    method HandleChange(id: string, value: string)
      modifies this
      ensures formData == WithField(old(formData), id, value)
      ensures id in FieldKeys ==> Field(formData, id) == Some(value)
      ensures forall key :: key != id ==> Field(formData, key) == Field(old(formData), key)
    {
      formData := WithField(formData, id, value);
    }
  }
}
