// src/pages/WorkshopRegister.tsx: the workshop registration form. The page
// holds one `formData` record, which every input replaces by a copy with one
// field changed, and an `isSubmitted` flag. Submitting without ticking the
// terms box raises an error toast and nothing else; otherwise a 500 ms timer
// is started whose firing switches the page to its success screen.

module WorkshopRegister {

  import opened Router

  /** The six text-valued entries of `formData`. */
  datatype TextField = FirstName | LastName | Email | Phone | Program | Experience

  datatype FormData = FormData(
    firstName: string,
    lastName: string,
    email: string,
    phone: string,
    program: string,
    experience: string,
    agreeTerms: bool)

  const EmptyForm := FormData("", "", "", "", "", "", false)

  /** The values the two selects offer. */
  const Programs: seq<string> := ["digital-literacy", "ai-ml", "robotics", "web-dev", "python"]
  const ExperienceLevels: seq<string> := ["beginner", "some", "intermediate", "advanced"]

  const TermsError := "Please agree to the terms and conditions"
  const SuccessToast := "Registration submitted successfully!"

  /** Milliseconds between a successful submission and the success screen. */
  const SubmitDelay := 500

  /** Reads one text field of the record. */
  function Get(form: FormData, f: TextField): string
  {
    match f
    case FirstName => form.firstName
    case LastName => form.lastName
    case Email => form.email
    case Phone => form.phone
    case Program => form.program
    case Experience => form.experience
  }

  /** `{ ...formData, <field>: value }` for a text field. */
  function With(form: FormData, f: TextField, value: string): (r: FormData)
    ensures Get(r, f) == value
    ensures forall g :: g != f ==> Get(r, g) == Get(form, g)
    ensures r.agreeTerms == form.agreeTerms
  {
    match f
    case FirstName => form.(firstName := value)
    case LastName => form.(lastName := value)
    case Email => form.(email := value)
    case Phone => form.(phone := value)
    case Program => form.(program := value)
    case Experience => form.(experience := value)
  }

  /** A record is determined by its six text fields and the terms box. */
  lemma {:induction false} FieldsDetermineForm(a: FormData, b: FormData)
    requires forall f :: Get(a, f) == Get(b, f)
    requires a.agreeTerms == b.agreeTerms
    ensures a == b
  {
    assert Get(a, FirstName) == Get(b, FirstName);
    assert Get(a, LastName) == Get(b, LastName);
    assert Get(a, Email) == Get(b, Email);
    assert Get(a, Phone) == Get(b, Phone);
    assert Get(a, Program) == Get(b, Program);
    assert Get(a, Experience) == Get(b, Experience);
  }

  /** Typing the field's earlier value back restores the whole record. */
  lemma {:induction false} WithOldValueRestores(form: FormData, f: TextField, value: string)
    ensures With(With(form, f, value), f, Get(form, f)) == form
  {
    var r := With(With(form, f, value), f, Get(form, f));
    forall g ensures Get(r, g) == Get(form, g) {
    }
    FieldsDetermineForm(r, form);
  }

  /** Edits of two different fields commute. */
  lemma {:induction false} EditsOfDifferentFieldsCommute(form: FormData, f: TextField, v: string, g: TextField, w: string)
    requires f != g
    ensures With(With(form, f, v), g, w) == With(With(form, g, w), f, v)
  {
    var a, b := With(With(form, f, v), g, w), With(With(form, g, w), f, v);
    forall h ensures Get(a, h) == Get(b, h) {
    }
    FieldsDetermineForm(a, b);
  }

  const SuccessHead := "Thank you for registering for our workshop program. We've sent a confirmation email to "
  const SuccessTail := " with next steps."

  /** The text of the success screen, which repeats the entered e-mail address. */
  function SuccessMessage(email: string): (r: string)
    ensures |r| == |SuccessHead| + |email| + |SuccessTail|
    ensures r[..|SuccessHead|] == SuccessHead
    ensures r[|SuccessHead|..|SuccessHead| + |email|] == email
    ensures r[|SuccessHead| + |email|..] == SuccessTail
  {
    var r := SuccessHead + email + SuccessTail;
    assert r[|SuccessHead|..|SuccessHead| + |email|] == email;
    r
  }

  /** Different addresses give different messages, so the screen names the
      address that was entered and no other. */
  lemma SuccessMessageInjective(a: string, b: string)
    requires SuccessMessage(a) == SuccessMessage(b)
    ensures a == b
  {
    assert |a| == |b|;
    assert a == SuccessMessage(a)[|SuccessHead|..|SuccessHead| + |a|];
  }

  datatype Page = FormPage | SuccessPage(message: string)

  /** Both buttons of the success screen call `onBack`, which the shell wires
      to the workshops page. */
  function SuccessButtonTarget(button: nat): (r: View)
    requires button < 2
    ensures r == Navigate(WorkshopRegisterScreen, GoBack).value
    ensures Render(r, false) == WorkshopsScreen
  {
    Go("workshops")
  }

  class RegisterForm {
    var formData: FormData
    var isSubmitted: bool
    /** Submission timers started and not yet fired. */
    var pendingTimers: nat

    constructor ()
      ensures formData == EmptyForm && !isSubmitted && pendingTimers == 0
      ensures Shown() == FormPage
    {
      formData := EmptyForm;
      isSubmitted := false;
      pendingTimers := 0;
    }

    /** The page on display: the success screen once submitted, the form before. */
    function Shown(): (p: Page)
      reads this
      ensures p.SuccessPage? <==> isSubmitted
      ensures isSubmitted ==> p.message == SuccessMessage(formData.email)
    {
      if isSubmitted then SuccessPage(SuccessMessage(formData.email)) else FormPage
    }

    /** A text input or select: only that field changes. The selects offer
        only their listed values; the inputs take any text. */
    method Edit(f: TextField, value: string)
      requires !isSubmitted
      requires f == Program ==> value in Programs
      requires f == Experience ==> value in ExperienceLevels
      modifies this
      ensures formData == With(old(formData), f, value)
      ensures Get(formData, f) == value
      ensures forall g :: g != f ==> Get(formData, g) == Get(old(formData), g)
      ensures formData.agreeTerms == old(formData.agreeTerms)
      ensures isSubmitted == old(isSubmitted) && pendingTimers == old(pendingTimers)
    {
      formData := With(formData, f, value);
    }

    /** The terms checkbox: only `agreeTerms` changes. */
    method SetAgreeTerms(checked: bool)
      requires !isSubmitted
      modifies this
      ensures formData == old(formData).(agreeTerms := checked)
      ensures forall g :: Get(formData, g) == Get(old(formData), g)
      ensures isSubmitted == old(isSubmitted) && pendingTimers == old(pendingTimers)
    {
      formData := formData.(agreeTerms := checked);
    }

    /** `handleSubmit`: without the terms box ticked it only reports the
        error; with it, it starts one timer and the page stays as it is. */
    method Submit() returns (error: string)
      requires !isSubmitted
      modifies this
      ensures !formData.agreeTerms ==> error == TermsError && pendingTimers == old(pendingTimers)
      ensures formData.agreeTerms ==> error == "" && pendingTimers == old(pendingTimers) + 1
      ensures formData == old(formData) && !isSubmitted
    {
      if !formData.agreeTerms {
        error := TermsError;
        return;
      }
      error := "";
      pendingTimers := pendingTimers + 1;
    }

    /** The timer's callback, `SubmitDelay` ms later: the success screen, with
        the address as it stands when the timer fires. */
    method FireSubmitTimer() returns (toast: string)
      requires pendingTimers > 0
      modifies this
      ensures isSubmitted && pendingTimers == old(pendingTimers) - 1
      ensures formData == old(formData)
      ensures toast == SuccessToast
      ensures Shown() == SuccessPage(SuccessMessage(formData.email))
    {
      isSubmitted := true;
      pendingTimers := pendingTimers - 1;
      toast := SuccessToast;
    }
  }

  /** Ticking the box and submitting reaches the success screen, echoing the
      address typed, once the timer fires; without the box it never starts. */
  method RegisterFlow(email: string, agree: bool) returns (shown: Page)
    ensures agree ==> shown == SuccessPage(SuccessMessage(email))
    ensures !agree ==> shown == FormPage
  {
    var form := new RegisterForm();
    form.Edit(Email, email);
    form.SetAgreeTerms(agree);
    var error := form.Submit();
    if form.pendingTimers > 0 {
      var toast := form.FireSubmitTimer();
    }
    shown := form.Shown();
  }
}
