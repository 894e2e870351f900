/**
 * The sign-up page's state and handlers. Each React state variable is a
 * field; each event handler is a method. A handler reads the values of the
 * render it was created in, and the effect that recomputes `canProceed`
 * runs after every render, so each event method ends by running it.
 */
module Signup {
  import opened Wrappers
  import opened SignupRules

  /** The profile document written next to the new account (its uid and timestamp come from the backend and the clock). */
  datatype Profile = Profile(email: string, fullName: string, phone: string, gender: string, dob: string, location: string)

  /** What the final submission hands to the authentication backend: credentials and the profile. */
  datatype SignupRequest = SignupRequest(email: string, password: string, profile: Profile)

  class SignupPage {
    var email: string
    var password: string
    var location: string
    var fullName: string
    var phone: string
    var gender: string
    var dob: string
    var agree: bool
    var errors: Errors
    var confirmPassword: string
    var step: int
    var canProceed: bool

    /** The eight input values of the current render. */
    function Form(): SignupForm
      reads this
    {
      SignupForm(fullName, phone, gender, dob, location, email, password, confirmPassword)
    }

    /** Every rendered state: step 1 or 2, and `canProceed` as the effect last computed it. */
    ghost predicate Valid()
      reads this
    {
      && (step == 1 || step == 2)
      && canProceed == CanProceedFor(Form(), errors)
    }

    /** The initial render and its effect: all fields empty, no errors, step 1, Next disabled. */
    constructor ()
      ensures Valid()
      ensures Form() == SignupForm("", "", "", "", "", "", "", "")
      ensures !agree && errors == map[] && step == 1 && !canProceed
    {
      email, password, location, fullName := "", "", "", "";
      phone, gender, dob, confirmPassword := "", "", "", "";
      agree, errors, step := false, map[], 1;
      canProceed := false;
    }

    /** The effect on `canProceed`: all eight fields filled and no key in `errors`. */
    method SyncCanProceed()
      modifies this`canProceed
      ensures canProceed == CanProceedFor(Form(), errors)
    {
      canProceed := Form().AllFilled() && errors == map[];
    }

    /** `validate`: rebuilds `errors` from the given render's values and reports whether no check failed. */
    method Validate(rendered: SignupForm) returns (ok: bool)
      modifies this`errors
      ensures errors == rendered.Errors()
      ensures ok <==> rendered.Credentials()
    {
      errors := ValidationErrors(rendered.email, rendered.password, rendered.confirmPassword);
      ok := errors == map[];
    }

    /** `revalidate`: the same checks, the same error object and the same result as `validate`. */
    method Revalidate(rendered: SignupForm) returns (ok: bool)
      modifies this`errors
      ensures errors == rendered.Errors()
      ensures ok <==> rendered.Credentials()
    {
      errors := ValidationErrors(rendered.email, rendered.password, rendered.confirmPassword);
      ok := errors == map[];
    }

    /**
     * The field-change handlers: store the new value; for email, password
     * and confirm, a shown error of that field is set to `undefined`, and
     * the other errors are left as they were.
     */
    method HandleChange(f: Field, v: string)
      modifies this
      ensures Form() == old(Form()).With(f, v)
      ensures errors == ClearedFor(old(errors), f)
      ensures agree == old(agree) && step == old(step) && canProceed == old(canProceed)
    {
      match f {
        case FullName => fullName := v;
        case Phone => phone := v;
        case Gender => gender := v;
        case Dob => dob := v;
        case Location => location := v;
        case Email => email := v;
        case Password => password := v;
        case ConfirmPassword => confirmPassword := v;
      }
      errors := ClearedFor(errors, f);
    }

    /**
     * An input's `onChange` as written: the change handler, then
     * `revalidate`, which still sees the values from before the edit; its
     * error object replaces the one the handler cleared.
     */
    method OnInput(f: Field, v: string)
      requires Valid()
      modifies this
      ensures Valid()
      ensures Form() == old(Form()).With(f, v)
      ensures errors == old(Form()).Errors()
      ensures agree == old(agree) && step == old(step)
    {
      var rendered := Form();
      HandleChange(f, v);
      var _ := Revalidate(rendered);
      SyncCanProceed();
    }

    /**
     * An input's `onChange` as evidently intended: revalidate the edited
     * values, so the Next button opens exactly when every field is filled
     * and every check passes.
     */
    method OnInputFresh(f: Field, v: string)
      requires Valid()
      modifies this
      ensures Valid()
      ensures Form() == old(Form()).With(f, v)
      ensures errors == Form().Errors()
      ensures canProceed <==> Form().AllFilled() && Form().Credentials()
      ensures agree == old(agree) && step == old(step)
    {
      HandleChange(f, v);
      var _ := Revalidate(Form());
      SyncCanProceed();
      CanProceedAfterValidation(Form());
    }

    /** `handleNext`: validate the values on screen; move to step 2 only when no check failed. */
    method HandleNext()
      requires Valid()
      modifies this
      ensures Valid()
      ensures Form() == old(Form()) && agree == old(agree)
      ensures errors == Form().Errors()
      ensures step == if Form().Credentials() then 2 else old(step)
    {
      var ok := Validate(Form());
      if ok {
        step := 2;
      }
      SyncCanProceed();
    }

    /** The agreement checkbox. */
    method SetAgree(checked: bool)
      requires Valid()
      modifies this`agree
      ensures Valid() && agree == checked
    {
      agree := checked;
    }

    /**
     * `handleSignup`: without the agreement ticked nothing is sent; with it,
     * the credentials go to account creation and the other fields into the
     * profile.
     */
    method HandleSignup() returns (request: Option<SignupRequest>)
      ensures request.Some? <==> agree
      ensures request.Some? ==> request.value.email == email && request.value.password == password
      ensures request.Some? ==> request.value.profile == Profile(email, fullName, phone, gender, dob, location)
    {
      if !agree {
        return None;
      }
      request := Some(SignupRequest(email, password, Profile(email, fullName, phone, gender, dob, location)));
    }
  }
}
