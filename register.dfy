/**
 * The sign-up page: the form state, the change handler, and the submit
 * handler's three ordered checks around the external `signUp` call.
 */
module Register {
  import opened Basics
  import opened FormRecord

  /** The fields the first check requires to be filled in, in the order it tests them. */
  const RequiredFields: seq<string> :=
    ["firstName", "lastName", "email", "phone", "country", "password", "confirmPassword"]

  /** The form state the page starts with. */
  const InitialForm: Record := map[
    "firstName" := Str(""), "lastName" := Str(""), "email" := Str(""), "phone" := Str(""),
    "country" := Str(""), "password" := Str(""), "confirmPassword" := Str(""),
    "agreeToTerms" := Bool(false)]

  /** The error toasts the submit handler can show. */
  datatype SignUpError = MissingRequiredField | PasswordsDoNotMatch | TermsNotAccepted

  /** Both password fields hold the same value (strict equality). */
  predicate PasswordsAgree(form: Record) {
    Get(form, "password") == Get(form, "confirmPassword")
  }

  /**
   * The submit handler's checks, in order: every required field filled in,
   * then the two passwords equal, then the terms accepted.
   */
  function Validate(form: Record): (r: Outcome<SignUpError>)
    ensures r == Fail(MissingRequiredField) <==> !AllPresent(form, RequiredFields)
    ensures r == Fail(PasswordsDoNotMatch) <==> AllPresent(form, RequiredFields) && !PasswordsAgree(form)
    ensures r == Fail(TermsNotAccepted) <==>
      AllPresent(form, RequiredFields) && PasswordsAgree(form) && Falsy(Get(form, "agreeToTerms"))
    ensures r == Pass <==>
      AllPresent(form, RequiredFields) && PasswordsAgree(form) && !Falsy(Get(form, "agreeToTerms"))
  {
    if FirstMissing(form, RequiredFields).Some? then Fail(MissingRequiredField)
    else if Get(form, "password") != Get(form, "confirmPassword") then Fail(PasswordsDoNotMatch)
    else if Falsy(Get(form, "agreeToTerms")) then Fail(TermsNotAccepted)
    else Pass
  }

  /** Emptying any one required field yields the missing-field error, whatever the rest holds. */
  lemma EmptyRequiredFieldTakesPrecedence(form: Record, i: nat)
    requires i < |RequiredFields|
    ensures Validate(Assign(form, RequiredFields[i], Str(""))) == Fail(MissingRequiredField)
  {
    var f := Assign(form, RequiredFields[i], Str(""));
    assert Falsy(Get(f, RequiredFields[i]));
  }

  /** The terms checkbox is not one of the fields the missing-field check reads. */
  lemma TermsNotInMissingCheck(form: Record, v: Value)
    ensures Validate(Assign(form, "agreeToTerms", v)) == Fail(MissingRequiredField)
        <==> Validate(form) == Fail(MissingRequiredField)
  {
    var f := Assign(form, "agreeToTerms", v);
    assert "agreeToTerms" !in RequiredFields;
    assert forall i :: 0 <= i < |RequiredFields| ==> Get(f, RequiredFields[i]) == Get(form, RequiredFields[i]);
  }

  /** The untouched form is rejected with the missing-field error. */
  lemma InitialFormIsIncomplete()
    ensures Validate(InitialForm) == Fail(MissingRequiredField)
  {
    assert Get(InitialForm, RequiredFields[0]) == Str("");
  }

  /** The arguments of one `signUp(email, password, firstName, lastName)` call. */
  datatype SignUpCall = SignUpCall(email: Value, password: Value, firstName: Value, lastName: Value)

  /** The call the handler makes with the current form. */
  function CallFor(form: Record): (c: SignUpCall)
    ensures c.email == Get(form, "email") && c.password == Get(form, "password")
    ensures c.firstName == Get(form, "firstName") && c.lastName == Get(form, "lastName")
  {
    SignUpCall(Get(form, "email"), Get(form, "password"), Get(form, "firstName"), Get(form, "lastName"))
  }

  /** A form that passes the checks sends `signUp` four filled-in values and a confirmed password. */
  lemma AcceptedCallIsComplete(form: Record)
    requires Validate(form) == Pass
    ensures var c := CallFor(form);
      !Falsy(c.email) && !Falsy(c.password) && !Falsy(c.firstName) && !Falsy(c.lastName)
      && c.password == Get(form, "confirmPassword")
  {
    assert RequiredFields[0] == "firstName" && RequiredFields[1] == "lastName";
    assert RequiredFields[2] == "email" && RequiredFields[5] == "password";
  }

  class RegisterPage {
    var formData: Record
    var isSubmitting: bool
    /** Every call made to the external `signUp`, oldest first. */
    var signUpCalls: seq<SignUpCall>
    /** Submissions whose `signUp` promise has not settled yet. */
    var awaiting: nat

    constructor ()
      ensures formData == InitialForm && !isSubmitting
      ensures signUpCalls == [] && awaiting == 0
    {
      formData := InitialForm;
      isSubmitting := false;
      signUpCalls := [];
      awaiting := 0;
    }

    /** `handleChange`: stores the checkbox-aware value under the input's name, nothing else. */
    method HandleChange(target: Target)
      modifies this`formData
      ensures formData == Assign(old(formData), target.name, CheckboxAwareValue(target))
      ensures Get(formData, target.name) == CheckboxAwareValue(target)
      ensures forall k :: k != target.name ==> Get(formData, k) == Get(old(formData), k)
    {
      formData := Assign(formData, target.name, CheckboxAwareValue(target));
    }

    /**
     * `handleSubmit` up to its `await`: on a failed check it returns the error
     * toast and changes nothing; otherwise it raises `isSubmitting` and calls
     * `signUp` with the form's values.
     */
    method HandleSubmit() returns (toast: Option<SignUpError>)
      modifies this`isSubmitting, this`signUpCalls, this`awaiting
      ensures toast.Some? <==> Validate(formData).Fail?
      ensures toast.Some? ==>
        toast.value == Validate(formData).error && isSubmitting == old(isSubmitting)
        && signUpCalls == old(signUpCalls) && awaiting == old(awaiting)
      ensures toast.None? ==>
        isSubmitting && signUpCalls == old(signUpCalls) + [CallFor(formData)]
        && awaiting == old(awaiting) + 1
    {
      var check := Validate(formData);
      if check.Fail? {
        return Some(check.error);
      }
      isSubmitting := true;
      signUpCalls := signUpCalls + [CallFor(formData)];
      awaiting := awaiting + 1;
      toast := None;
    }

    /**
     * The rest of `handleSubmit` once `signUp` settles: the `finally` clears
     * `isSubmitting` either way; `logged` says whether the `catch` ran.
     */
    method OnSignUpSettled(settlement: Settlement) returns (logged: bool)
      requires awaiting > 0
      modifies this`isSubmitting, this`awaiting
      ensures !isSubmitting && awaiting == old(awaiting) - 1
      ensures logged <==> settlement == Rejected
    {
      logged := settlement == Rejected;
      isSubmitting := false;
      awaiting := awaiting - 1;
    }
  }
}
