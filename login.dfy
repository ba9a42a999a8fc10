/** The login page: the form state, its change handler and the empty-field guard of its submit handler. */
module Login {
  import opened FormRecord

  /** The fields the guard requires, in the order it tests them. */
  const CredentialFields: seq<string> := ["email", "password"]

  /** The form state the page starts with. */
  const InitialForm: Record := map["email" := Str(""), "password" := Str(""), "rememberMe" := Bool(false)]

  /** The guard of `handleSubmit`: the handler goes on only when both credentials are filled in. */
  function CanSubmit(form: Record): (ok: bool)
    ensures ok <==> !Falsy(Get(form, "email")) && !Falsy(Get(form, "password"))
  {
    assert CredentialFields[0] == "email" && CredentialFields[1] == "password";
    FirstMissing(form, CredentialFields).None?
  }

  /** The "remember me" checkbox never decides whether the form is sent. */
  lemma RememberMeIgnored(form: Record, v: Value)
    ensures CanSubmit(Assign(form, "rememberMe", v)) == CanSubmit(form)
  {
    var f := Assign(form, "rememberMe", v);
    assert Get(f, "email") == Get(form, "email") && Get(f, "password") == Get(form, "password");
  }

  /** The arguments of one `login(email, password)` call. */
  datatype LoginCall = LoginCall(email: Value, password: Value)

  class LoginPage {
    var formData: Record
    var isSubmitting: bool
    /** Every call made to the external `login`, oldest first. */
    var loginCalls: seq<LoginCall>
    /** Submissions whose `login` promise has not settled yet. */
    var awaiting: nat

    constructor ()
      ensures formData == InitialForm && !isSubmitting
      ensures loginCalls == [] && awaiting == 0
    {
      formData := InitialForm;
      isSubmitting := false;
      loginCalls := [];
      awaiting := 0;
    }

    /** `handleChange`: stores `checked` for the checkbox, `value` otherwise, under the input's name only. */
    method HandleChange(target: Target)
      modifies this`formData
      ensures formData == Assign(old(formData), target.name, CheckboxAwareValue(target))
      ensures Get(formData, target.name) == CheckboxAwareValue(target)
      ensures forall k :: k != target.name ==> Get(formData, k) == Get(old(formData), k)
    {
      formData := Assign(formData, target.name, CheckboxAwareValue(target));
    }

    /**
     * `handleSubmit` up to its `await`: with a credential empty it returns and
     * touches nothing; otherwise it raises `isSubmitting` and calls `login`
     * with exactly the form's email and password.
     */
    method HandleSubmit() returns (called: bool)
      modifies this`isSubmitting, this`loginCalls, this`awaiting
      ensures called <==> CanSubmit(formData)
      ensures !called ==>
        isSubmitting == old(isSubmitting) && loginCalls == old(loginCalls) && awaiting == old(awaiting)
      ensures called ==>
        isSubmitting && awaiting == old(awaiting) + 1
        && loginCalls == old(loginCalls) + [LoginCall(Get(formData, "email"), Get(formData, "password"))]
    {
      if !CanSubmit(formData) {
        return false;
      }
      isSubmitting := true;
      loginCalls := loginCalls + [LoginCall(Get(formData, "email"), Get(formData, "password"))];
      awaiting := awaiting + 1;
      called := true;
    }

    /**
     * The rest of `handleSubmit` once `login` settles: the `finally` clears
     * `isSubmitting` either way; `logged` says whether the `catch` ran.
     */
    method OnLoginSettled(settlement: Settlement) returns (logged: bool)
      requires awaiting > 0
      modifies this`isSubmitting, this`awaiting
      ensures !isSubmitting && awaiting == old(awaiting) - 1
      ensures logged <==> settlement == Rejected
    {
      logged := settlement == Rejected;
      isSubmitting := false;
      awaiting := awaiting - 1;
    }
  }
}
