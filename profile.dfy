/**
 * The profile page: the profile and password records, their change handlers,
 * the unchecked profile submit, and the password submit's two ordered checks
 * followed by the simulated save that empties the password fields.
 */
module Profile {
  import opened Basics
  import opened FormRecord

  /** The profile record the page starts with. */
  const InitialUserData: Record := map[
    "firstName" := Str("Aminata"), "lastName" := Str("Diallo"),
    "email" := Str("aminata.diallo@example.com"), "phone" := Str("+221 77 123 4567"),
    "country" := Str("Senegal")]

  /** The password record the page starts with, and the one a completed change leaves. */
  const EmptyPasswordData: Record := map[
    "currentPassword" := Str(""), "newPassword" := Str(""), "confirmPassword" := Str("")]

  /** The fields the first password check requires, in the order it tests them. */
  const PasswordFields: seq<string> := ["currentPassword", "newPassword", "confirmPassword"]

  /** The error toasts of the password form. */
  datatype PasswordError = MissingPasswordField | NewPasswordsDoNotMatch

  /** The success toasts the two simulated saves show. */
  datatype Notice = ProfileUpdated | PasswordUpdated

  /** The new password and its confirmation are the same value. */
  predicate NewPasswordsAgree(p: Record) {
    Get(p, "newPassword") == Get(p, "confirmPassword")
  }

  /** The password submit's checks, in order: all three fields filled in, then the new two equal. */
  function ValidatePasswordChange(p: Record): (r: Outcome<PasswordError>)
    ensures r == Fail(MissingPasswordField) <==> !AllPresent(p, PasswordFields)
    ensures r == Fail(NewPasswordsDoNotMatch) <==> AllPresent(p, PasswordFields) && !NewPasswordsAgree(p)
    ensures r == Pass <==> AllPresent(p, PasswordFields) && NewPasswordsAgree(p)
  {
    if FirstMissing(p, PasswordFields).Some? then Fail(MissingPasswordField)
    else if Get(p, "newPassword") != Get(p, "confirmPassword") then Fail(NewPasswordsDoNotMatch)
    else Pass
  }

  /**
   * The current password is only checked for being filled in: replacing it by
   * any other filled-in value never changes the outcome.
   */
  lemma CurrentPasswordNotCompared(p: Record, v: Value)
    requires !Falsy(v) && !Falsy(Get(p, "currentPassword"))
    ensures ValidatePasswordChange(Assign(p, "currentPassword", v)) == ValidatePasswordChange(p)
  {
    var q := Assign(p, "currentPassword", v);
    assert PasswordFields[0] == "currentPassword";
    assert forall i :: 1 <= i < |PasswordFields| ==> Get(q, PasswordFields[i]) == Get(p, PasswordFields[i]);
    assert AllPresent(q, PasswordFields) <==> AllPresent(p, PasswordFields);
  }

  /** The empty password record is rejected, so a completed change cannot be resubmitted as is. */
  lemma EmptyPasswordDataIsIncomplete()
    ensures ValidatePasswordChange(EmptyPasswordData) == Fail(MissingPasswordField)
  {
    assert Get(EmptyPasswordData, PasswordFields[0]) == Str("");
  }

  class ProfilePage {
    var userData: Record
    var passwordData: Record
    var isSubmitting: bool
    var isPasswordSubmitting: bool
    /** Simulated profile saves scheduled and not yet fired. */
    var profileTimers: nat
    /** Simulated password saves scheduled and not yet fired. */
    var passwordTimers: nat

    constructor ()
      ensures userData == InitialUserData && passwordData == EmptyPasswordData
      ensures !isSubmitting && !isPasswordSubmitting
      ensures profileTimers == 0 && passwordTimers == 0
    {
      userData := InitialUserData;
      passwordData := EmptyPasswordData;
      isSubmitting := false;
      isPasswordSubmitting := false;
      profileTimers := 0;
      passwordTimers := 0;
    }

    /** `handleProfileChange`: the input's `value` under its name; no other field changes. */
    method HandleProfileChange(target: Target)
      modifies this`userData
      ensures userData == Assign(old(userData), target.name, Str(target.value))
      ensures forall k :: k != target.name ==> Get(userData, k) == Get(old(userData), k)
    {
      userData := Assign(userData, target.name, Str(target.value));
    }

    /** `handlePasswordChange`: the input's `value` under its name; no other field changes. */
    method HandlePasswordChange(target: Target)
      modifies this`passwordData
      ensures passwordData == Assign(old(passwordData), target.name, Str(target.value))
      ensures forall k :: k != target.name ==> Get(passwordData, k) == Get(old(passwordData), k)
    {
      passwordData := Assign(passwordData, target.name, Str(target.value));
    }

    /** `handleProfileSubmit`: no check at all; it raises `isSubmitting` and schedules the save. */
    method HandleProfileSubmit()
      modifies this`isSubmitting, this`profileTimers
      ensures isSubmitting && profileTimers == old(profileTimers) + 1
    {
      isSubmitting := true;
      profileTimers := profileTimers + 1;
    }

    /** The profile save's timer: clears `isSubmitting` and reports success; the record is left as it is. */
    method OnProfileTimer() returns (notice: Notice)
      requires profileTimers > 0
      modifies this`isSubmitting, this`profileTimers
      ensures !isSubmitting && profileTimers == old(profileTimers) - 1
      ensures notice == ProfileUpdated
    {
      isSubmitting := false;
      profileTimers := profileTimers - 1;
      notice := ProfileUpdated;
    }

    /**
     * `handlePasswordSubmit` up to its timer: on a failed check it returns the
     * error toast and changes nothing; otherwise it raises
     * `isPasswordSubmitting` and schedules the save.
     */
    method HandlePasswordSubmit() returns (toast: Option<PasswordError>)
      modifies this`isPasswordSubmitting, this`passwordTimers
      ensures toast.Some? <==> ValidatePasswordChange(passwordData).Fail?
      ensures toast.Some? ==>
        toast.value == ValidatePasswordChange(passwordData).error
        && isPasswordSubmitting == old(isPasswordSubmitting) && passwordTimers == old(passwordTimers)
      ensures toast.None? ==> isPasswordSubmitting && passwordTimers == old(passwordTimers) + 1
    {
      var check := ValidatePasswordChange(passwordData);
      if check.Fail? {
        return Some(check.error);
      }
      isPasswordSubmitting := true;
      passwordTimers := passwordTimers + 1;
      toast := None;
    }

    /**
     * The password save's timer: clears `isPasswordSubmitting` and replaces the
     * record by a fresh one with the three fields empty, whatever was typed
     * meanwhile, then reports success.
     */
    method OnPasswordTimer() returns (notice: Notice)
      requires passwordTimers > 0
      modifies this`isPasswordSubmitting, this`passwordData, this`passwordTimers
      ensures !isPasswordSubmitting && passwordTimers == old(passwordTimers) - 1
      ensures passwordData == EmptyPasswordData
      ensures notice == PasswordUpdated
    {
      isPasswordSubmitting := false;
      passwordData := EmptyPasswordData;
      passwordTimers := passwordTimers - 1;
      notice := PasswordUpdated;
    }
  }
}
