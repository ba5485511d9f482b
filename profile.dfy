/** The profile page: the name prompt for new users and the two-step phone
    verification (enter a number and send a code, then enter the code). Each
    handler is modelled once its awaited call has settled; the outcome of
    that call is a parameter. */
module Profile {
  import opened Common
  import opened AuthContext

  datatype Message = Message(kind: string, text: string)

  const NoMessage := Message("", "")

  /** How an awaited backend call settled: success, or a thrown error whose
      `response.data.detail` may be present. */
  datatype CallOutcome = Succeeded | Failed(detail: Option<string>)

  /** The calls the page makes through the context. */
  datatype BackendCall =
    | UpdateName(name: string)
    | RequestOtp(phone: string)
    | VerifyOtp(phone: string, otp: string)
    | UpdateArea(area: string)

  const InputStep := 1
  const VerifyStep := 2

  /** The characters `String.prototype.trim` removes that the model covers. */
  predicate IsSpace(c: char) {
    c == ' ' || c == '\t' || c == '\n' || c == '\r'
  }

  function TrimStart(s: string): (r: string)
    ensures |r| <= |s| && r == s[|s| - |r|..]
    ensures r != [] ==> !IsSpace(r[0])
    ensures forall i :: 0 <= i < |s| - |r| ==> IsSpace(s[i])
  {
    if s != [] && IsSpace(s[0]) then TrimStart(s[1..]) else s
  }

  function TrimEnd(s: string): (r: string)
    ensures |r| <= |s| && r == s[..|r|]
    ensures r != [] ==> !IsSpace(r[|r| - 1])
    ensures forall i :: |r| <= i < |s| ==> IsSpace(s[i])
  {
    if s != [] && IsSpace(s[|s| - 1]) then TrimEnd(s[..|s| - 1]) else s
  }

  function Trim(s: string): (r: string) {
    TrimEnd(TrimStart(s))
  }

  /** `!name.trim()` holds exactly for names made only of spaces. */
  lemma {:induction false} TrimEmptyIffBlank(s: string)
    ensures Trim(s) == "" <==> forall i :: 0 <= i < |s| ==> IsSpace(s[i])
  {
    var t := TrimStart(s);
    if t != [] {
      assert t[0] == s[|s| - |t|];
    }
  }

  /** The error text a failed call shows: the server's detail, else the handler's default. */
  function ErrorText(detail: Option<string>, fallback: string): (text: string)
    ensures TruthyStr(detail) ==> text == detail.value
    ensures !TruthyStr(detail) ==> text == fallback
  {
    if TruthyStr(detail) then detail.value else fallback
  }

  /** `user?.key || ''` for a text field of the user object. */
  function TextOr(user: Option<JsObject>, key: string): (r: string)
    ensures GetOpt(user, key).Str? ==> r == GetOpt(user, key).s
    ensures !GetOpt(user, key).Str? ==> r == ""
  {
    match GetOpt(user, key)
    case Str(s) => s
    case _ => ""
  }

  class ProfilePage {
    var name: string
    var phone: string
    var area: string
    var otp: string
    var step: int
    var message: Message
    var isSaving: bool
    var isNewUser: bool
    /** The calls made so far, in order. */
    var calls: seq<BackendCall>

    ghost predicate Valid()
      reads this
    {
      step == InputStep || step == VerifyStep
    }

    /** The page's initial state for the context's user. */
    constructor(user: Option<JsObject>)
      ensures Valid()
      ensures name == TextOr(user, "name") && phone == TextOr(user, "phone") && area == TextOr(user, "area")
      ensures otp == "" && step == InputStep && message == NoMessage && !isSaving && !isNewUser && calls == []
    {
      name := TextOr(user, "name");
      phone := TextOr(user, "phone");
      area := TextOr(user, "area");
      otp := "";
      step := InputStep;
      message := NoMessage;
      isSaving := false;
      isNewUser := false;
      calls := [];
    }

    /** The effect that runs when the user changes: a user without a name
        marks the page as a new user's; nothing ever clears it here. */
    method UserChanged(user: Option<JsObject>)
      requires Valid()
      modifies this
      ensures Valid()
      ensures isNewUser == (old(isNewUser) || (user.Some? && !Truthy(Get(user.value, "name"))))
      ensures name == old(name) && phone == old(phone) && area == old(area) && otp == old(otp)
      ensures step == old(step) && message == old(message) && isSaving == old(isSaving) && calls == old(calls)
    {
      if user.Some? && !Truthy(Get(user.value, "name")) {
        isNewUser := true;
      }
    }

    /** `handleSaveName`: a blank name does nothing at all; otherwise the
        trimmed name is saved, and only success clears the new-user flag. */
    method HandleSaveName(outcome: CallOutcome)
      requires Valid()
      modifies this
      ensures Valid()
      ensures name == old(name) && phone == old(phone) && area == old(area) && otp == old(otp) && step == old(step)
      ensures Trim(old(name)) == "" ==>
        message == old(message) && isSaving == old(isSaving) && isNewUser == old(isNewUser) && calls == old(calls)
      ensures Trim(old(name)) != "" ==> calls == old(calls) + [UpdateName(Trim(old(name)))] && !isSaving
      ensures Trim(old(name)) != "" && outcome.Succeeded? ==>
        !isNewUser && message == Message("success", "Name saved successfully!")
      ensures Trim(old(name)) != "" && outcome.Failed? ==>
        isNewUser == old(isNewUser) && message == Message("error", "Failed to save name.")
    {
      var trimmed := Trim(name);
      if trimmed == "" {
        return;
      }
      isSaving := true;
      message := NoMessage;
      calls := calls + [UpdateName(trimmed)];
      if outcome.Succeeded? {
        isNewUser := false;
        message := Message("success", "Name saved successfully!");
      } else {
        message := Message("error", "Failed to save name.");
      }
      isSaving := false;
    }

    /** `handleSendOtp`: success moves to the code step; failure keeps the step. */
    method HandleSendOtp(outcome: CallOutcome)
      requires Valid()
      modifies this
      ensures Valid()
      ensures name == old(name) && phone == old(phone) && area == old(area) && otp == old(otp)
      ensures isNewUser == old(isNewUser) && !isSaving
      ensures calls == old(calls) + [RequestOtp(old(phone))]
      ensures outcome.Succeeded? ==> step == VerifyStep && message == Message("success", "Verification code sent!")
      ensures outcome.Failed? ==>
        step == old(step) && message == Message("error", ErrorText(outcome.detail, "Failed to send code."))
    {
      isSaving := true;
      message := NoMessage;
      calls := calls + [RequestOtp(phone)];
      if outcome.Succeeded? {
        step := VerifyStep;
        message := Message("success", "Verification code sent!");
      } else {
        message := Message("error", ErrorText(outcome.detail, "Failed to send code."));
      }
      isSaving := false;
    }

    /** `handleVerifyOtp`: success returns to the number step; failure keeps the step. */
    method HandleVerifyOtp(outcome: CallOutcome)
      requires Valid()
      modifies this
      ensures Valid()
      ensures name == old(name) && phone == old(phone) && area == old(area) && otp == old(otp)
      ensures isNewUser == old(isNewUser) && !isSaving
      ensures calls == old(calls) + [VerifyOtp(old(phone), old(otp))]
      ensures outcome.Succeeded? ==> step == InputStep && message == Message("success", "Phone verified successfully!")
      ensures outcome.Failed? ==>
        step == old(step) && message == Message("error", ErrorText(outcome.detail, "Invalid code."))
    {
      isSaving := true;
      message := NoMessage;
      calls := calls + [VerifyOtp(phone, otp)];
      if outcome.Succeeded? {
        step := InputStep;
        message := Message("success", "Phone verified successfully!");
      } else {
        message := Message("error", ErrorText(outcome.detail, "Invalid code."));
      }
      isSaving := false;
    }

    /** The phone form's submit: step 1 sends a code, any other step verifies one. */
    method SubmitPhoneForm(outcome: CallOutcome)
      requires Valid()
      modifies this
      ensures Valid()
      ensures old(step) == InputStep ==> calls == old(calls) + [RequestOtp(old(phone))]
      ensures old(step) != InputStep ==> calls == old(calls) + [VerifyOtp(old(phone), old(otp))]
      ensures outcome.Succeeded? ==> step == (if old(step) == InputStep then VerifyStep else InputStep)
      ensures outcome.Failed? ==> step == old(step)
    {
      if step == InputStep {
        HandleSendOtp(outcome);
      } else {
        HandleVerifyOtp(outcome);
      }
    }

    /** "Change phone number" goes back to the number step and changes nothing else. */
    method ChangePhoneNumber()
      requires Valid()
      modifies this
      ensures Valid() && step == InputStep
      ensures name == old(name) && phone == old(phone) && area == old(area) && otp == old(otp)
      ensures message == old(message) && isSaving == old(isSaving) && isNewUser == old(isNewUser) && calls == old(calls)
    {
      step := InputStep;
    }

    /** `handleUpdateProfile`: saves the area; the step is untouched. */
    method HandleUpdateProfile(outcome: CallOutcome)
      requires Valid()
      modifies this
      ensures Valid()
      ensures name == old(name) && phone == old(phone) && area == old(area) && otp == old(otp)
      ensures step == old(step) && isNewUser == old(isNewUser) && !isSaving
      ensures calls == old(calls) + [UpdateArea(old(area))]
      ensures outcome.Succeeded? ==> message == Message("success", "Profile updated!")
      ensures outcome.Failed? ==> message == Message("error", "Failed to update profile.")
    {
      isSaving := true;
      message := NoMessage;
      calls := calls + [UpdateArea(area)];
      if outcome.Succeeded? {
        message := Message("success", "Profile updated!");
      } else {
        message := Message("error", "Failed to update profile.");
      }
      isSaving := false;
    }
  }
}
