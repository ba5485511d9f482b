/** The signup page: the form fields, the validation order of
    `handleSubmit`, and the page state it leaves behind. */
module Signup {
  import opened Common

  datatype SignupForm = SignupForm(name: string, email: string, password: string, confirmPassword: string, role: string)

  datatype Field = NameField | EmailField | PasswordField | ConfirmPasswordField | RoleField

  const DefaultRole := "viewer"
  const MismatchMessage := "Passwords do not match"
  const ShortPasswordMessage := "Password must be at least 6 characters"
  const MinPasswordLength := 6
  const CreatedAlert := "Account created! Please check your email to verify your account."

  /** The form before any typing: every text empty and the role 'viewer'. */
  const EmptyForm := SignupForm("", "", "", "", DefaultRole)

  /** `handleChange`: the named field takes the typed value, the others keep theirs. */
  function WithField(form: SignupForm, field: Field, value: string): (r: SignupForm)
    ensures field == NameField ==> r == form.(name := value)
    ensures field == EmailField ==> r == form.(email := value)
    ensures field == PasswordField ==> r == form.(password := value)
    ensures field == ConfirmPasswordField ==> r == form.(confirmPassword := value)
    ensures field == RoleField ==> r == form.(role := value)
  {
    match field
    case NameField => form.(name := value)
    case EmailField => form.(email := value)
    case PasswordField => form.(password := value)
    case ConfirmPasswordField => form.(confirmPassword := value)
    case RoleField => form.(role := value)
  }

  /** A JavaScript string's `length`: its UTF-16 code units, so a character
      outside the Basic Multilingual Plane counts twice. */
  function Utf16Length(s: string): (n: nat)
    ensures |s| <= n <= 2 * |s|
    ensures (forall i :: 0 <= i < |s| ==> s[i] as int < 0x1_0000) ==> n == |s|
  {
    if s == [] then 0 else (if s[0] as int < 0x1_0000 then 1 else 2) + Utf16Length(s[1..])
  }

  /** Four letters and an emoji are five characters but six code units, so
      such a password passes the length check. */
  lemma EmojiCountsTwice()
    ensures |"abcd\U{1F600}"| == 5 && Utf16Length("abcd\U{1F600}") == 6
  {
    assert "abcd\U{1F600}"[1..] == "bcd\U{1F600}";
    assert "bcd\U{1F600}"[1..] == "cd\U{1F600}";
    assert "cd\U{1F600}"[1..] == "d\U{1F600}";
    assert "d\U{1F600}"[1..] == "\U{1F600}";
  }

  /** The two checks, mismatch first: the message shown, or none when the form may be sent. */
  function Validate(form: SignupForm): (r: Option<string>)
    ensures r.None? <==> form.password == form.confirmPassword && Utf16Length(form.password) >= MinPasswordLength
    ensures form.password != form.confirmPassword ==> r == Some(MismatchMessage)
    ensures form.password == form.confirmPassword && Utf16Length(form.password) < MinPasswordLength ==>
      r == Some(ShortPasswordMessage)
  {
    if form.password != form.confirmPassword then Some(MismatchMessage)
    else if Utf16Length(form.password) < MinPasswordLength then Some(ShortPasswordMessage)
    else None
  }

  /** What `signUp` is called with: email, password and the name and role as metadata. */
  datatype SignUpRequest = SignUpRequest(email: string, password: string, name: string, role: string)

  /** What awaiting `signUp` yields: an object whose `error` may be set, or
      `undefined`, which the destructuring assignment cannot unpack. */
  datatype SignUpReply = Reply(error: Option<string>) | Undefined

  class SignupPage {
    var form: SignupForm
    var error: string
    var loading: bool
    var location: string
    var alerts: seq<string>
    var requests: seq<SignUpRequest>

    constructor(location: string)
      ensures form == EmptyForm && error == "" && !loading
      ensures this.location == location && alerts == [] && requests == []
    {
      form := EmptyForm;
      error := "";
      loading := false;
      this.location := location;
      alerts := [];
      requests := [];
    }

    method HandleChange(field: Field, value: string)
      modifies this
      ensures form == WithField(old(form), field, value)
      ensures error == old(error) && loading == old(loading) && location == old(location)
      ensures alerts == old(alerts) && requests == old(requests)
    {
      form := WithField(form, field, value);
    }

    /** `handleSubmit`. `threw` reports the rejected promise when the reply is
        `undefined`; the page state then stays as it was after the call began. */
    method HandleSubmit(reply: SignUpReply) returns (threw: bool)
      modifies this
      ensures form == old(form)
      ensures Validate(old(form)).Some? ==>
        error == Validate(old(form)).value && loading == old(loading) && requests == old(requests)
        && location == old(location) && alerts == old(alerts) && !threw
      ensures Validate(old(form)).None? ==>
        requests == old(requests) + [SignUpRequest(form.email, form.password, form.name, form.role)]
      ensures Validate(old(form)).None? && reply.Undefined? ==>
        threw && error == "" && loading && location == old(location) && alerts == old(alerts)
      ensures Validate(old(form)).None? && reply.Reply? && reply.error.Some? ==>
        !threw && error == reply.error.value && !loading && location == old(location) && alerts == old(alerts)
      ensures Validate(old(form)).None? && reply.Reply? && reply.error.None? ==>
        !threw && error == "" && loading && location == "/login" && alerts == old(alerts) + [CreatedAlert]
    {
      threw := false;
      error := "";
      var problem := Validate(form);
      if problem.Some? {
        error := problem.value;
        return;
      }
      loading := true;
      requests := requests + [SignUpRequest(form.email, form.password, form.name, form.role)];
      match reply
      case Undefined =>
        threw := true;
      case Reply(e) =>
        if e.Some? {
          error := e.value;
          loading := false;
        } else {
          alerts := alerts + [CreatedAlert];
          location := "/login";
        }
    }
  }

  /** A form left at its defaults sends the role 'viewer'. */
  lemma UntouchedRoleIsViewer(edits: seq<(Field, string)>)
    requires forall k :: 0 <= k < |edits| ==> edits[k].0 != RoleField
    ensures ApplyEdits(EmptyForm, edits).role == DefaultRole
  {
    EditsKeepRole(EmptyForm, edits);
  }

  /** The form after a sequence of `handleChange` events. */
  function ApplyEdits(form: SignupForm, edits: seq<(Field, string)>): SignupForm
    decreases |edits|
  {
    if edits == [] then form else ApplyEdits(WithField(form, edits[0].0, edits[0].1), edits[1..])
  }

  lemma {:induction false} EditsKeepRole(form: SignupForm, edits: seq<(Field, string)>)
    requires forall k :: 0 <= k < |edits| ==> edits[k].0 != RoleField
    ensures ApplyEdits(form, edits).role == form.role
    decreases |edits|
  {
    if edits != [] {
      assert forall k :: 0 <= k < |edits[1..]| ==> edits[1..][k] == edits[k + 1];
      EditsKeepRole(WithField(form, edits[0].0, edits[0].1), edits[1..]);
    }
  }
}
