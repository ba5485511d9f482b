/** The complaints page: the status and urgency badge colours, the labels
    shown for underscored values, and the complaint form with its submit
    handler. The submit handler is modelled once the awaited request has
    settled; whether it succeeded is a parameter. */
module Complaints {
  import opened Common

  datatype ComplaintForm = ComplaintForm(
    complaintType: string,
    latitude: real,
    longitude: real,
    description: string,
    urgency: string)

  /** The form's initial contents, which a successful submit restores. */
  const DefaultForm := ComplaintForm("overflowing_bin", 17.3850, 78.4867, "", "medium")

  const Red := "#ef4444"
  const Amber := "#f59e0b"
  const Green := "#10b981"
  const Blue := "#3b82f6"

  /** `getStatusColor`: a lookup with blue for anything not listed. */
  function StatusColor(status: string): (color: string)
    ensures color == Red <==> status == "open"
    ensures color == Amber <==> status == "in_progress"
    ensures color == Green <==> status == "resolved"
    ensures color == Blue <==> status !in {"open", "in_progress", "resolved"}
  {
    if status == "open" then Red
    else if status == "in_progress" then Amber
    else if status == "resolved" then Green
    else Blue
  }

  /** `getUrgencyColor`: a lookup with blue for anything not listed, so a
      low urgency and an unknown one look alike. */
  function UrgencyColor(urgency: string): (color: string)
    ensures color == Red <==> urgency == "high"
    ensures color == Amber <==> urgency == "medium"
    ensures color == Blue <==> urgency !in {"high", "medium"}
    ensures color != Green
  {
    if urgency == "high" then Red
    else if urgency == "medium" then Amber
    else Blue
  }

  /** `value.replace(/_/g, ' ')`: every underscore becomes a space and
      nothing else changes. */
  function Label(value: string): (r: string)
    ensures |r| == |value| && '_' !in r
    ensures forall i :: 0 <= i < |value| ==> (value[i] == '_' ==> r[i] == ' ') && (value[i] != '_' ==> r[i] == value[i])
  {
    ReplaceChar(value, '_', ' ')
  }

  /** A label is its own label, and a value without underscores is its own label. */
  lemma LabelIdempotent(value: string)
    ensures Label(Label(value)) == Label(value)
    ensures '_' !in value ==> Label(value) == value
  {
    assert forall i :: 0 <= i < |value| ==> Label(value)[i] != '_';
  }

  /** A form field the inputs edit. */
  datatype FormEdit =
    | SetType(complaintType: string)
    | SetUrgency(urgency: string)
    | SetLatitude(latitude: real)
    | SetLongitude(longitude: real)
    | SetDescription(description: string)

  class ComplaintsPage {
    var showForm: bool
    var formData: ComplaintForm
    /** The forms sent to the create request, in order. */
    var submitted: seq<ComplaintForm>
    /** How many times the complaint list was requested. */
    var fetches: nat

    /** The page after its mount effect has requested the list once. */
    constructor()
      ensures !showForm && formData == DefaultForm && submitted == [] && fetches == 1
    {
      showForm := false;
      formData := DefaultForm;
      submitted := [];
      fetches := 1;
    }

    /** The "New Complaint" / "Cancel" button. */
    method ToggleForm()
      modifies this
      ensures showForm == !old(showForm)
      ensures formData == old(formData) && submitted == old(submitted) && fetches == old(fetches)
    {
      showForm := !showForm;
    }

    /** An input's `onChange`: the one field takes the new value. */
    method Edit(edit: FormEdit)
      modifies this
      ensures edit.SetType? ==> formData == old(formData).(complaintType := edit.complaintType)
      ensures edit.SetUrgency? ==> formData == old(formData).(urgency := edit.urgency)
      ensures edit.SetLatitude? ==> formData == old(formData).(latitude := edit.latitude)
      ensures edit.SetLongitude? ==> formData == old(formData).(longitude := edit.longitude)
      ensures edit.SetDescription? ==> formData == old(formData).(description := edit.description)
      ensures showForm == old(showForm) && submitted == old(submitted) && fetches == old(fetches)
    {
      match edit {
        case SetType(t) => formData := formData.(complaintType := t);
        case SetUrgency(u) => formData := formData.(urgency := u);
        case SetLatitude(x) => formData := formData.(latitude := x);
        case SetLongitude(y) => formData := formData.(longitude := y);
        case SetDescription(d) => formData := formData.(description := d);
      }
    }

    /** `handleSubmit`: the form is sent; success hides the form, restores
        the default contents and requests the list again; failure only logs. */
    method HandleSubmit(succeeded: bool)
      modifies this
      ensures submitted == old(submitted) + [old(formData)]
      ensures succeeded ==> !showForm && formData == DefaultForm && fetches == old(fetches) + 1
      ensures !succeeded ==> showForm == old(showForm) && formData == old(formData) && fetches == old(fetches)
    {
      submitted := submitted + [formData];
      if succeeded {
        showForm := false;
        formData := DefaultForm;
        fetches := fetches + 1;
      }
    }
  }
}
