/**
 * The business create/edit form: its field state, the change handler that
 * routes an input's name to a top-level field or to one day of the opening
 * hours, and the submit handler that saves the form.
 */
module Forms {
  import opened Wrappers
  import opened Strings
  import Auth

  /** The top-level fields of the form; `hours` holds the days. */
  const TopLevelFields: set<string> :=
    {"name", "description", "category", "address", "city", "state", "zipCode", "phone", "email", "website"}

  /** The days of the nested `hours` object. */
  const Days: set<string> :=
    {"monday", "tuesday", "wednesday", "thursday", "friday", "saturday", "sunday"}

  /** The name prefix that routes a change into `hours`. */
  const HoursPrefix := "hours."

  const BusinessesPath := "/api/businesses"
  const UpdatedMessage := "Business updated successfully"
  const CreatedMessage := "Business created successfully"
  const SaveFailedMessage := "Error saving business"

  /** `formData`: the top-level string fields by name, and the opening hours by day. */
  datatype FormData = FormData(fields: map<string, string>, hours: map<string, string>)

  datatype Verb = Post | Put

  /** One call to the HTTP client: verb, URL and the form sent as the body. */
  datatype Request = Request(verb: Verb, url: string, body: FormData)

  /** A notification shown to the user. */
  datatype Toast = SuccessToast(message: string) | ErrorToast(message: string)

  /** The form has exactly the fields and days it is declared with. */
  predicate WellShaped(f: FormData)
  {
    f.fields.Keys == TopLevelFields && f.hours.Keys == Days
  }

  /** The names the rendered inputs carry: every top-level field, and `hours.<day>` for every day. */
  predicate IsInputName(name: string)
  {
    name in TopLevelFields || exists d :: d in Days && name == HoursPrefix + d
  }

  /** The initial `formData`: every field and every day empty. */
  function InitialForm(): (f: FormData)
    ensures WellShaped(f)
    ensures forall k :: k in f.fields ==> f.fields[k] == ""
    ensures forall d :: d in f.hours ==> f.hours[d] == ""
  {
    FormData(map k | k in TopLevelFields :: "", map d | d in Days :: "")
  }

  /** `name.split('.')[1]` for a name starting `hours.`: the text after the first dot, up to the next one. */
  function DayOf(name: string): (day: string)
    requires StartsWith(name, HoursPrefix)
    ensures day == Segment(name[|HoursPrefix|..], '.')
    ensures '.' !in day
  {
    var rest := name[|HoursPrefix|..];
    assert name == "hours" + ['.'] + rest;
    SplitAfterPrefix("hours", rest, '.');
    SplitHead(rest, '.');
    Split(name, '.')[1]
  }

  /**
   * `handleChange`: a name starting `hours.` sets one day of the hours and
   * nothing else; any other name sets one top-level field and nothing else.
   */
  function Changed(form: FormData, name: string, value: string): (r: FormData)
    ensures StartsWith(name, HoursPrefix) ==>
      && r.fields == form.fields
      && r.hours.Keys == form.hours.Keys + {DayOf(name)}
      && r.hours[DayOf(name)] == value
      && forall d :: d in form.hours && d != DayOf(name) ==> r.hours[d] == form.hours[d]
    ensures !StartsWith(name, HoursPrefix) ==>
      && r.hours == form.hours
      && r.fields.Keys == form.fields.Keys + {name}
      && r.fields[name] == value
      && forall k :: k in form.fields && k != name ==> r.fields[k] == form.fields[k]
  {
    if StartsWith(name, HoursPrefix) then
      form.(hours := form.hours[DayOf(name) := value])
    else
      form.(fields := form.fields[name := value])
  }

  /** The input for a day routes its changes to that very day. */
  lemma {:induction false} DayOfInput(day: string)
    requires '.' !in day
    ensures StartsWith(HoursPrefix + day, HoursPrefix)
    ensures DayOf(HoursPrefix + day) == day
  {
    assert (HoursPrefix + day)[..|HoursPrefix|] == HoursPrefix;
    assert (HoursPrefix + day)[|HoursPrefix|..] == day;
    SegmentWithoutSeparator(day, '.');
  }

  /** A change coming from a rendered input keeps the form's shape: no field or day appears or vanishes. */
  lemma {:induction false} ChangeKeepsShape(form: FormData, name: string, value: string)
    requires WellShaped(form) && IsInputName(name)
    ensures WellShaped(Changed(form, name, value))
  {
    if name in TopLevelFields {
      assert !StartsWith(name, HoursPrefix);
    } else {
      var d :| d in Days && name == HoursPrefix + d;
      assert '.' !in d;
      DayOfInput(d);
    }
  }

  /** Two changes to the same input: the second one wins. */
  lemma LastChangeWins(form: FormData, name: string, v1: string, v2: string)
    ensures Changed(Changed(form, name, v1), name, v2) == Changed(form, name, v2)
  {
  }

  /** `if (businessId)`: an id is present when it is given and not empty. */
  predicate HasId(businessId: Option<string>)
  {
    businessId.Some? && businessId.value != ""
  }

  /** The one request `handleSubmit` makes: PUT to the business when editing, POST to the collection otherwise. */
  function SaveRequest(businessId: Option<string>, form: FormData): (r: Request)
    ensures r.body == form
    ensures r.verb == Put <==> HasId(businessId)
    ensures HasId(businessId) ==> r.url == BusinessesPath + "/" + businessId.value
    ensures !HasId(businessId) ==> r.url == BusinessesPath
  {
    if HasId(businessId) then Request(Put, BusinessesPath + "/" + businessId.value, form)
    else Request(Post, BusinessesPath, form)
  }

  /** The toast `handleSubmit` shows once the request settles. */
  function SubmitToast(businessId: Option<string>, succeeded: bool): (t: Toast)
    ensures t.SuccessToast? <==> succeeded
    ensures !succeeded ==> t.message == SaveFailedMessage
    ensures succeeded ==> t.message == (if HasId(businessId) then UpdatedMessage else CreatedMessage)
  {
    if !succeeded then ErrorToast(SaveFailedMessage)
    else if HasId(businessId) then SuccessToast(UpdatedMessage)
    else SuccessToast(CreatedMessage)
  }

  /** The submit button's label. */
  function SubmitLabel(loading: bool, businessId: Option<string>): (caption: string)
    ensures loading ==> caption == "Saving..."
    ensures !loading && HasId(businessId) ==> caption == "Update Business"
    ensures !loading && !HasId(businessId) ==> caption == "Create Business"
  {
    if loading then "Saving..." else if HasId(businessId) then "Update Business" else "Create Business"
  }

  /** The `BusinessForm` component's state and handlers. */
  class BusinessForm {
    const businessId: Option<string>
    var formData: FormData
    var loading: bool
    var lastNav: Option<string>
    /** Every request sent through the HTTP client, oldest first. */
    var requests: seq<Request>
    var toasts: seq<Toast>
    /** Every value written to `loading`, oldest first. */
    ghost var loadingWrites: seq<bool>

    constructor (businessId: Option<string>)
      ensures this.businessId == businessId
      ensures formData == InitialForm() && !loading && lastNav.None?
      ensures requests == [] && toasts == [] && loadingWrites == []
    {
      this.businessId := businessId;
      formData := InitialForm();
      loading := false;
      lastNav := None;
      requests := [];
      toasts := [];
      loadingWrites := [];
    }

    /** The effect on `initialData`: when given, it replaces the whole form. */
    method ReceiveInitialData(initialData: Option<FormData>)
      modifies this`formData
      ensures formData == if initialData.Some? then initialData.value else old(formData)
    {
      if initialData.Some? {
        formData := initialData.value;
      }
    }

    /** `handleChange` for the input `name` taking the value `value`. */
    method HandleChange(name: string, value: string)
      modifies this`formData
      ensures formData == Changed(old(formData), name, value)
    {
      formData := Changed(formData, name, value);
    }

    /**
     * `handleSubmit`, given whether the request succeeds: `loading` goes true,
     * exactly one request is made, a toast is shown, the router goes to the
     * dashboard only on success, and `loading` goes false again either way.
     */
    method HandleSubmit(succeeds: bool)
      modifies this`loading, this`lastNav, this`requests, this`toasts, this`loadingWrites
      ensures requests == old(requests) + [SaveRequest(businessId, formData)]
      ensures loadingWrites == old(loadingWrites) + [true, false]
      ensures !loading
      ensures toasts == old(toasts) + [SubmitToast(businessId, succeeds)]
      ensures lastNav == if succeeds then Some(Auth.DashboardRoute) else old(lastNav)
    {
      loading := true;
      loadingWrites := loadingWrites + [true];
      requests := requests + [SaveRequest(businessId, formData)];
      toasts := toasts + [SubmitToast(businessId, succeeds)];
      if succeeds {
        lastNav := Some(Auth.DashboardRoute);
      }
      loading := false;
      loadingWrites := loadingWrites + [false];
    }
  }
}
