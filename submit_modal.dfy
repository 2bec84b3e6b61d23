/**
  * The "submit a compatibility report" dialog: the SoC suggestions, the GitHub
  * sign-in handshake received by `postMessage`, the editable rows of tested
  * SoCs, and the checks `handleSubmit` runs before it sends anything.
  */
module SubmitModal {
  import opened Wrappers
  import opened Text
  import opened Seqs

  // ---------------------------------------------------------------------------
  // SoC suggestions
  // ---------------------------------------------------------------------------

  /** The suggestions offered when the list yields none. */
  const DefaultSocs: seq<string> := ["SD 888", "Snapdragon 8 Gen 1", "Dimensity 9200"]

  /** An entry that survives `filter(Boolean)`, `trim` and the empty-string filter. */
  predicate Offered(o: Option<string>) {
    o.Some? && Trim(o.value) != ""
  }

  /** The filter/trim/filter pipeline, one entry at a time. */
  function CleanOptions(socOptions: seq<Option<string>>): (r: seq<string>)
    ensures forall x :: x in r ==> exists o :: o in socOptions && Offered(o) && Trim(o.value) == x
    ensures forall o :: o in socOptions && Offered(o) ==> Trim(o.value) in r
  {
    if socOptions == [] then []
    else
      var o, rest := socOptions[0], CleanOptions(socOptions[1..]);
      assert forall q :: q in socOptions <==> q == o || q in socOptions[1..];
      if Truthy(o) && Trim(o.value) != "" then
        var r := [Trim(o.value)] + rest;
        assert o in socOptions && Offered(o);
        assert forall x :: x in r ==> x == Trim(o.value) || x in rest;
        r
      else
        BlankNotOffered(o);
        rest
  }

  /** An empty entry, dropped by `filter(Boolean)`, would also be dropped after trimming. */
  lemma BlankNotOffered(o: Option<string>)
    requires !(Truthy(o) && Trim(o.value) != "")
    ensures !Offered(o)
  {
    if o.Some? && o.value == "" {
      TrimEmptyIffBlank(o.value);
    }
  }

  /** `Array.from(new Set(xs))`: each value once, where it first occurs. */
  function Unique(xs: seq<string>): (r: seq<string>)
    ensures forall x :: x in r <==> x in xs
    ensures forall i, j :: 0 <= i < j < |r| ==> r[i] != r[j]
  {
    if xs == [] then []
    else
      var init, last := Unique(xs[..|xs| - 1]), xs[|xs| - 1];
      assert xs == xs[..|xs| - 1] + [last];
      if last in init then init else init + [last]
  }

  /** Entries added later never reorder earlier ones: the suggestions keep first-seen order. */
  lemma {:induction false} UniquePrefix(xs: seq<string>, i: nat)
    requires i <= |xs|
    ensures Unique(xs[..i]) <= Unique(xs)
    decreases |xs| - i
  {
    if i < |xs| {
      var init := xs[..|xs| - 1];
      assert init[..i] == xs[..i];
      UniquePrefix(init, i);
    } else {
      assert xs[..i] == xs;
    }
  }

  /** `mergedSocOptions`: the offered names, trimmed, once each; the defaults when none is offered. */
  function MergedSocOptions(socOptions: seq<Option<string>>): (r: seq<string>)
    ensures r != []
    ensures forall i, j :: 0 <= i < j < |r| ==> r[i] != r[j]
    ensures (exists o :: o in socOptions && Offered(o)) ==>
              && (forall o :: o in socOptions && Offered(o) ==> Trim(o.value) in r)
              && (forall x :: x in r ==> exists o :: o in socOptions && Offered(o) && Trim(o.value) == x)
    ensures (forall o :: o in socOptions ==> !Offered(o)) ==> r == DefaultSocs
  {
    var unique := Unique(CleanOptions(socOptions));
    if |unique| > 0 then
      assert unique[0] in CleanOptions(socOptions);
      unique
    else
      assert forall o :: o in socOptions ==> !Offered(o) by {
        forall o | o in socOptions ensures !Offered(o) || Trim(o.value) in unique {
        }
      }
      DefaultSocs
  }

  // ---------------------------------------------------------------------------
  // GitHub sign-in
  // ---------------------------------------------------------------------------

  const AuthType: string := "armsx2/github-auth"
  const AuthErrorType: string := "armsx2/github-auth-error"
  const DefaultAuthError: string := "GitHub authentication failed."
  const PopupBlocked: string := "Please allow popups to sign in with GitHub."

  /** `event.data.payload`. */
  datatype AuthPayload = AuthPayload(username: Option<string>, message: Option<string>)

  /** `event.data`: its `type` and `payload`; `None` for a falsy `data`. */
  datatype MessageData = MessageData(kind: Option<string>, payload: Option<AuthPayload>)

  /** A `message` event. */
  datatype AuthEvent = AuthEvent(origin: string, data: Option<MessageData>)

  /** The four sign-in state cells. */
  datatype AuthState = AuthState(githubUser: string, isVerified: bool, isVerifying: bool, verificationError: string)

  /** Messages are taken from the API's own origin or from any origin mentioning "localhost". */
  predicate Accepts(apiOrigin: string, origin: string) {
    origin == apiOrigin || Contains(origin, "localhost")
  }

  /** `data.payload?.username || ""`. */
  function Username(d: MessageData): string {
    if d.payload.Some? then Or(d.payload.value.username, "") else ""
  }

  /** `data.payload?.message || "GitHub authentication failed."`. */
  function AuthError(d: MessageData): string {
    if d.payload.Some? then Or(d.payload.value.message, DefaultAuthError) else DefaultAuthError
  }

  /** `receiveAuth`, as a step of the sign-in state. */
  function AuthAfter(s: AuthState, apiOrigin: string, e: AuthEvent): (r: AuthState)
    ensures r.isVerified ==> r.githubUser != "" || s.isVerified
  {
    if !Accepts(apiOrigin, e.origin) || e.data.None? then s
    else if e.data.value.kind == Some(AuthType) then
      if Username(e.data.value) == "" then s
      else AuthState(Username(e.data.value), true, false, "")
    else if e.data.value.kind == Some(AuthErrorType) then
      AuthState(s.githubUser, false, false, AuthError(e.data.value))
    else s
  }

  /** A message from another origin changes nothing. */
  lemma ForeignMessageIgnored(s: AuthState, apiOrigin: string, e: AuthEvent)
    requires !Accepts(apiOrigin, e.origin)
    ensures AuthAfter(s, apiOrigin, e) == s
  {
  }

  /** A sign-in message verifies the user it names, and one without a username is ignored. */
  lemma SignInMessage(s: AuthState, apiOrigin: string, e: AuthEvent)
    requires Accepts(apiOrigin, e.origin) && e.data.Some? && e.data.value.kind == Some(AuthType)
    ensures var r := AuthAfter(s, apiOrigin, e);
      if Username(e.data.value) == "" then r == s
      else r.isVerified && !r.isVerifying && r.githubUser == Username(e.data.value) && r.verificationError == ""
  {
  }

  /** An error message clears verification and shows the payload's message or the default one. */
  lemma AuthErrorMessage(s: AuthState, apiOrigin: string, e: AuthEvent)
    requires Accepts(apiOrigin, e.origin) && e.data.Some? && e.data.value.kind == Some(AuthErrorType)
    ensures var r := AuthAfter(s, apiOrigin, e);
      && !r.isVerified && !r.isVerifying && r.githubUser == s.githubUser
      && r.verificationError == (if e.data.value.payload.Some? && Truthy(e.data.value.payload.value.message)
                                 then e.data.value.payload.value.message.value else DefaultAuthError)
  {
  }

  /** A verified user always has a non-empty name, whatever messages arrive. */
  predicate AuthInvariant(s: AuthState) {
    s.isVerified ==> s.githubUser != ""
  }

  lemma {:induction false} AuthInvariantKept(s: AuthState, apiOrigin: string, events: seq<AuthEvent>)
    requires AuthInvariant(s)
    ensures AuthInvariant(AuthAfterAll(s, apiOrigin, events))
    decreases |events|
  {
    if events != [] {
      AuthInvariantKept(AuthAfter(s, apiOrigin, events[0]), apiOrigin, events[1..]);
    }
  }

  /** A sequence of messages, received in order. */
  function AuthAfterAll(s: AuthState, apiOrigin: string, events: seq<AuthEvent>): AuthState
    decreases |events|
  {
    if events == [] then s else AuthAfterAll(AuthAfter(s, apiOrigin, events[0]), apiOrigin, events[1..])
  }

  // ---------------------------------------------------------------------------
  // The form
  // ---------------------------------------------------------------------------

  /** One tested-SoC row of the form. */
  datatype SocRow = SocRow(socName: string, vulkanStatus: string, openglStatus: string)

  /** The key `updateSoc` sets. */
  datatype SocKey = SocName | VulkanStatus | OpenglStatus

  /** `formData`. */
  datatype Form = Form(title: string, titleId: string, region: string, status: string, version: string,
                       notes: string, testedSocs: seq<SocRow>)

  /** A new row: no name, Playable on both renderers. */
  const DefaultRow: SocRow := SocRow("", "Playable", "Playable")

  /** The form as the dialog opens and after `resetForm`. */
  const InitialForm: Form := Form("", "", "NTSC-U", "Playable", "", "", [DefaultRow])

  function WithKey(row: SocRow, key: SocKey, value: string): (r: SocRow)
    ensures key == SocName ==> r == row.(socName := value)
    ensures key == VulkanStatus ==> r == row.(vulkanStatus := value)
    ensures key == OpenglStatus ==> r == row.(openglStatus := value)
  {
    match key
    case SocName => row.(socName := value)
    case VulkanStatus => row.(vulkanStatus := value)
    case OpenglStatus => row.(openglStatus := value)
  }

  /** `testedSocs.filter((_, idx) => idx !== index)`. */
  function RemoveAt(rows: seq<SocRow>, index: int): (r: seq<SocRow>)
    ensures 0 <= index < |rows| ==> |r| == |rows| - 1
    ensures !(0 <= index < |rows|) ==> r == rows
  {
    if 0 <= index < |rows| then rows[..index] + rows[index + 1..] else rows
  }

  /** Removal keeps the other rows, in order: those before the index in place, those after it
      shifted down by one, and the removed row is the only one lost. */
  lemma RemoveAtKeepsOthers(rows: seq<SocRow>, index: int)
    requires 0 <= index < |rows|
    ensures forall k :: 0 <= k < index ==> RemoveAt(rows, index)[k] == rows[k]
    ensures forall k :: index <= k < |rows| - 1 ==> RemoveAt(rows, index)[k] == rows[k + 1]
    ensures multiset(RemoveAt(rows, index)) + multiset{rows[index]} == multiset(rows)
  {
    assert rows == rows[..index] + [rows[index]] + rows[index + 1..];
  }

  /** The remove button is shown only on a form with more than one row. */
  predicate CanRemove(rows: seq<SocRow>) {
    |rows| > 1
  }

  /** Removing through the button never leaves the form without a row. */
  lemma OfferedRemovalKeepsARow(rows: seq<SocRow>, index: int)
    requires CanRemove(rows)
    ensures |RemoveAt(rows, index)| >= 1
  {
  }

  // ---------------------------------------------------------------------------
  // handleSubmit
  // ---------------------------------------------------------------------------

  const NotSignedIn: string := "Please sign in with GitHub before submitting."
  const NoUsername: string := "GitHub sign-in did not return a username. Please try again."
  const IncompleteSoc: string := "Every tested SoC entry must be fully filled out."
  const MissingPrefix: string := "Missing required fields: "
  const SaveFailed: string := "Unable to save your submission."
  const Thanks: string := "Thanks! Your compatibility report is live."
  const NetworkFailure: string := "Network error while sending your report. Please try again."

  /** The JSON body `handleSubmit` posts. */
  datatype Payload = Payload(title: string, titleId: string, region: string, status: string, version: string,
                             notes: string, testedSocs: seq<SocRow>, githubUser: string)

  /** The six fields that must not be empty, in the order they are reported. */
  datatype Required = TitleField | TitleIdField | RegionField | StatusField | VersionField | NotesField

  const RequiredFields: seq<Required> := [TitleField, TitleIdField, RegionField, StatusField, VersionField, NotesField]

  /** The JSON key of a required field, as shown in the error. */
  function KeyOf(f: Required): string {
    match f
    case TitleField => "title"
    case TitleIdField => "title-id"
    case RegionField => "region"
    case StatusField => "status"
    case VersionField => "version"
    case NotesField => "notes"
  }

  function FieldOf(p: Payload, f: Required): string {
    match f
    case TitleField => p.title
    case TitleIdField => p.titleId
    case RegionField => p.region
    case StatusField => p.status
    case VersionField => p.version
    case NotesField => p.notes
  }

  function IsEmptyIn(p: Payload): Required -> bool {
    (f: Required) => FieldOf(p, f) == ""
  }

  /** `requiredFields.filter((key) => !payload[key])`. */
  function Missing(p: Payload): (r: seq<Required>)
    ensures forall f :: f in r <==> FieldOf(p, f) == ""
  {
    var r := Filter(RequiredFields, IsEmptyIn(p));
    assert forall f :: f in RequiredFields by {
      forall f ensures f in RequiredFields {
        assert RequiredFields[IndexOf(f)] == f;
      }
    }
    r
  }

  /** `missing`, as the keys joined into the error. */
  function KeysOf(fields: seq<Required>): (r: seq<string>)
    ensures |r| == |fields|
    ensures forall k :: 0 <= k < |r| ==> r[k] == KeyOf(fields[k])
  {
    seq(|fields|, k requires 0 <= k < |fields| => KeyOf(fields[k]))
  }

  /** `cleanedSocs`: every name trimmed, the statuses as chosen. */
  function CleanSocs(rows: seq<SocRow>): (r: seq<SocRow>)
    ensures |r| == |rows|
    ensures forall k :: 0 <= k < |r| ==> r[k] == rows[k].(socName := Trim(rows[k].socName))
  {
    seq(|rows|, k requires 0 <= k < |rows| => rows[k].(socName := Trim(rows[k].socName)))
  }

  /** A cleaned row with an empty name or status. */
  predicate Incomplete(row: SocRow) {
    row.socName == "" || row.vulkanStatus == "" || row.openglStatus == ""
  }

  /** The payload, every text field trimmed. */
  function PayloadOf(form: Form, githubUser: string): Payload {
    Payload(Trim(form.title), Trim(form.titleId), Trim(form.region), Trim(form.status), Trim(form.version),
            Trim(form.notes), CleanSocs(form.testedSocs), Trim(githubUser))
  }

  /** Some cleaned row is incomplete: `cleanedSocs.find(...)` finds a row. */
  predicate AnyIncomplete(rows: seq<SocRow>) {
    exists k :: 0 <= k < |rows| && Incomplete(rows[k])
  }

  /** `Missing required fields: ` followed by the missing keys. */
  function MissingMessage(missing: seq<Required>): string {
    MissingPrefix + Join(KeysOf(missing), ", ")
  }

  /** The checks on the trimmed payload. */
  function CheckPayload(payload: Payload): (r: Result<Payload, string>)
    ensures r.Ok? ==> r.value == payload && Missing(payload) == [] && !AnyIncomplete(payload.testedSocs)
    ensures r.Ok? <==> Missing(payload) == [] && !AnyIncomplete(payload.testedSocs)
  {
    if AnyIncomplete(payload.testedSocs) then Err(IncompleteSoc)
    else
      var missing := Missing(payload);
      if |missing| > 0 then Err(MissingMessage(missing)) else Ok(payload)
  }

  /** The checks before the request: the payload to send, or the message that stops it. */
  function Validate(form: Form, isVerified: bool, githubUser: string): (r: Result<Payload, string>)
    ensures !isVerified ==> r == Err(NotSignedIn)
    ensures isVerified && Trim(githubUser) == "" ==> r == Err(NoUsername)
  {
    if !isVerified then Err(NotSignedIn)
    else if Trim(githubUser) == "" then Err(NoUsername)
    else CheckPayload(PayloadOf(form, githubUser))
  }

  /** A request can only be sent once every check passes: signed in with a non-blank name, every
      row complete once its name is trimmed, and the six fields non-blank. */
  lemma ValidateAccepts(form: Form, isVerified: bool, githubUser: string)
    ensures Validate(form, isVerified, githubUser).Ok? <==>
              && isVerified && Trim(githubUser) != ""
              && (forall k :: 0 <= k < |form.testedSocs| ==> !Incomplete(CleanSocs(form.testedSocs)[k]))
              && Missing(PayloadOf(form, githubUser)) == []
    ensures Validate(form, isVerified, githubUser).Ok? ==>
              var p := Validate(form, isVerified, githubUser).value;
              p.githubUser != "" && Missing(p) == [] && !AnyIncomplete(p.testedSocs)
  {
    if isVerified && Trim(githubUser) != "" {
      var payload := PayloadOf(form, githubUser);
      assert payload.testedSocs == CleanSocs(form.testedSocs);
    }
  }

  /** Missing fields are reported in the fixed order title, title-id, region, status, version, notes. */
  lemma MissingInOrder(p: Payload, i: nat, j: nat)
    requires i < j < |Missing(p)|
    ensures IndexOf(Missing(p)[i]) < IndexOf(Missing(p)[j])
  {
    RequiredFieldsOrdered();
    FilterSorted(RequiredFields, Before(), IsEmptyIn(p));
  }

  lemma RequiredFieldsOrdered()
    ensures SortedBy(RequiredFields, Before())
  {
    var r := RequiredFields;
    forall k | 0 <= k < |r| ensures IndexOf(r[k]) == k {
      if k == 0 { } else if k == 1 { } else if k == 2 { } else if k == 3 { } else if k == 4 { } else { }
    }
  }

  function Before(): (Required, Required) -> bool {
    (a: Required, b: Required) => IndexOf(a) < IndexOf(b)
  }

  /** The position of a field in the required list. */
  function IndexOf(f: Required): (r: nat)
    ensures r < |RequiredFields| && RequiredFields[r] == f
  {
    match f
    case TitleField => 0
    case TitleIdField => 1
    case RegionField => 2
    case StatusField => 3
    case VersionField => 4
    case NotesField => 5
  }

  /** `cleanedSocs.find(...)`: the index of the first incomplete row, if any. */
  method FindIncomplete(rows: seq<SocRow>) returns (found: Option<nat>)
    ensures found.None? <==> !AnyIncomplete(rows)
    ensures found.Some? ==> found.value < |rows| && Incomplete(rows[found.value])
    ensures found.Some? ==> forall m :: 0 <= m < found.value ==> !Incomplete(rows[m])
  {
    var k := 0;
    while k < |rows|
      invariant 0 <= k <= |rows|
      invariant forall m :: 0 <= m < k ==> !Incomplete(rows[m])
    {
      if Incomplete(rows[k]) {
        return Some(k);
      }
      k := k + 1;
    }
    return None;
  }

  /** The early returns of `handleSubmit`, in their order. */
  method CheckSubmission(form: Form, isVerified: bool, githubUser: string) returns (r: Result<Payload, string>)
    ensures r == Validate(form, isVerified, githubUser)
  {
    if !isVerified {
      return Err(NotSignedIn);
    }
    if Trim(githubUser) == "" {
      return Err(NoUsername);
    }
    var payload := PayloadOf(form, githubUser);
    var missingSoc := FindIncomplete(payload.testedSocs);
    if missingSoc.Some? {
      return Err(IncompleteSoc);
    }
    var missing := Missing(payload);
    if |missing| > 0 {
      return Err(MissingMessage(missing));
    }
    return Ok(payload);
  }

  /** The server's answer, or a failed request. */
  datatype Response = NetworkError | Replied(ok: bool, error: Option<string>)

  /** The two message cells after a submit. */
  datatype Messages = Messages(submissionError: string, successMessage: string)

  /** What `handleSubmit` leaves in the message cells. */
  function MessagesAfter(v: Result<Payload, string>, response: Response): (m: Messages)
    ensures v.Err? ==> m == Messages(v.error, "")
    ensures m.successMessage != "" <==> v.Ok? && response.Replied? && response.ok
    ensures m.successMessage == "" || m.submissionError == ""
  {
    if v.Err? then Messages(v.error, "")
    else match response
      case NetworkError => Messages(NetworkFailure, "")
      case Replied(ok, error) => if ok then Messages("", Thanks) else Messages(Or(error, SaveFailed), "")
  }

  /** The dialog's state. */
  class Dialog {
    const apiOrigin: string
    var formData: Form
    var githubUser: string
    var isVerified: bool
    var isVerifying: bool
    var verificationError: string
    var submissionError: string
    var successMessage: string
    var isSubmitting: bool

    function Auth(): AuthState
      reads this
    {
      AuthState(githubUser, isVerified, isVerifying, verificationError)
    }

    predicate Valid()
      reads this
    {
      AuthInvariant(Auth()) && |formData.testedSocs| >= 1
    }

    constructor (apiOrigin: string)
      ensures this.apiOrigin == apiOrigin && formData == InitialForm
      ensures Auth() == AuthState("", false, false, "")
      ensures submissionError == "" && successMessage == "" && !isSubmitting
      ensures Valid()
    {
      this.apiOrigin := apiOrigin;
      formData := InitialForm;
      githubUser := "";
      isVerified := false;
      isVerifying := false;
      verificationError := "";
      submissionError := "";
      successMessage := "";
      isSubmitting := false;
    }

    /** `receiveAuth`. */
    method ReceiveAuth(e: AuthEvent)
      modifies this
      ensures Auth() == AuthAfter(old(Auth()), apiOrigin, e)
      ensures formData == old(formData) && submissionError == old(submissionError)
      ensures successMessage == old(successMessage) && isSubmitting == old(isSubmitting)
      ensures old(Valid()) ==> Valid()
    {
      if e.origin != apiOrigin && !Contains(e.origin, "localhost") {
        return;
      }
      if e.data.None? {
        return;
      }
      var data := e.data.value;
      if data.kind == Some(AuthType) {
        var username := if data.payload.Some? then Or(data.payload.value.username, "") else "";
        if username == "" {
          return;
        }
        githubUser := username;
        isVerified := true;
        isVerifying := false;
        verificationError := "";
      } else if data.kind == Some(AuthErrorType) {
        isVerified := false;
        isVerifying := false;
        verificationError := if data.payload.Some? then Or(data.payload.value.message, DefaultAuthError)
                             else DefaultAuthError;
      }
    }

    /** `handleGithubVerification`; `popupOpened` is whether `window.open` returned a window. */
    method StartVerification(popupOpened: bool)
      modifies this
      ensures isVerifying == popupOpened
      ensures verificationError == (if popupOpened then "" else PopupBlocked)
      ensures successMessage == ""
      ensures githubUser == old(githubUser) && isVerified == old(isVerified) && formData == old(formData)
      ensures submissionError == old(submissionError) && isSubmitting == old(isSubmitting)
      ensures old(Valid()) ==> Valid()
    {
      isVerifying := true;
      verificationError := "";
      successMessage := "";
      if !popupOpened {
        isVerifying := false;
        verificationError := PopupBlocked;
      }
    }

    /** `updateSoc(index, key, value)` on a row the form shows. */
    method UpdateSoc(index: int, key: SocKey, value: string)
      requires 0 <= index < |formData.testedSocs|
      modifies this`formData
      ensures formData == old(formData).(testedSocs := old(formData.testedSocs)[index := WithKey(old(formData.testedSocs[index]), key, value)])
      ensures old(Valid()) ==> Valid()
    {
      var next := formData.testedSocs;
      next := next[index := WithKey(next[index], key, value)];
      formData := formData.(testedSocs := next);
    }

    /** `addSocRow`. */
    method AddSocRow()
      modifies this`formData
      ensures formData == old(formData).(testedSocs := old(formData.testedSocs) + [DefaultRow])
      ensures old(Valid()) ==> Valid()
    {
      formData := formData.(testedSocs := formData.testedSocs + [DefaultRow]);
    }

    /** `removeSocRow(index)`. */
    method RemoveSocRow(index: int)
      modifies this`formData
      ensures formData == old(formData).(testedSocs := RemoveAt(old(formData.testedSocs), index))
      ensures old(Valid()) && old(CanRemove(formData.testedSocs)) ==> Valid()
    {
      formData := formData.(testedSocs := RemoveAt(formData.testedSocs, index));
    }

    /** `resetForm`. */
    method ResetForm()
      modifies this
      ensures formData == InitialForm && Auth() == AuthState("", false, false, "")
      ensures submissionError == "" && successMessage == "" && isSubmitting == old(isSubmitting)
      ensures Valid()
    {
      formData := InitialForm;
      githubUser := "";
      isVerified := false;
      isVerifying := false;
      successMessage := "";
      submissionError := "";
      verificationError := "";
    }

    /** `handleSubmit`, with `response` standing for the outcome of the request if one is sent.
        Returns the payload sent, if any. */
    method HandleSubmit(response: Response) returns (sent: Option<Payload>)
      modifies this`submissionError, this`successMessage, this`isSubmitting
      ensures var v := Validate(formData, isVerified, githubUser);
        && (sent.Some? <==> v.Ok?)
        && (sent.Some? ==> sent.value == v.value)
        && Messages(submissionError, successMessage) == MessagesAfter(v, response)
        && isSubmitting == (if v.Ok? then false else old(isSubmitting))
    {
      submissionError := "";
      successMessage := "";
      var checked := CheckSubmission(formData, isVerified, githubUser);
      if checked.Err? {
        submissionError := checked.error;
        return None;
      }
      Send(checked.value, response);
      sent := Some(checked.value);
    }

    /** The request and its answer: `isSubmitting` is set for its duration, then the answer fills one
        of the message cells. */
    method Send(payload: Payload, response: Response)
      requires submissionError == "" && successMessage == ""
      modifies this`submissionError, this`successMessage, this`isSubmitting
      ensures Messages(submissionError, successMessage) == MessagesAfter(Ok(payload), response)
      ensures !isSubmitting
    {
      isSubmitting := true;
      match response {
        case NetworkError =>
          submissionError := NetworkFailure;
        case Replied(ok, error) =>
          if !ok {
            submissionError := Or(error, SaveFailed);
          } else {
            successMessage := Thanks;
          }
      }
      isSubmitting := false;
    }
  }
}
