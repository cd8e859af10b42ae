/** The submit handlers of the client's forms: the three create forms
    (AddUser, RegisterDonor, RegisterPatient), EditUser and Login. Each
    handler validates before it sends anything, clears the previous banner,
    and reports the outcome in `message` or `error`. */
module Forms {
  import opened Json
  import opened Http

  // ---------------------------------------------------------------------------
  // The create forms

  /** What distinguishes the three create forms. */
  datatype FormSpec = FormSpec(
    fields: seq<string>,      // the form's inputs, all starting as ''
    required: seq<string>,    // checked with `!form.f` before posting
    nullable: seq<string>,    // sent as `form.f || null`
    endpoint: string,
    requiredError: string,
    success: string,
    failure: string)

  function AddUserForm(): FormSpec {
    FormSpec(
      ["User_ID", "Name", "Date_of_Birth", "Medical_insurance", "Medical_history", "Street", "City", "State"],
      ["User_ID", "Name", "Date_of_Birth"],
      ["Medical_insurance", "Medical_history", "Street", "City", "State"],
      "/users",
      "User_ID, Name and Date_of_Birth are required.",
      "User created successfully!",
      "Failed to create user.")
  }

  function RegisterDonorForm(): FormSpec {
    FormSpec(
      ["Donor_ID", "organ_donated", "reason_of_donation", "Organization_ID", "User_ID"],
      ["Donor_ID", "organ_donated", "Organization_ID", "User_ID"],
      ["reason_of_donation"],
      "/donors",
      "Donor_ID, organ_donated, Organization_ID and User_ID are required.",
      "Donor registered successfully!",
      "Failed to register donor.")
  }

  function RegisterPatientForm(): FormSpec {
    FormSpec(
      ["Patient_ID", "organ_req", "reason_of_procurement", "Doctor_ID", "User_ID"],
      ["Patient_ID", "organ_req", "Doctor_ID", "User_ID"],
      ["reason_of_procurement"],
      "/patients",
      "Patient_ID, organ_req, Doctor_ID and User_ID are required.",
      "Patient registered successfully!",
      "Failed to register patient.")
  }

  /** The banner texts are non-empty, so whichever is set shows. */
  predicate TextsShow(spec: FormSpec) {
    spec.requiredError != "" && spec.success != "" && spec.failure != ""
  }

  /** Every input set to ''. */
  function EmptyForm(fields: seq<string>): (form: map<string, string>)
    ensures forall f :: f in form <==> f in fields
    ensures forall f :: f in form ==> form[f] == ""
  {
    map f | f in fields :: ""
  }

  /** `form.f` as text: an input the form does not hold reads as undefined,
      which is as falsy as ''. */
  function Text(form: map<string, string>, f: string): string {
    if f in form then form[f] else ""
  }

  /** `!form.a || !form.b || ...` is false. */
  predicate Complete(form: map<string, string>, required: seq<string>) {
    forall f :: f in required ==> Text(form, f) != ""
  }

  /** `{...form, f: form.f || null, ...}` for the nullable inputs. */
  function Payload(spec: FormSpec, form: map<string, string>): (p: map<string, Value>)
    ensures forall k :: k in p <==> k in form || k in spec.nullable
    ensures forall k :: k in form && k !in spec.nullable ==> p[k] == Str(form[k])
    ensures forall k :: k in spec.nullable ==>
      (p[k] == Null <==> Text(form, k) == "") && (Text(form, k) != "" ==> p[k] == Str(Text(form, k)))
    ensures forall k :: k in spec.nullable ==> p[k] != Str("")
  {
    map k | k in form.Keys + (set f | f in spec.nullable) ::
      if k in spec.nullable && Text(form, k) == "" then Null else Str(Text(form, k))
  }

  /** The create form's state. */
  datatype FormState = FormState(form: map<string, string>, loading: bool, message: string, error: Value)

  /** `onSubmit` given how the POST settles: returns the request sent, if
      any, and the new state. */
  function SubmitStep(spec: FormSpec, s: FormState, reply: Reply): (res: (Option<Request>, FormState))
    ensures res.0.None? <==> !Complete(s.form, spec.required)
    ensures res.0.None? ==> res.1 == FormState(s.form, s.loading, "", Str(spec.requiredError))
    ensures res.0.Some? ==> res.0.value == PostReq(spec.endpoint, Object(Payload(spec, s.form))) && !res.1.loading
    ensures res.0.Some? && reply.Ok? ==>
      res.1.form == EmptyForm(spec.fields) && res.1.message == spec.success && res.1.error == Str("")
    ensures res.0.Some? && reply.Failed? ==>
      res.1.form == s.form && res.1.message == "" && res.1.error == ErrorText(reply.err, spec.failure)
  {
    if !Complete(s.form, spec.required) then
      (None, FormState(s.form, s.loading, "", Str(spec.requiredError)))
    else
      var request := Some(PostReq(spec.endpoint, Object(Payload(spec, s.form))));
      match reply
      case Ok(_) => (request, FormState(EmptyForm(spec.fields), false, spec.success, Str("")))
      case Failed(err) => (request, FormState(s.form, false, "", ErrorText(err, spec.failure)))
  }

  /** After a submit exactly one banner shows: the success message, or an
      error (the validation text, the server's text or the default). */
  lemma SubmitShowsOneBanner(spec: FormSpec, s: FormState, reply: Reply)
    requires TextsShow(spec)
    ensures var t := SubmitStep(spec, s, reply).1;
      (t.message != "") != JsTruthy(t.error)
  {
  }

  /** The three create forms' texts are all non-empty, so each banner they set
      is visible (an empty message or error would render no banner at all). */
  lemma CreateFormsShowTexts()
    ensures TextsShow(AddUserForm()) && TextsShow(RegisterDonorForm()) && TextsShow(RegisterPatientForm())
  {
  }

  /** One create page. */
  class CreateForm {
    const spec: FormSpec
    var form: map<string, string>
    var loading: bool
    var message: string
    var error: Value

    function State(): FormState
      reads this
    {
      FormState(form, loading, message, error)
    }

    constructor(spec: FormSpec)
      ensures this.spec == spec
      ensures State() == FormState(EmptyForm(spec.fields), false, "", Str(""))
    {
      this.spec := spec;
      form := EmptyForm(spec.fields);
      loading := false;
      message := "";
      error := Str("");
    }

    /** `onChange`: `setForm({...form, [name]: value})` */
    method Change(name: string, value: string)
      modifies this
      ensures form == old(form)[name := value]
      ensures loading == old(loading) && message == old(message) && error == old(error)
    {
      form := form[name := value];
    }

    method Submit(reply: Reply) returns (request: Option<Request>)
      modifies this
      ensures (request, State()) == SubmitStep(spec, old(State()), reply)
    {
      message := "";
      error := Str("");
      if !Complete(form, spec.required) {
        error := Str(spec.requiredError);
        return None;
      }
      loading := true;
      request := Some(PostReq(spec.endpoint, Object(Payload(spec, form))));
      match reply {
        case Ok(_) =>
          message := spec.success;
          form := EmptyForm(spec.fields);
        case Failed(err) =>
          error := ErrorText(err, spec.failure);
      }
      loading := false;
    }
  }

  // ---------------------------------------------------------------------------
  // EditUser

  /** The edit form: name, email, role. */
  datatype Profile = Profile(name: Value, email: Value, role: Value)

  /** `const u = res.data || {}` then `{name: u.name || '', email: u.email || '',
      role: u.role || 'Staff'}`. */
  function LoadedProfile(data: Value): (p: Profile)
    ensures p.name == (if JsTruthy(Prop(data, "name")) then Prop(data, "name") else Str(""))
    ensures p.email == (if JsTruthy(Prop(data, "email")) then Prop(data, "email") else Str(""))
    ensures p.role == (if JsTruthy(Prop(data, "role")) then Prop(data, "role") else Str("Staff"))
    ensures JsTruthy(p.role)
    ensures !data.Object? ==> p == Profile(Str(""), Str(""), Str("Staff"))
  {
    var u := JsOr(data, Object(map[]));
    Profile(JsOr(Prop(u, "name"), Str("")), JsOr(Prop(u, "email"), Str("")), JsOr(Prop(u, "role"), Str("Staff")))
  }

  function ProfileBody(p: Profile): Value {
    Object(map["name" := p.name, "email" := p.email, "role" := p.role])
  }

  /** `{...form, [name]: value}` on the edit form: the body the form would send
      gets that key set to the typed text. The page's inputs are named `name`,
      `email` and `role`; any other name leaves the profile as it is. */
  function ProfileWith(p: Profile, name: string, value: string): (q: Profile)
    ensures name in ProfileBody(p).fields ==>
      ProfileBody(q).fields == ProfileBody(p).fields[name := Str(value)]
    ensures name !in ProfileBody(p).fields ==> q == p
  {
    if name == "name" then p.(name := Str(value))
    else if name == "email" then p.(email := Str(value))
    else if name == "role" then p.(role := Str(value))
    else p
  }

  /** `/users/${id}` */
  function UserPath(id: string): string {
    "/users/" + id
  }

  datatype EditState = EditState(
    form: Profile, loading: bool, saving: bool, error: Value, message: string,
    mounted: bool, scheduled: seq<string>)   // navigations queued with setTimeout

  /** The load's GET settles; nothing is written once unmounted. */
  function EditLoadStep(s: EditState, reply: Reply): (t: EditState)
    ensures !s.mounted ==> t == s
    ensures s.mounted ==> !t.loading && t.saving == s.saving && t.message == s.message && t.mounted
    ensures t.scheduled == s.scheduled
    ensures s.mounted && reply.Ok? ==> t.form == LoadedProfile(reply.data) && t.error == s.error
    ensures s.mounted && reply.Failed? ==> t.form == s.form && t.error == Str("Failed to load user.")
  {
    if !s.mounted then s
    else match reply
      case Ok(data) => s.(form := LoadedProfile(data), loading := false)
      case Failed(_) => s.(error := Str("Failed to load user."), loading := false)
  }

  /** `err?.response?.data?.message || 'Failed to update user.'` */
  function UpdateErrorText(err: Value): (r: Value)
    ensures JsTruthy(Prop(ResponseData(err), "message")) ==> r == Prop(ResponseData(err), "message")
    ensures !JsTruthy(Prop(ResponseData(err), "message")) ==> r == Str("Failed to update user.")
    ensures JsTruthy(r)
  {
    JsOr(Prop(ResponseData(err), "message"), Str("Failed to update user."))
  }

  /** EditUser does not read the server's `error` field: an answer in the
      API's `{"error": msg}` shape shows the default text, where the other
      forms show `msg`. */
  lemma UpdateIgnoresServerError(msg: string, status: int)
    requires msg != ""
    ensures var err := Object(map["response" := Object(map["status" := Int(status),
                                  "data" := Object(map["error" := Str(msg)])])]);
      && UpdateErrorText(err) == Str("Failed to update user.")
      && ErrorText(err, "Failed to update user.") == Str(msg)
  {
  }

  /** `onSubmit` of EditUser for user `id`. */
  function EditSubmitStep(id: string, s: EditState, reply: Reply): (res: (Option<Request>, EditState))
    ensures res.0.None? <==> !JsTruthy(s.form.name) || !JsTruthy(s.form.email)
    ensures res.0.None? ==> res.1 == s.(error := Str("Name and email are required."), message := "")
    ensures res.0.Some? ==>
      && res.0.value == PutReq(UserPath(id), ProfileBody(s.form))
      && !res.1.saving && res.1.form == s.form && res.1.loading == s.loading && res.1.mounted == s.mounted
    ensures res.0.Some? && reply.Ok? ==>
      res.1.message == "User updated!" && res.1.error == Str("") && res.1.scheduled == s.scheduled + ["/users"]
    ensures res.0.Some? && reply.Failed? ==>
      res.1.message == "" && res.1.error == UpdateErrorText(reply.err) && res.1.scheduled == s.scheduled
  {
    if !JsTruthy(s.form.name) || !JsTruthy(s.form.email) then
      (None, s.(error := Str("Name and email are required."), message := ""))
    else
      var request := Some(PutReq(UserPath(id), ProfileBody(s.form)));
      match reply
      case Ok(_) =>
        (request, s.(error := Str(""), message := "User updated!", saving := false, scheduled := s.scheduled + ["/users"]))
      case Failed(err) =>
        (request, s.(error := UpdateErrorText(err), message := "", saving := false))
  }

  /** The EditUser page for user `id`. */
  class EditUser {
    const id: string
    var form: Profile
    var loading: bool
    var saving: bool
    var error: Value
    var message: string
    var mounted: bool
    var scheduled: seq<string>

    function State(): EditState
      reads this
    {
      EditState(form, loading, saving, error, message, mounted, scheduled)
    }

    constructor(id: string)
      ensures this.id == id
      ensures State() == EditState(Profile(Str(""), Str(""), Str("Staff")), true, false, Str(""), "", false, [])
    {
      this.id := id;
      form := Profile(Str(""), Str(""), Str("Staff"));
      loading := true;
      saving := false;
      error := Str("");
      message := "";
      mounted := false;
      scheduled := [];
    }

    /** The effect: `mounted = true` and the GET of the user. */
    method Start() returns (sent: Request)
      modifies this
      ensures sent == GetReq(UserPath(id))
      ensures State() == old(State()).(mounted := true)
    {
      mounted := true;
      sent := GetReq(UserPath(id));
    }

    method LoadDone(reply: Reply)
      modifies this
      ensures State() == EditLoadStep(old(State()), reply)
    {
      match reply {
        case Ok(data) =>
          var u := if JsTruthy(data) then data else Object(map[]);
          if mounted {
            form := Profile(JsOr(Prop(u, "name"), Str("")), JsOr(Prop(u, "email"), Str("")),
                            JsOr(Prop(u, "role"), Str("Staff")));
          }
        case Failed(_) =>
          if mounted {
            error := Str("Failed to load user.");
          }
      }
      if mounted {
        loading := false;
      }
    }

    method Unmount()
      modifies this
      ensures State() == old(State()).(mounted := false)
    {
      mounted := false;
    }

    /** `onChange` */
    method Change(name: string, value: string)
      modifies this
      ensures State() == old(State()).(form := ProfileWith(old(form), name, value))
    {
      form := ProfileWith(form, name, value);
    }

    method Submit(reply: Reply) returns (request: Option<Request>)
      modifies this
      ensures (request, State()) == EditSubmitStep(id, old(State()), reply)
    {
      error := Str("");
      message := "";
      if !JsTruthy(form.name) || !JsTruthy(form.email) {
        error := Str("Name and email are required.");
        return None;
      }
      saving := true;
      request := Some(PutReq(UserPath(id), ProfileBody(form)));
      match reply {
        case Ok(_) =>
          message := "User updated!";
          scheduled := scheduled + ["/users"];
        case Failed(err) =>
          error := UpdateErrorText(err);
      }
      saving := false;
    }
  }

  // ---------------------------------------------------------------------------
  // Login

  datatype LoginState = LoginState(
    username: string, password: string, loading: bool, error: Value,
    token: Option<Value>,        // what setToken stored
    navigated: seq<string>)

  /** `res?.data?.token || 'session'` */
  function TokenOf(data: Value): (t: Value)
    ensures JsTruthy(t)
    ensures JsTruthy(Prop(data, "token")) ==> t == Prop(data, "token")
    ensures !JsTruthy(Prop(data, "token")) ==> t == Str("session")
  {
    JsOr(Prop(data, "token"), Str("session"))
  }

  function LoginSubmitStep(s: LoginState, reply: Reply): (res: (Option<Request>, LoginState))
    ensures res.0.None? <==> s.username == "" || s.password == ""
    ensures res.0.None? ==> res.1 == s.(error := Str("Please enter username and password."))
    ensures res.0.Some? ==>
      && res.0.value == PostReq("/auth/login",
                                Object(map["username" := Str(s.username), "password" := Str(s.password)]))
      && !res.1.loading
      && res.1.username == s.username && res.1.password == s.password
    ensures res.0.Some? && reply.Ok? ==>
      res.1.token == Some(TokenOf(reply.data)) && res.1.navigated == s.navigated + ["/"] && res.1.error == Str("")
    ensures res.0.Some? && reply.Failed? ==>
      && res.1.token == s.token && res.1.navigated == s.navigated
      && res.1.error == ErrorText(reply.err, "Login failed. Please check your credentials.")
  {
    if s.username == "" || s.password == "" then
      (None, s.(error := Str("Please enter username and password.")))
    else
      var request := Some(PostReq("/auth/login",
                                  Object(map["username" := Str(s.username), "password" := Str(s.password)])));
      match reply
      case Ok(data) =>
        (request, s.(error := Str(""), token := Some(TokenOf(data)), navigated := s.navigated + ["/"], loading := false))
      case Failed(err) =>
        (request, s.(error := ErrorText(err, "Login failed. Please check your credentials."), loading := false))
  }

  /** A login that reached the server either stores a truthy token and
      leaves for '/', or stays on the page with a visible error. */
  lemma LoginOutcome(s: LoginState, reply: Reply)
    requires s.username != "" && s.password != ""
    ensures var t := LoginSubmitStep(s, reply).1;
      || (t.token.Some? && JsTruthy(t.token.value) && t.navigated == s.navigated + ["/"] && !JsTruthy(t.error))
      || (t.token == s.token && t.navigated == s.navigated && JsTruthy(t.error))
  {
  }

  class Login {
    var username: string
    var password: string
    var loading: bool
    var error: Value
    var token: Option<Value>
    var navigated: seq<string>

    function State(): LoginState
      reads this
    {
      LoginState(username, password, loading, error, token, navigated)
    }

    constructor(storedToken: Option<Value>)
      ensures State() == LoginState("", "", false, Str(""), storedToken, [])
    {
      username := "";
      password := "";
      loading := false;
      error := Str("");
      token := storedToken;
      navigated := [];
    }

    method Change(name: string, value: string)
      modifies this
      ensures name == "username" ==> State() == old(State()).(username := value)
      ensures name == "password" ==> State() == old(State()).(password := value)
      ensures name != "username" && name != "password" ==> State() == old(State())
    {
      if name == "username" {
        username := value;
      } else if name == "password" {
        password := value;
      }
    }

    method Submit(reply: Reply) returns (request: Option<Request>)
      modifies this
      ensures (request, State()) == LoginSubmitStep(old(State()), reply)
    {
      error := Str("");
      if username == "" || password == "" {
        error := Str("Please enter username and password.");
        return None;
      }
      loading := true;
      request := Some(PostReq("/auth/login", Object(map["username" := Str(username), "password" := Str(password)])));
      match reply {
        case Ok(data) =>
          var t := JsOr(Prop(data, "token"), Str("session"));
          token := Some(t);
          navigated := navigated + ["/"];
        case Failed(err) =>
          error := ErrorText(err, "Login failed. Please check your credentials.");
      }
      loading := false;
    }
  }
}
