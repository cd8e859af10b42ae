/** How the client's create forms and the Flask create handlers fit together:
    what a form that passes its own checks makes the backend store. */
module Wiring {
  import opened Json
  import opened Seqs
  import opened Api
  import opened Forms

  /** Each create form checks exactly the fields its create handler requires,
      in the same order. */
  lemma FormsRequireWhatHandlersRequire()
    ensures AddUserForm().required == UsersCreate().required
    ensures RegisterDonorForm().required == DonorsCreate().required
    ensures RegisterPatientForm().required == PatientsCreate().required
    ensures AddUserForm().endpoint == "/users" && RegisterDonorForm().endpoint == "/donors"
            && RegisterPatientForm().endpoint == "/patients"
  {
  }

  /** `''` stored as NULL, any other text as itself. */
  function StoredText(t: string): Value {
    if t == "" then Null else Str(t)
  }

  /** A form that passes its own check is never refused by the handler's
      required-field check: nothing is missing from its payload. */
  lemma {:induction false} CompleteFormHasNothingMissing(spec: FormSpec, form: map<string, string>, required: seq<string>)
    requires Complete(form, spec.required)
    requires forall f :: f in required ==> f in spec.required
    ensures Missing(Payload(spec, form), required) == []
    decreases |required|
  {
    if |required| > 0 {
      var f := required[0];
      var p := Payload(spec, form);
      assert Text(form, f) != "";
      assert f in form;
      assert f in p && p[f] == Str(Text(form, f));
      assert !PyBlank(Get(p, f));
      CompleteFormHasNothingMissing(spec, form, required[1..]);
    }
  }

  /** End to end: when the session is logged in and the INSERT goes through,
      a complete create form is answered 201 and exactly one row plus a commit
      is written; the row's values are the typed texts, '' stored as NULL,
      whether or not the form itself nulled the input. */
  lemma CompleteFormIsCreated(spec: FormSpec, route: CreateRoute, form: map<string, string>, session: map<string, Value>)
    requires spec.required == route.required
    requires LoggedIn(session)
    requires Complete(form, spec.required)
    ensures var out := Create(session, route, Object(Payload(spec, form)), false);
      var cols := InsertColumns(route, Payload(spec, form));
      && out.response.Response? && out.response.status == 201
      && out.ops == [Insert(route.table, cols, InsertValues(Payload(spec, form), cols)), Commit]
      && (forall i :: 0 <= i < |cols| ==> InsertValues(Payload(spec, form), cols)[i] == StoredText(Text(form, cols[i])))
  {
    var p := Payload(spec, form);
    CompleteFormHasNothingMissing(spec, form, route.required);
    assert RequestData(Object(p)) == Some(p);
    var cols := InsertColumns(route, p);
    forall i | 0 <= i < |cols|
      ensures InsertValues(p, cols)[i] == StoredText(Text(form, cols[i]))
    {
      var c := cols[i];
      if c in form && c !in spec.nullable {
        assert Get(p, c) == Str(form[c]);
      } else if c in spec.nullable {
        assert Get(p, c) == (if Text(form, c) == "" then Null else Str(Text(form, c)));
      } else {
        assert c !in p;
      }
    }
  }

  /** The users handler keeps only the columns of its list that the body
      carries, in the list's order: of a full AddUser form it stores exactly
      the inputs that its column list names. */
  lemma AddUserStoredColumns(form: map<string, string>)
    requires forall f :: f in form <==> f in AddUserForm().fields
    ensures var cols := InsertColumns(UsersCreate(), Payload(AddUserForm(), form));
      && IsSubsequence(cols, UsersCreate().columns)
      && forall f :: f in cols <==> f in UsersCreate().columns && f in AddUserForm().fields
  {
    PresentSpec(Payload(AddUserForm(), form), UsersCreate().columns);
  }

  /** The inputs of AddUser that the users handler's column list names are
      User_ID, Name, Date_of_Birth and City; Medical_insurance,
      Medical_history, Street and State are dropped. */
  lemma AddUserColumnsOverlap()
    ensures forall f :: f in UsersCreate().columns && f in AddUserForm().fields <==>
      f in ["User_ID", "Name", "Date_of_Birth", "City"]
  {
  }

  /** The donor and patient handlers' column lists are exactly their forms'
      input lists, whatever the form holds. */
  lemma RegisterFormsStoreAllColumns(form: map<string, string>)
    ensures InsertColumns(DonorsCreate(), Payload(RegisterDonorForm(), form)) == RegisterDonorForm().fields
    ensures InsertColumns(PatientsCreate(), Payload(RegisterPatientForm(), form)) == RegisterPatientForm().fields
  {
  }

  /** A RegisterDonor or RegisterPatient form holding all its inputs (as the
      page's state always does: it starts from EmptyForm and only sets keys)
      sends a value for every column its handler inserts. */
  lemma RegisterFormsSendEveryColumn(donor: map<string, string>, patient: map<string, string>)
    requires forall f :: f in RegisterDonorForm().fields ==> f in donor
    requires forall f :: f in RegisterPatientForm().fields ==> f in patient
    ensures forall c :: c in InsertColumns(DonorsCreate(), Payload(RegisterDonorForm(), donor)) ==>
      c in Payload(RegisterDonorForm(), donor)
    ensures forall c :: c in InsertColumns(PatientsCreate(), Payload(RegisterPatientForm(), patient)) ==>
      c in Payload(RegisterPatientForm(), patient)
  {
    RegisterFormsStoreAllColumns(donor);
    RegisterFormsStoreAllColumns(patient);
  }
}
