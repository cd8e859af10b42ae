/** The Flask JSON API (api.py) with the database abstracted: every query
    result, column list, row count and failure a handler observes is a
    parameter, and each handler yields the HTTP response together with the
    writes it issued. */
module Api {
  import opened Json
  import opened Seqs

  /** A handler's answer: a JSON body with a status code, or the framework's
      generic 500 page when an exception escapes the handler. */
  datatype Response =
    | Response(status: int, body: Value)
    | Unhandled

  /** A statement that changed the database and ran without raising. */
  datatype DbOp =
    | Insert(table: string, columns: seq<string>, values: seq<Value>)
    | Delete(table: string)
    | Commit

  datatype Outcome = Outcome(response: Response, ops: seq<DbOp>)

  function ErrorBody(msg: string): Value { Object(map["error" := Str(msg)]) }

  function MessageBody(msg: string): Value { Object(map["message" := Str(msg)]) }

  function Unauthorized(): Response { Response(401, ErrorBody("unauthorized")) }

  function NotFound(): Response { Response(404, ErrorBody("not found")) }

  // ---------------------------------------------------------------------------
  // Login guard and request bodies

  /** The session's `login` flag is truthy. */
  predicate LoggedIn(session: map<string, Value>) {
    PyTruthy(Get(session, "login"))
  }

  /** require_login: the 401 answer when the session is not logged in, and
      nothing otherwise. */
  function RequireLogin(session: map<string, Value>): (r: Option<Response>)
    ensures r.None? <==> PyTruthy(Get(session, "login"))
    ensures r.Some? ==> (r.value.Response? && r.value.status == 401
                         && r.value.body == Object(map["error" := Str("unauthorized")]))
  {
    if !LoggedIn(session) then Some(Unauthorized()) else None
  }

  /** `request.get_json(silent=True) or {}` followed by `.get`: a falsy body
      (including a body that is not JSON) reads as the empty dict, an object
      as its fields, and any other truthy body makes `.get` raise. */
  function RequestData(body: Value): (r: Option<map<string, Value>>)
    ensures r.Some? <==> !PyTruthy(body) || body.Object?
    ensures !PyTruthy(body) ==> r == Some(map[])
    ensures body.Object? ==> r == Some(body.fields)
  {
    if !PyTruthy(body) then Some(map[])
    else if body.Object? then Some(body.fields)
    else None
  }

  // ---------------------------------------------------------------------------
  // rows(cur)

  /** `dict(zip(cols, row))`: pairs up to the shorter list, a later duplicate
      column name overriding an earlier one. */
  function RowDict(cols: seq<string>, row: seq<Value>): map<string, Value>
    decreases |cols|
  {
    if |cols| == 0 || |row| == 0 then map[]
    else map[cols[0] := row[0]] + RowDict(cols[1..], row[1..])
  }

  function Min(a: int, b: int): int { if a < b then a else b }

  /** The dict of one row has exactly the zipped column names as keys. */
  lemma {:induction false} RowDictKeys(cols: seq<string>, row: seq<Value>)
    ensures RowDict(cols, row).Keys == set k | 0 <= k < Min(|cols|, |row|) :: cols[k]
    decreases |cols|
  {
    var n := Min(|cols|, |row|);
    if n > 0 {
      RowDictKeys(cols[1..], row[1..]);
      var keys := set k | 0 <= k < n :: cols[k];
      var restKeys := set k | 0 <= k < n - 1 :: cols[1..][k];
      forall c | c in keys ensures c in {cols[0]} + restKeys {
        var k :| 0 <= k < n && cols[k] == c;
        if k > 0 { assert cols[1..][k - 1] == c; }
      }
      forall c | c in restKeys ensures c in keys {
        var k :| 0 <= k < n - 1 && cols[1..][k] == c;
        assert cols[k + 1] == c;
      }
    }
  }

  /** A column maps to the value at its position in the row, unless the same
      name occurs again later in the description (the later one wins). */
  lemma {:induction false} RowDictAt(cols: seq<string>, row: seq<Value>, k: int)
    requires 0 <= k < Min(|cols|, |row|)
    requires forall j :: k < j < Min(|cols|, |row|) ==> cols[j] != cols[k]
    ensures cols[k] in RowDict(cols, row) && RowDict(cols, row)[cols[k]] == row[k]
    decreases |cols|
  {
    var rest := RowDict(cols[1..], row[1..]);
    assert RowDict(cols, row) == map[cols[0] := row[0]] + rest;
    if k == 0 {
      RowDictKeys(cols[1..], row[1..]);
      assert forall j :: 0 <= j < Min(|cols|, |row|) - 1 ==> cols[1..][j] == cols[j + 1];
    } else {
      RowDictAt(cols[1..], row[1..], k - 1);
    }
  }

  /** rows(cur): one dict per fetched row, in fetch order. */
  function Rows(cols: seq<string>, fetched: seq<seq<Value>>): (r: seq<Value>)
    ensures |r| == |fetched|
    ensures forall i :: 0 <= i < |r| ==> r[i] == Object(RowDict(cols, fetched[i]))
  {
    seq(|fetched|, i requires 0 <= i < |fetched| => Object(RowDict(cols, fetched[i])))
  }

  // ---------------------------------------------------------------------------
  // List, detail, delete

  /** GET /users, /donors, /patients: every row of the table. */
  function ListAll(session: map<string, Value>, cols: seq<string>, fetched: seq<seq<Value>>): (out: Outcome)
    ensures !LoggedIn(session) ==> out == Outcome(Unauthorized(), [])
    ensures LoggedIn(session) ==> (out.ops == [] && out.response.Response? && out.response.status == 200
                                   && out.response.body.List? && |out.response.body.elems| == |fetched|)
    ensures LoggedIn(session) ==> out.response == Response(200, List(Rows(cols, fetched)))
  {
    if !LoggedIn(session) then Outcome(Unauthorized(), [])
    else Outcome(Response(200, List(Rows(cols, fetched))), [])
  }

  /** GET /users/<id>, /donors/<id>, /patients/<id>/<organ>: the first
      matching row, or 404 when the query found none. */
  function Detail(session: map<string, Value>, cols: seq<string>, fetched: seq<seq<Value>>): (out: Outcome)
    ensures !LoggedIn(session) ==> out == Outcome(Unauthorized(), [])
    ensures LoggedIn(session) ==> out.ops == [] && out.response.Response?
    ensures LoggedIn(session) ==> (out.response.status == 404 <==> |fetched| == 0)
    ensures LoggedIn(session) && |fetched| == 0 ==> out.response == NotFound()
    ensures LoggedIn(session) && |fetched| > 0 ==>
      out.response == Response(200, Object(RowDict(cols, fetched[0])))
  {
    if !LoggedIn(session) then Outcome(Unauthorized(), [])
    else
      var data := Rows(cols, fetched);
      if |data| == 0 then Outcome(NotFound(), []) else Outcome(Response(200, data[0]), [])
  }

  /** DELETE /users/<id>, /donors/<id>, /patients/<id>/<organ>: the delete is
      executed and committed, and the answer depends on the row count. */
  function DeleteRecord(session: map<string, Value>, table: string, rowcount: int): (out: Outcome)
    ensures !LoggedIn(session) ==> out == Outcome(Unauthorized(), [])
    ensures LoggedIn(session) ==> out.ops == [Delete(table), Commit] && out.response.Response?
    ensures LoggedIn(session) ==> (out.response.status == 404 <==> rowcount == 0)
    ensures LoggedIn(session) && rowcount == 0 ==> out.response == NotFound()
    ensures LoggedIn(session) && rowcount != 0 ==> out.response == Response(200, MessageBody("deleted"))
  {
    if !LoggedIn(session) then Outcome(Unauthorized(), [])
    else if rowcount == 0 then Outcome(NotFound(), [Delete(table), Commit])
    else Outcome(Response(200, MessageBody("deleted")), [Delete(table), Commit])
  }

  // ---------------------------------------------------------------------------
  // Create

  /** What distinguishes the three create handlers. */
  datatype CreateRoute = CreateRoute(
    table: string,
    required: seq<string>,
    columns: seq<string>,
    presentOnly: bool,      // only the columns the body carries are inserted
    echoed: seq<string>)    // body fields repeated in the 201 answer

  function UsersCreate(): CreateRoute {
    CreateRoute("User", ["User_ID", "Name", "Date_of_Birth"],
      ["User_ID", "Name", "Date_of_Birth", "Address", "Gender", "Age", "Blood_Group", "City", "Area", "Phone_No"],
      true, ["User_ID"])
  }

  function DonorsCreate(): CreateRoute {
    CreateRoute("Donor", ["Donor_ID", "organ_donated", "Organization_ID", "User_ID"],
      ["Donor_ID", "organ_donated", "reason_of_donation", "Organization_ID", "User_ID"],
      false, ["Donor_ID"])
  }

  function PatientsCreate(): CreateRoute {
    CreateRoute("Patient", ["Patient_ID", "organ_req", "Doctor_ID", "User_ID"],
      ["Patient_ID", "organ_req", "reason_of_procurement", "Doctor_ID", "User_ID"],
      false, ["Patient_ID", "organ_req"])
  }

  /** `[f for f in required if data.get(f) in [None, '']]` */
  function Missing(data: map<string, Value>, required: seq<string>): seq<string>
    decreases |required|
  {
    if |required| == 0 then []
    else (if PyBlank(Get(data, required[0])) then [required[0]] else []) + Missing(data, required[1..])
  }

  /** The missing fields are exactly the required ones that are absent, None
      or '', listed in the order of the required list. */
  lemma {:induction false} MissingSpec(data: map<string, Value>, required: seq<string>)
    ensures forall f :: f in Missing(data, required) <==> f in required && PyBlank(Get(data, f))
    ensures IsSubsequence(Missing(data, required), required)
    decreases |required|
  {
    if |required| > 0 {
      MissingSpec(data, required[1..]);
      var rest := Missing(data, required[1..]);
      SubsequenceMaybeCons(PyBlank(Get(data, required[0])), required[0], rest, required[1..]);
      assert required == [required[0]] + required[1..];
    }
  }

  /** `[f for f in columns if f in data]` */
  function Present(data: map<string, Value>, columns: seq<string>): seq<string>
    decreases |columns|
  {
    if |columns| == 0 then []
    else (if columns[0] in data then [columns[0]] else []) + Present(data, columns[1..])
  }

  lemma {:induction false} PresentSpec(data: map<string, Value>, columns: seq<string>)
    ensures forall f :: f in Present(data, columns) <==> f in columns && f in data
    ensures IsSubsequence(Present(data, columns), columns)
    decreases |columns|
  {
    if |columns| > 0 {
      PresentSpec(data, columns[1..]);
      SubsequenceMaybeCons(columns[0] in data, columns[0], Present(data, columns[1..]), columns[1..]);
      assert columns == [columns[0]] + columns[1..];
    }
  }

  /** `v if v not in [''] else None` */
  function BlankToNull(v: Value): Value {
    if v == Str("") then Null else v
  }

  function InsertColumns(route: CreateRoute, data: map<string, Value>): seq<string> {
    if route.presentOnly then Present(data, route.columns) else route.columns
  }

  function InsertValues(data: map<string, Value>, columns: seq<string>): seq<Value> {
    seq(|columns|, i requires 0 <= i < |columns| => BlankToNull(Get(data, columns[i])))
  }

  /** The INSERT's column and value lists line up one to one; each value is
      the body's value with '' turned into None and every other value kept;
      the columns are those of the route's list (for users, exactly the listed
      columns the body carries), in that list's order. */
  lemma InsertRowSpec(route: CreateRoute, data: map<string, Value>)
    ensures var cols := InsertColumns(route, data);
      var vals := InsertValues(data, cols);
      && |vals| == |cols|
      && IsSubsequence(cols, route.columns)
      && (forall i :: 0 <= i < |cols| ==> vals[i] != Str(""))
      && (forall i :: 0 <= i < |cols| && Get(data, cols[i]) != Str("") ==> vals[i] == Get(data, cols[i]))
      && (forall i :: 0 <= i < |cols| && Get(data, cols[i]) == Str("") ==> vals[i] == Null)
      && (route.presentOnly ==> forall f :: f in cols <==> f in route.columns && f in data)
  {
    PresentSpec(data, route.columns);
    SubsequenceReflexive(route.columns);
  }

  lemma {:induction false} SubsequenceReflexive<T>(s: seq<T>)
    ensures IsSubsequence(s, s)
    decreases |s|
  {
    if |s| > 0 { SubsequenceReflexive(s[1..]); }
  }

  /** The fields the 201 answer repeats from the body. */
  function Echo(data: map<string, Value>, keys: seq<string>): map<string, Value> {
    map k | k in keys :: Get(data, k)
  }

  /** POST /users, /donors, /patients. */
  function Create(session: map<string, Value>, route: CreateRoute, body: Value, insertRaises: bool): (out: Outcome)
    ensures !LoggedIn(session) ==> out == Outcome(Unauthorized(), [])
    ensures LoggedIn(session) && RequestData(body).None? ==> out == Outcome(Unhandled, [])
    ensures LoggedIn(session) && RequestData(body).Some? ==>
      var data := RequestData(body).value;
      var missing := Missing(data, route.required);
      && (|missing| > 0 ==> out == Outcome(Response(400, ErrorBody("Missing required fields: " + Join(missing, ", "))), []))
      && (|missing| == 0 && insertRaises ==> out == Outcome(Response(500, ErrorBody("insert failed")), []))
      && (|missing| == 0 && !insertRaises ==>
            out.response == Response(201, Object(map["message" := Str("created")] + Echo(data, route.echoed)))
            && out.ops == [Insert(route.table, InsertColumns(route, data), InsertValues(data, InsertColumns(route, data))), Commit])
  {
    if !LoggedIn(session) then Outcome(Unauthorized(), [])
    else match RequestData(body)
      case None => Outcome(Unhandled, [])
      case Some(data) =>
        var missing := Missing(data, route.required);
        if |missing| > 0 then
          Outcome(Response(400, ErrorBody("Missing required fields: " + Join(missing, ", "))), [])
        else
          var cols := InsertColumns(route, data);
          var vals := InsertValues(data, cols);
          if insertRaises then Outcome(Response(500, ErrorBody("insert failed")), [])
          else Outcome(Response(201, Object(map["message" := Str("created")] + Echo(data, route.echoed))),
                       [Insert(route.table, cols, vals), Commit])
  }

  /** A create inserts something only when no required field is missing, and
      then it inserts exactly one row. */
  lemma CreateInsertsOnlyComplete(session: map<string, Value>, route: CreateRoute, body: Value, insertRaises: bool)
    ensures var out := Create(session, route, body, insertRaises);
      out.ops != [] ==>
        && LoggedIn(session) && RequestData(body).Some?
        && (forall f :: f in route.required ==> !PyBlank(Get(RequestData(body).value, f)))
        && |out.ops| == 2 && out.ops[0].Insert? && out.ops[1] == Commit
  {
    var out := Create(session, route, body, insertRaises);
    if out.ops != [] {
      var data := RequestData(body).value;
      MissingSpec(data, route.required);
      assert |Missing(data, route.required)| == 0;
    }
  }

  // ---------------------------------------------------------------------------
  // /stats/summary

  /** The tables counted by the dashboard summary and the key each count is
      published under. */
  function StatsTables(): seq<(string, string)> {
    [("User", "users"), ("Donor", "donors"), ("Patient", "patients"), ("Transaction", "matches")]
  }

  /** A table's count, or None when the COUNT query raised (the table has no
      entry in `counts`). */
  function CountOrNull(counts: map<string, int>, table: string): Value {
    if table in counts then Int(counts[table]) else Null
  }

  /** GET /stats/summary: one key per counted table, a failed count reported
      as None instead of failing the whole answer. */
  method StatsSummary(session: map<string, Value>, counts: map<string, int>) returns (out: Outcome)
    ensures !LoggedIn(session) ==> out == Outcome(Unauthorized(), [])
    ensures LoggedIn(session) ==>
      && out.ops == [] && out.response.Response? && out.response.status == 200
      && out.response.body.Object?
      && out.response.body.fields.Keys == {"users", "donors", "patients", "matches"}
      && out.response.body.fields["users"] == CountOrNull(counts, "User")
      && out.response.body.fields["donors"] == CountOrNull(counts, "Donor")
      && out.response.body.fields["patients"] == CountOrNull(counts, "Patient")
      && out.response.body.fields["matches"] == CountOrNull(counts, "Transaction")
  {
    if !LoggedIn(session) {
      return Outcome(Unauthorized(), []);
    }
    var tables := StatsTables();
    var summary: map<string, Value> := map[];
    var i := 0;
    while i < |tables|
      invariant 0 <= i <= |tables|
      invariant summary.Keys == set k | 0 <= k < i :: tables[k].1
      invariant forall k :: 0 <= k < i ==> summary[tables[k].1] == CountOrNull(counts, tables[k].0)
    {
      var (table, key) := tables[i];
      if table in counts {
        summary := summary[key := Int(counts[table])];
      } else {
        summary := summary[key := Null];
      }
      i := i + 1;
    }
    assert summary.Keys == {tables[0].1, tables[1].1, tables[2].1, tables[3].1};
    out := Outcome(Response(200, Object(summary)), []);
  }

  // ---------------------------------------------------------------------------
  // /reports/summary

  function OptionalCount(c: Option<int>): Value {
    if c.Some? then Int(c.value) else Null
  }

  /** GET /reports/summary. `patients` and `donors` are the two counts (None
      when the query raised); `transactionExists` is table_exists('Transaction');
      `confirmed` and `pending` are the two Status counts (None when the query
      raised). */
  method ReportsSummary(session: map<string, Value>, patients: Option<int>, donors: Option<int>,
                        transactionExists: bool, confirmed: Option<int>, pending: Option<int>)
    returns (res: Outcome)
    ensures !LoggedIn(session) ==> res == Outcome(Unauthorized(), [])
    ensures LoggedIn(session) ==>
      && res.ops == [] && res.response.Response? && res.response.status == 200
      && res.response.body.Object?
      && res.response.body.fields.Keys == {"patients", "donors", "confirmed", "pending"}
      && res.response.body.fields["patients"] == OptionalCount(patients)
      && res.response.body.fields["donors"] == OptionalCount(donors)
      && res.response.body.fields["confirmed"] == (if transactionExists && confirmed.Some? then Int(confirmed.value) else Int(0))
      && res.response.body.fields["pending"] == (if transactionExists && pending.Some? then Int(pending.value) else Int(0))
  {
    if !LoggedIn(session) {
      return Outcome(Unauthorized(), []);
    }
    var out: map<string, Value> := map["patients" := Null, "donors" := Null, "confirmed" := Int(0), "pending" := Int(0)];
    if patients.Some? {
      out := out["patients" := Int(patients.value)];
    }
    if donors.Some? {
      out := out["donors" := Int(donors.value)];
    }
    if transactionExists {
      if confirmed.Some? {
        out := out["confirmed" := Int(confirmed.value)];
      }
      if pending.Some? {
        out := out["pending" := Int(pending.value)];
      }
    } else {
      out := out["confirmed" := Int(0)];
    }
    res := Outcome(Response(200, Object(out)), []);
  }

  // ---------------------------------------------------------------------------
  // /matching/manual

  /** How the Organ_ID lookup/create step ends. */
  datatype OrganStep =
    | OrganStepRaised                        // a statement of the step raised
    | OrganFound(id: Value)                  // the donor's first Organ_available row
    | OrganFromDonor(name: Option<Value>, newId: int)
      // no Organ_available row: the donor's organ_donated (None when the donor
      // row is gone) and the lastrowid an insert of it would produce

  /** The database as matching_manual sees it. */
  datatype MatchDb = MatchDb(
    lookupRaises: bool,                      // the patient or donor SELECT raised
    patient: Option<map<string, Value>>,     // fetchone() of the patient SELECT
    donor: Option<map<string, Value>>,       // fetchone() of the donor SELECT
    transactionExists: bool,
    columns: seq<string>,                    // get_table_columns('Transaction')
    organ: OrganStep,
    insertRaises: bool)                      // the Transaction INSERT or its commit raised

  /** A fetched row counts as found when it is a non-empty dict. */
  predicate RowFound(r: Option<map<string, Value>>) {
    r.Some? && |r.value| > 0
  }

  /** `(v or '').strip().lower()`; None when the value is a truthy non-string,
      on which `.strip()` raises. */
  function OrganKey(v: Value): (r: Option<string>)
    ensures !PyTruthy(v) ==> r == Some("")
    ensures r.Some? && r.value != "" ==> v.Str? && r.value == Lower(Strip(v.s))
    ensures PyTruthy(v) && v.Str? ==> r == Some(Lower(Strip(v.s)))
    ensures PyTruthy(v) && !v.Str? ==> r.None?
  {
    if !PyTruthy(v) then Some("")
    else if v.Str? then Some(Lower(Strip(v.s)))
    else None
  }

  /** The compatibility rule: both organ names are non-empty after strip and
      lower-case, and they are equal. */
  predicate OrgansMatch(po: string, dk: string) {
    po != "" && dk != "" && po == dk
  }

  /** Every string's key is that string stripped and lower-cased, the empty
      string included. */
  lemma OrganKeyOfString(s: string)
    ensures OrganKey(Str(s)) == Some(Lower(Strip(s)))
  {
  }

  /** The rule in full, over any two stored values that reach it: they match
      exactly when both are strings whose stripped, lower-cased forms are equal
      and not empty. So a blank, missing or non-string organ never matches. */
  lemma OrgansMatchSpec(p: Value, d: Value)
    requires OrganKey(p).Some? && OrganKey(d).Some?
    ensures OrgansMatch(OrganKey(p).value, OrganKey(d).value) <==>
      && p.Str? && d.Str?
      && Lower(Strip(p.s)) != ""
      && Lower(Strip(p.s)) == Lower(Strip(d.s))
  {
  }

  /** The key ignores white space around the name and the case of its letters. */
  lemma OrgansMatchIgnoresCaseAndSpace(pre: string, s: string, post: string)
    requires forall k :: 0 <= k < |pre| ==> IsPySpace(pre[k])
    requires forall k :: 0 <= k < |post| ==> IsPySpace(post[k])
    ensures OrganKey(Str(pre + s + post)) == OrganKey(Str(s))
    ensures OrganKey(Str(Lower(s))) == OrganKey(Str(s))
  {
    OrganKeyOfString(pre + s + post);
    OrganKeyOfString(s);
    OrganKeyOfString(Lower(s));
    StripIgnoresSurroundingSpace(pre, s, post);
    StripLower(s);
    LowerIdempotent(Strip(s));
  }

  /** The Organ_ID the step yields (None when it yields none). */
  function OrganIdOf(step: OrganStep): Value {
    match step
    case OrganStepRaised => Null
    case OrganFound(id) => id
    case OrganFromDonor(name, newId) =>
      if name.Some? && PyTruthy(name.value) then Int(newId) else Null
  }

  /** The Organ_available row the step inserts, if any. */
  function OrganOps(step: OrganStep, did: Value): seq<DbOp> {
    match step
    case OrganFromDonor(name, _) =>
      if name.Some? && PyTruthy(name.value)
      then [Insert("Organ_available", ["Organ_name", "Donor_ID"], [name.value, did])]
      else []
    case _ => []
  }

  /** The columns the Transaction INSERT may set. */
  datatype TxColumn = PatientId | DonorId | OrganId | DateOfTransaction | Status

  function ColumnName(c: TxColumn): string {
    match c
    case PatientId => "Patient_ID"
    case DonorId => "Donor_ID"
    case OrganId => "Organ_ID"
    case DateOfTransaction => "Date_of_transaction"
    case Status => "Status"
  }

  function ColumnNames(cs: seq<TxColumn>): (r: seq<string>)
    ensures |r| == |cs|
  {
    seq(|cs|, i requires 0 <= i < |cs| => ColumnName(cs[i]))
  }

  /** The order in which the INSERT sets them. */
  function TransactionOrder(): seq<TxColumn> {
    [PatientId, DonorId, OrganId, DateOfTransaction, Status]
  }

  /** Whether the Transaction INSERT sets column `c`: the table has it, and
      for Organ_ID an id was found or created. */
  predicate SetsColumn(cols: seq<string>, organId: Value, c: TxColumn) {
    ColumnName(c) in cols && (c == OrganId ==> organId != Null)
  }

  /** The set of columns the INSERT sets. */
  function Available(cols: seq<string>, organId: Value): (avail: set<TxColumn>)
    ensures forall c :: c in avail <==> SetsColumn(cols, organId, c)
  {
    (if "Patient_ID" in cols then {PatientId} else {})
    + (if "Donor_ID" in cols then {DonorId} else {})
    + (if "Organ_ID" in cols && organId != Null then {OrganId} else {})
    + (if "Date_of_transaction" in cols then {DateOfTransaction} else {})
    + (if "Status" in cols then {Status} else {})
  }

  /** The columns of `order` that are in `avail`, in that order. */
  function SetColumns(order: seq<TxColumn>, avail: set<TxColumn>): seq<TxColumn>
    decreases |order|
  {
    if |order| == 0 then []
    else (if order[0] in avail then [order[0]] else []) + SetColumns(order[1..], avail)
  }

  /** Considering one more column at the end appends it when it is set. */
  lemma {:induction false} SetColumnsSnoc(order: seq<TxColumn>, c: TxColumn, avail: set<TxColumn>)
    ensures SetColumns(order + [c], avail) == SetColumns(order, avail) + (if c in avail then [c] else [])
    decreases |order|
  {
    if |order| == 0 {
      assert ([] + [c])[1..] == [];
    } else {
      assert (order + [c])[1..] == order[1..] + [c];
      SetColumnsSnoc(order[1..], c, avail);
    }
  }

  function TransactionFields(cols: seq<string>, organId: Value): seq<TxColumn> {
    SetColumns(TransactionOrder(), Available(cols, organId))
  }

  /** The value the Transaction INSERT stores in column `c`. */
  function TransactionValue(c: TxColumn, pid: Value, did: Value, organId: Value, today: Value): Value {
    match c
    case PatientId => pid
    case DonorId => did
    case OrganId => organId
    case DateOfTransaction => today
    case Status => Int(1)
  }

  /** The values for `fields`, one per column. */
  function ValuesFor(fields: seq<TxColumn>, pid: Value, did: Value, organId: Value, today: Value): seq<Value>
    decreases |fields|
  {
    if |fields| == 0 then []
    else ValuesFor(fields[..|fields| - 1], pid, did, organId, today)
         + [TransactionValue(fields[|fields| - 1], pid, did, organId, today)]
  }

  lemma {:induction false} ValuesForAt(fields: seq<TxColumn>, pid: Value, did: Value, organId: Value, today: Value)
    ensures |ValuesFor(fields, pid, did, organId, today)| == |fields|
    ensures forall i :: 0 <= i < |fields| ==>
      ValuesFor(fields, pid, did, organId, today)[i] == TransactionValue(fields[i], pid, did, organId, today)
    decreases |fields|
  {
    if |fields| > 0 {
      ValuesForAt(fields[..|fields| - 1], pid, did, organId, today);
    }
  }

  function TransactionValues(cols: seq<string>, pid: Value, did: Value, organId: Value, today: Value): seq<Value> {
    ValuesFor(TransactionFields(cols, organId), pid, did, organId, today)
  }

  /** The columns kept are exactly those of `order` in `avail`, in its order. */
  lemma {:induction false} SetColumnsSpec(order: seq<TxColumn>, avail: set<TxColumn>)
    ensures forall c :: c in SetColumns(order, avail) <==> c in order && c in avail
    ensures IsSubsequence(SetColumns(order, avail), order)
    decreases |order|
  {
    if |order| > 0 {
      SetColumnsSpec(order[1..], avail);
      SubsequenceMaybeCons(order[0] in avail, order[0], SetColumns(order[1..], avail), order[1..]);
      assert order == [order[0]] + order[1..];
    }
  }

  /** The Transaction columns are exactly those that are set, in the fixed order. */
  lemma TransactionFieldsSpec(cols: seq<string>, organId: Value)
    ensures forall c :: c in TransactionFields(cols, organId) <==> SetsColumn(cols, organId, c)
    ensures IsSubsequence(TransactionFields(cols, organId), TransactionOrder())
  {
    SetColumnsSpec(TransactionOrder(), Available(cols, organId));
    forall c ensures c in TransactionOrder() {
      match c
      case PatientId =>
      case DonorId =>
      case OrganId =>
      case DateOfTransaction =>
      case Status =>
    }
  }

  /** One Transaction value per column, the column's own (Status is always 1,
      the ids are the request's); an Organ_ID is stored only when one was
      found or created. */
  lemma TransactionValuesAligned(cols: seq<string>, pid: Value, did: Value, organId: Value, today: Value)
    ensures |TransactionValues(cols, pid, did, organId, today)| == |TransactionFields(cols, organId)|
    ensures forall i :: 0 <= i < |TransactionFields(cols, organId)| ==>
      TransactionValues(cols, pid, did, organId, today)[i]
        == TransactionValue(TransactionFields(cols, organId)[i], pid, did, organId, today)
    ensures OrganId in TransactionFields(cols, organId) ==> organId != Null
  {
    TransactionFieldsSpec(cols, organId);
    ValuesForAt(TransactionFields(cols, organId), pid, did, organId, today);
  }

  /** The organ step: an Organ_available row found for the donor gives its id;
      otherwise the donor's organ_donated, when truthy, is inserted as a new
      row whose id is used; a failure anywhere leaves the id None. */
  method ResolveOrgan(organ: OrganStep, did: Value) returns (organId: Value, organOps: seq<DbOp>)
    ensures organId == OrganIdOf(organ)
    ensures organOps == OrganOps(organ, did)
    ensures organOps != [] <==> organ.OrganFromDonor? && organId != Null
  {
    organId, organOps := Null, [];
    match organ {
      case OrganStepRaised =>
      case OrganFound(id) =>
        organId := id;
      case OrganFromDonor(name, newId) =>
        var organName := if name.Some? then name.value else Null;
        if PyTruthy(organName) {
          organOps := [Insert("Organ_available", ["Organ_name", "Donor_ID"], [organName, did])];
          organId := Int(newId);
        }
    }
  }

  /** `[c]` when `keep`, otherwise nothing. */
  function MaybeColumn(keep: bool, c: TxColumn): seq<TxColumn> {
    if keep then [c] else []
  }

  /** The Transaction columns, written out as the five conditional appends
      of matching_manual. */
  lemma TransactionFieldsUnrolled(cols: seq<string>, organId: Value)
    ensures TransactionFields(cols, organId)
         == MaybeColumn("Patient_ID" in cols, PatientId)
          + MaybeColumn("Donor_ID" in cols, DonorId)
          + MaybeColumn("Organ_ID" in cols && organId != Null, OrganId)
          + MaybeColumn("Date_of_transaction" in cols, DateOfTransaction)
          + MaybeColumn("Status" in cols, Status)
  {
    var avail := Available(cols, organId);
    SetColumnsSnoc([], PatientId, avail);
    assert [] + [PatientId] == [PatientId];
    SetColumnsSnoc([PatientId], DonorId, avail);
    assert [PatientId] + [DonorId] == [PatientId, DonorId];
    SetColumnsSnoc([PatientId, DonorId], OrganId, avail);
    assert [PatientId, DonorId] + [OrganId] == [PatientId, DonorId, OrganId];
    SetColumnsSnoc([PatientId, DonorId, OrganId], DateOfTransaction, avail);
    assert [PatientId, DonorId, OrganId] + [DateOfTransaction] == [PatientId, DonorId, OrganId, DateOfTransaction];
    SetColumnsSnoc([PatientId, DonorId, OrganId, DateOfTransaction], Status, avail);
    assert [PatientId, DonorId, OrganId, DateOfTransaction] + [Status] == TransactionOrder();
  }

  /** Builds the Transaction INSERT of an accepted match, appending column by
      column; also yields the Organ_available insert of the organ step. */
  method BuildTransactionRow(cols: seq<string>, pid: Value, did: Value, organ: OrganStep, today: Value)
    returns (fields: seq<TxColumn>, vals: seq<Value>, organOps: seq<DbOp>)
    ensures fields == TransactionFields(cols, OrganIdOf(organ))
    ensures vals == TransactionValues(cols, pid, did, OrganIdOf(organ), today)
    ensures organOps == OrganOps(organ, did)
  {
    // The organ step runs between the Donor_ID and Organ_ID appends in the
    // source; the appends only touch local lists, so it can run first.
    var oid;
    oid, organOps := ResolveOrgan(organ, did);
    fields, vals := AppendTransactionColumns(cols, pid, did, oid, today);
  }

  /** The five conditional appends of matching_manual, given the organ id. */
  method AppendTransactionColumns(cols: seq<string>, pid: Value, did: Value, organId: Value, today: Value)
    returns (fields: seq<TxColumn>, vals: seq<Value>)
    ensures fields == TransactionFields(cols, organId)
    ensures vals == TransactionValues(cols, pid, did, organId, today)
  {
    fields, vals := [], [];
    fields, vals := AppendColumn(fields, vals, "Patient_ID" in cols, PatientId, pid, did, organId, today);
    assert fields == MaybeColumn("Patient_ID" in cols, PatientId);
    fields, vals := AppendColumn(fields, vals, "Donor_ID" in cols, DonorId, pid, did, organId, today);
    fields, vals := AppendColumn(fields, vals, "Organ_ID" in cols && organId != Null, OrganId, pid, did, organId, today);
    fields, vals := AppendColumn(fields, vals, "Date_of_transaction" in cols, DateOfTransaction, pid, did, organId, today);
    fields, vals := AppendColumn(fields, vals, "Status" in cols, Status, pid, did, organId, today);
    TransactionFieldsUnrolled(cols, organId);
    AlignedValuesFor(fields, vals, pid, did, organId, today);
  }

  /** Each value is the one its column stores. */
  predicate Aligned(fields: seq<TxColumn>, vals: seq<Value>, pid: Value, did: Value, organId: Value, today: Value) {
    |vals| == |fields| && forall i :: 0 <= i < |fields| ==> vals[i] == TransactionValue(fields[i], pid, did, organId, today)
  }

  /** Aligned values are the values ValuesFor computes. */
  lemma AlignedValuesFor(fields: seq<TxColumn>, vals: seq<Value>, pid: Value, did: Value, organId: Value, today: Value)
    requires Aligned(fields, vals, pid, did, organId, today)
    ensures vals == ValuesFor(fields, pid, did, organId, today)
  {
    ValuesForAt(fields, pid, did, organId, today);
  }

  /** One `if column in cols: fields.append(...); vals.append(...)` step of
      matching_manual: appends column `c` and its value when `present`. */
  method AppendColumn(fields: seq<TxColumn>, vals: seq<Value>, present: bool, c: TxColumn,
                      pid: Value, did: Value, organId: Value, today: Value)
    returns (fields': seq<TxColumn>, vals': seq<Value>)
    requires Aligned(fields, vals, pid, did, organId, today)
    ensures fields' == fields + MaybeColumn(present, c)
    ensures Aligned(fields', vals', pid, did, organId, today)
  {
    fields', vals' := fields, vals;
    if present {
      fields', vals' := fields + [c], vals + [TransactionValue(c, pid, did, organId, today)];
    } else {
      assert fields + [] == fields;
    }
  }


  /** Both ids are given and both rows were fetched, so the organ rule decides. */
  predicate ReachesOrganRule(data: map<string, Value>, db: MatchDb) {
    && PyTruthy(Get(data, "patient_id")) && PyTruthy(Get(data, "donor_id"))
    && !db.lookupRaises && RowFound(db.patient) && RowFound(db.donor)
  }

  /** The answer matching_manual gives before it writes anything, when it
      rejects the request; None when the pair is accepted. The checks come in
      this order: a falsy patient_id or donor_id (400); the two lookups (500 if
      one raised, 404 if a row is missing); the organ rule (400, or 500 when an
      organ is a truthy non-string and `.strip()` raises). */
  function MatchRejection(data: map<string, Value>, db: MatchDb): (r: Option<Response>)
    ensures !PyTruthy(Get(data, "patient_id")) || !PyTruthy(Get(data, "donor_id")) ==>
      r == Some(Response(400, ErrorBody("patient_id and donor_id are required")))
    ensures PyTruthy(Get(data, "patient_id")) && PyTruthy(Get(data, "donor_id")) && db.lookupRaises ==>
      r == Some(Response(500, ErrorBody("manual matching failed")))
    ensures PyTruthy(Get(data, "patient_id")) && PyTruthy(Get(data, "donor_id")) && !db.lookupRaises
            && (!RowFound(db.patient) || !RowFound(db.donor)) ==>
      r == Some(Response(404, ErrorBody("patient or donor not found")))
    ensures ReachesOrganRule(data, db)
            && (OrganKey(Get(db.patient.value, "organ_req")).None? || OrganKey(Get(db.donor.value, "organ_donated")).None?) ==>
      r == Some(Response(500, ErrorBody("manual matching failed")))
    ensures ReachesOrganRule(data, db)
            && OrganKey(Get(db.patient.value, "organ_req")).Some? && OrganKey(Get(db.donor.value, "organ_donated")).Some?
            && !OrgansMatch(OrganKey(Get(db.patient.value, "organ_req")).value, OrganKey(Get(db.donor.value, "organ_donated")).value) ==>
      r == Some(Response(400, ErrorBody("organs do not match")))
    ensures r.None? <==>
      && PyTruthy(Get(data, "patient_id")) && PyTruthy(Get(data, "donor_id"))
      && !db.lookupRaises && RowFound(db.patient) && RowFound(db.donor)
      && exists po, dk :: OrganKey(Get(db.patient.value, "organ_req")) == Some(po)
                          && OrganKey(Get(db.donor.value, "organ_donated")) == Some(dk)
                          && po != "" && po == dk
  {
    if !PyTruthy(Get(data, "patient_id")) || !PyTruthy(Get(data, "donor_id")) then
      Some(Response(400, ErrorBody("patient_id and donor_id are required")))
    else if db.lookupRaises then
      Some(Response(500, ErrorBody("manual matching failed")))
    else if !RowFound(db.patient) || !RowFound(db.donor) then
      Some(Response(404, ErrorBody("patient or donor not found")))
    else
      var po := OrganKey(Get(db.patient.value, "organ_req"));
      var dk := OrganKey(Get(db.donor.value, "organ_donated"));
      if po.None? || dk.None? then Some(Response(500, ErrorBody("manual matching failed")))
      else if !OrgansMatch(po.value, dk.value) then Some(Response(400, ErrorBody("organs do not match")))
      else None
  }

  /** POST /matching/manual. After the login guard and the checks of
      MatchRejection, an accepted pair is answered with success whether or not
      a Transaction row was stored, and `persisted` says whether it was. */
  method MatchingManual(session: map<string, Value>, body: Value, db: MatchDb, today: Value) returns (out: Outcome)
    ensures !LoggedIn(session) ==> out == Outcome(Unauthorized(), [])
    ensures LoggedIn(session) && RequestData(body).None? ==> out == Outcome(Unhandled, [])
    ensures LoggedIn(session) && RequestData(body).Some? && MatchRejection(RequestData(body).value, db).Some? ==>
      out == Outcome(MatchRejection(RequestData(body).value, db).value, [])
    ensures LoggedIn(session) && RequestData(body).Some? && MatchRejection(RequestData(body).value, db).None? ==>
      var pid := Get(RequestData(body).value, "patient_id");
      var did := Get(RequestData(body).value, "donor_id");
      var organId := OrganIdOf(db.organ);
      var fields := TransactionFields(db.columns, organId);
      var persisted := db.transactionExists && |fields| > 0 && !db.insertRaises;
      && out.response == Response(200, Object(map[
           "message" := Str("match created"), "patient" := Object(db.patient.value),
           "donor" := Object(db.donor.value), "persisted" := Bool(persisted)]))
      && out.ops == (if db.transactionExists then OrganOps(db.organ, did) else [])
                    + (if persisted
                       then [Insert("Transaction", ColumnNames(fields), TransactionValues(db.columns, pid, did, organId, today)), Commit]
                       else [])
  {
    if !LoggedIn(session) {
      return Outcome(Unauthorized(), []);
    }
    var parsed := RequestData(body);
    if parsed.None? {
      return Outcome(Unhandled, []);
    }
    var data := parsed.value;
    var rejection := MatchRejection(data, db);
    if rejection.Some? {
      return Outcome(rejection.value, []);
    }
    var pid := Get(data, "patient_id");
    var did := Get(data, "donor_id");
    var pat, don := db.patient.value, db.donor.value;
    var inserted := false;
    var ops: seq<DbOp> := [];
    if db.transactionExists {
      var fields, vals, organOps := BuildTransactionRow(db.columns, pid, did, db.organ, today);
      ops := organOps;
      if |fields| > 0 && !db.insertRaises {
        ops := ops + [Insert("Transaction", ColumnNames(fields), vals), Commit];
        inserted := true;
      }
    }
    out := Outcome(Response(200, Object(map[
             "message" := Str("match created"), "patient" := Object(pat),
             "donor" := Object(don), "persisted" := Bool(inserted)])), ops);
  }
}
