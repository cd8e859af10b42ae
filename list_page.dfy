/** The three list pages (ViewUsers, PatientList, DonorList): one load on
    mount guarded by a `mounted` flag, a search box filtering the loaded
    records, and a delete button that deletes and then refetches. */
module ListPage {
  import opened Json
  import opened Seqs
  import opened Http

  /** Which list page. */
  datatype Resource = Users | Patients | Donors

  /** `endpoints.<resource>.root` */
  function Root(r: Resource): string {
    match r
    case Users => "/users"
    case Patients => "/patients"
    case Donors => "/donors"
  }

  /** The record fields the search box looks in, in the page's order. */
  function SearchFields(r: Resource): seq<string> {
    match r
    case Users => ["Name", "Medical_history", "City", "State"]
    case Patients => ["organ_req", "reason_of_procurement", "Doctor_ID", "User_ID"]
    case Donors => ["organ_donated", "reason_of_donation", "Organization_ID", "User_ID"]
  }

  /** The banner text of a failed load. */
  function LoadError(r: Resource): string {
    match r
    case Users => "Failed to load users."
    case Patients => "Failed to load patients."
    case Donors => "Failed to load donors."
  }

  // ---------------------------------------------------------------------------
  // Search filter

  /** `[x.f1, x.f2, ...]` for the searched fields. */
  function FieldValues(item: Value, fields: seq<string>): seq<Value> {
    seq(|fields|, k requires 0 <= k < |fields| => Prop(item, fields[k]))
  }

  /** `vals.filter(Boolean)` */
  function TruthyOnly(vals: seq<Value>): seq<Value>
    decreases |vals|
  {
    if |vals| == 0 then []
    else (if JsTruthy(vals[0]) then [vals[0]] else []) + TruthyOnly(vals[1..])
  }

  /** `vals.some(v => String(v).toLowerCase().includes(t))` */
  predicate SomeContains(vals: seq<Value>, t: string)
    decreases |vals|
  {
    |vals| > 0 && (Contains(Lower(JsString(vals[0])), t) || SomeContains(vals[1..], t))
  }

  /** The filter callback: with `t = query.toLowerCase()`, keep the record
      when `t` is empty or one of its truthy searched values contains `t`. */
  predicate Keep(item: Value, fields: seq<string>, query: string) {
    var t := Lower(query);
    t == "" || SomeContains(TruthyOnly(FieldValues(item, fields)), t)
  }

  /** `items.filter(...)` */
  function Filtered(items: seq<Value>, fields: seq<string>, query: string): seq<Value>
    decreases |items|
  {
    if |items| == 0 then []
    else (if Keep(items[0], fields, query) then [items[0]] else []) + Filtered(items[1..], fields, query)
  }

  /** A searched value matches when it is truthy and its lower-cased text
      contains the lower-cased query. */
  predicate Hit(v: Value, t: string) {
    JsTruthy(v) && Contains(Lower(JsString(v)), t)
  }

  lemma {:induction false} SomeTruthySpec(vals: seq<Value>, t: string)
    ensures SomeContains(TruthyOnly(vals), t) <==> exists v :: v in vals && Hit(v, t)
    decreases |vals|
  {
    if |vals| > 0 {
      SomeTruthySpec(vals[1..], t);
      var rest := TruthyOnly(vals[1..]);
      if JsTruthy(vals[0]) {
        assert TruthyOnly(vals) == [vals[0]] + rest;
        assert ([vals[0]] + rest)[1..] == rest;
      } else {
        assert TruthyOnly(vals) == rest;
      }
      assert SomeContains(TruthyOnly(vals), t) <==> Hit(vals[0], t) || SomeContains(rest, t);
      assert (exists v :: v in vals && Hit(v, t)) <==> Hit(vals[0], t) || exists v :: v in vals[1..] && Hit(v, t) by {
        if exists v :: v in vals && Hit(v, t) {
          var v :| v in vals && Hit(v, t);
          if v != vals[0] {
            assert v in vals[1..];
          }
        }
        if exists v :: v in vals[1..] && Hit(v, t) {
          var v :| v in vals[1..] && Hit(v, t);
          assert v in vals;
        }
      }
    }
  }

  /** The filter callback in words: an empty query keeps everything;
      otherwise a record is kept iff one of the searched fields holds a
      truthy value whose text contains the query, ignoring ASCII case. */
  lemma KeepSpec(item: Value, fields: seq<string>, query: string)
    ensures Keep(item, fields, query) <==>
      query == "" || exists f :: f in fields && Hit(Prop(item, f), Lower(query))
  {
    var vals := FieldValues(item, fields);
    SomeTruthySpec(vals, Lower(query));
    if exists v :: v in vals && Hit(v, Lower(query)) {
      var v :| v in vals && Hit(v, Lower(query));
      var k :| 0 <= k < |vals| && vals[k] == v;
      assert fields[k] in fields && Hit(Prop(item, fields[k]), Lower(query));
    }
    if exists f :: f in fields && Hit(Prop(item, f), Lower(query)) {
      var f :| f in fields && Hit(Prop(item, f), Lower(query));
      var k :| 0 <= k < |fields| && fields[k] == f;
      assert vals[k] in vals;
    }
  }

  /** Only the searched fields decide: two records that agree on them are
      both kept or both dropped (PatientList never looks at Patient_ID). */
  lemma KeepReadsOnlySearchFields(a: Value, b: Value, fields: seq<string>, query: string)
    requires forall f :: f in fields ==> Prop(a, f) == Prop(b, f)
    ensures Keep(a, fields, query) <==> Keep(b, fields, query)
  {
    KeepSpec(a, fields, query);
    KeepSpec(b, fields, query);
  }

  /** Upper- and lower-case queries select the same records. */
  lemma KeepIgnoresQueryCase(item: Value, fields: seq<string>, query: string)
    ensures Keep(item, fields, query) <==> Keep(item, fields, Lower(query))
  {
    LowerIdempotent(query);
  }

  /** The filtered list: everything for an empty query; otherwise exactly the
      kept records, each as many times as it occurs, in their original order. */
  lemma {:induction false} FilteredSpec(items: seq<Value>, fields: seq<string>, query: string)
    ensures query == "" ==> Filtered(items, fields, query) == items
    ensures forall x :: x in Filtered(items, fields, query) <==> x in items && Keep(x, fields, query)
    ensures forall x :: multiset(Filtered(items, fields, query))[x] ==
                        if Keep(x, fields, query) then multiset(items)[x] else 0
    ensures IsSubsequence(Filtered(items, fields, query), items)
    decreases |items|
  {
    if |items| > 0 {
      FilteredSpec(items[1..], fields, query);
      SubsequenceMaybeCons(Keep(items[0], fields, query), items[0], Filtered(items[1..], fields, query), items[1..]);
      assert items == [items[0]] + items[1..];
      assert multiset(items) == multiset{items[0]} + multiset(items[1..]);
    }
  }

  /** Filtering a concatenation filters each part: the filter looks at one
      record at a time. */
  lemma {:induction false} FilteredAppend(a: seq<Value>, b: seq<Value>, fields: seq<string>, query: string)
    ensures Filtered(a + b, fields, query) == Filtered(a, fields, query) + Filtered(b, fields, query)
    decreases |a|
  {
    if |a| == 0 {
      assert a + b == b;
    } else {
      assert (a + b)[0] == a[0];
      assert (a + b)[1..] == a[1..] + b;
      FilteredAppend(a[1..], b, fields, query);
    }
  }

  // ---------------------------------------------------------------------------
  // Rows shown

  /** What the table body shows. */
  datatype Body = LoadingRow | NothingFound | RecordRows(records: seq<Value>)

  function Shown(loading: bool, visible: seq<Value>): (b: Body)
    ensures b == LoadingRow <==> loading
    ensures b == NothingFound <==> !loading && |visible| == 0
    ensures b.RecordRows? <==> !loading && |visible| > 0
    ensures b.RecordRows? ==> b.records == visible
  {
    if loading then LoadingRow
    else if |visible| == 0 then NothingFound
    else RecordRows(visible)
  }

  // ---------------------------------------------------------------------------
  // Load and delete

  /** The page state the load effect and the delete handler write. */
  datatype ListState = ListState(items: seq<Value>, loading: bool, error: string, mounted: bool)

  /** `Array.isArray(data) ? data : []` */
  function AsArray(data: Value): (r: seq<Value>)
    ensures data.List? ==> r == data.elems
    ensures !data.List? ==> r == []
  {
    if data.List? then data.elems else []
  }

  /** The effect starts: `mounted = true`, then `setLoading(true)` and the GET. */
  function StartStep(s: ListState): (t: ListState)
    ensures t.items == s.items && t.error == s.error
    ensures t.loading && t.mounted
  {
    ListState(s.items, true, s.error, true)
  }

  /** The GET settles; every setter is skipped once the page is unmounted. */
  function LoadStep(r: Resource, s: ListState, reply: Reply): (t: ListState)
    ensures !s.mounted ==> t == s
    ensures s.mounted ==> t.mounted && !t.loading
    ensures s.mounted && reply.Ok? ==> t.items == AsArray(reply.data) && t.error == s.error
    ensures s.mounted && reply.Failed? ==> t.items == s.items && t.error == LoadError(r)
  {
    if !s.mounted then s
    else match reply
      case Ok(data) => ListState(AsArray(data), false, s.error, true)
      case Failed(_) => ListState(s.items, false, LoadError(r), true)
  }

  /** The effect's cleanup: `mounted = false`. */
  function UnmountStep(s: ListState): (t: ListState)
    ensures !t.mounted && t.items == s.items && t.loading == s.loading && t.error == s.error
  {
    ListState(s.items, s.loading, s.error, false)
  }

  /** A reply arriving after unmount changes nothing, whatever it is. */
  lemma {:induction false} NoUpdateAfterUnmount(r: Resource, s: ListState, replies: seq<Reply>)
    ensures LoadAll(r, UnmountStep(s), replies) == UnmountStep(s)
    decreases |replies|
  {
    if |replies| > 0 {
      NoUpdateAfterUnmount(r, s, replies[1..]);
    }
  }

  /** Several replies settling one after another. */
  function LoadAll(r: Resource, s: ListState, replies: seq<Reply>): ListState
    decreases |replies|
  {
    if |replies| == 0 then s else LoadAll(r, LoadStep(r, s, replies[0]), replies[1..])
  }

  /** The URL a record's delete button targets. */
  function DeletePath(r: Resource, item: Value): string {
    match r
    case Users => "/users/" + JsString(Prop(item, "User_ID"))
    case Donors => "/donors/" + JsString(Prop(item, "Donor_ID"))
    case Patients =>
      "/patients/" + JsString(Prop(item, "Patient_ID")) + "/"
      + EncodeUriComponent(JsString(Prop(item, "organ_req")))
  }

  /** A patient with a numeric id is deleted through exactly two path
      segments after /patients: the id's digits and the encoded organ,
      which holds no '/' of its own. */
  lemma PatientDeletePathShape(item: Value, id: nat)
    requires Prop(item, "Patient_ID") == Int(id)
    ensures var organ := EncodeUriComponent(JsString(Prop(item, "organ_req")));
      && DeletePath(Patients, item) == "/patients/" + NatToString(id) + "/" + organ
      && (forall k :: 0 <= k < |NatToString(id)| ==> IsDigit(NatToString(id)[k]))
      && (forall k :: 0 <= k < |organ| ==> organ[k] != '/')
  {
    NatToStringRoundTrip(id);
    EncodeUriComponentAlphabet(JsString(Prop(item, "organ_req")));
  }

  /** The delete handler. `confirmed` is the answer to `window.confirm`,
      `deleted` whether the DELETE succeeded and `refetch` how the GET that
      follows it settled. The handler does not look at `mounted`. */
  function DeleteStep(r: Resource, s: ListState, item: Value, confirmed: bool, deleted: bool, refetch: Reply)
    : (res: (seq<Request>, ListState, bool))
    ensures !confirmed ==> res == ([], s, false)
    ensures confirmed && !deleted ==> res == ([DeleteReq(DeletePath(r, item))], s, true)
    ensures confirmed && deleted ==> res.0 == [DeleteReq(DeletePath(r, item)), GetReq(Root(r))]
    ensures confirmed && deleted && refetch.Ok? ==>
      res.1 == ListState(AsArray(refetch.data), s.loading, s.error, s.mounted) && !res.2
    ensures confirmed && deleted && refetch.Failed? ==> res.1 == s && res.2
  {
    if !confirmed then ([], s, false)
    else if !deleted then ([DeleteReq(DeletePath(r, item))], s, true)
    else
      var sent := [DeleteReq(DeletePath(r, item)), GetReq(Root(r))];
      match refetch
      case Ok(data) => (sent, ListState(AsArray(data), s.loading, s.error, s.mounted), false)
      case Failed(_) => (sent, s, true)
  }

  /** The records change only when the DELETE and the refetch both succeed;
      the loading flag, the error banner and the mounted flag never do. */
  lemma DeleteKeepsOnFailure(r: Resource, s: ListState, item: Value, confirmed: bool, deleted: bool, refetch: Reply)
    ensures var (_, t, _) := DeleteStep(r, s, item, confirmed, deleted, refetch);
      && t.loading == s.loading && t.error == s.error && t.mounted == s.mounted
      && (t.items != s.items ==> confirmed && deleted && refetch.Ok?)
  {
  }

  /** One list page. */
  class ListController {
    const resource: Resource
    var items: seq<Value>
    var loading: bool
    var error: string
    var query: string
    var mounted: bool

    function State(): ListState
      reads this
    {
      ListState(items, loading, error, mounted)
    }

    /** The records the search keeps. */
    function Visible(): seq<Value>
      reads this
    {
      Filtered(items, SearchFields(resource), query)
    }

    /** The table body the page renders: the loading row while loading;
      otherwise each loaded record the search keeps, in order, or the
      "nothing found" row when there is none. */
    function TableBody(): (b: Body)
      reads this
      ensures b == LoadingRow <==> loading
      ensures !loading && query == "" ==> b == (if items == [] then NothingFound else RecordRows(items))
      ensures b.RecordRows? ==>
        (forall x :: x in b.records <==> x in items && Keep(x, SearchFields(resource), query))
        && IsSubsequence(b.records, items)
      ensures b == NothingFound ==> forall x :: x in items ==> !Keep(x, SearchFields(resource), query)
    {
      FilteredSpec(items, SearchFields(resource), query);
      Shown(loading, Visible())
    }

    /** `useState([])`, `useState(true)`, `useState('')`, `useState('')`. */
    constructor(resource: Resource)
      ensures this.resource == resource
      ensures State() == ListState([], true, "", false) && query == ""
    {
      this.resource := resource;
      items := [];
      loading := true;
      error := "";
      query := "";
      mounted := false;
    }

    /** The mount effect: returns the GET it sends. */
    method Start() returns (sent: Request)
      modifies this
      ensures sent == GetReq(Root(resource))
      ensures State() == StartStep(old(State())) && query == old(query)
    {
      mounted := true;
      loading := true;
      sent := GetReq(Root(resource));
    }

    /** The load's GET settles. */
    method LoadDone(reply: Reply)
      modifies this
      ensures State() == LoadStep(resource, old(State()), reply) && query == old(query)
    {
      if mounted {
        match reply {
          case Ok(data) =>
            var raw := if data.List? then data.elems else [];
            items := raw;
          case Failed(_) =>
            error := LoadError(resource);
        }
      }
      if mounted {
        loading := false;
      }
    }

    method Unmount()
      modifies this
      ensures State() == UnmountStep(old(State())) && query == old(query)
    {
      mounted := false;
    }

    /** `onChange={e => setQuery(e.target.value)}` */
    method SetQuery(q: string)
      modifies this
      ensures query == q && State() == old(State())
    {
      query := q;
    }

    /** The delete button of `item`; returns the requests sent and whether
      the 'Delete failed' alert was shown. */
    method Delete(item: Value, confirmed: bool, deleted: bool, refetch: Reply)
      returns (sent: seq<Request>, alerted: bool)
      modifies this
      ensures (sent, State(), alerted) == DeleteStep(resource, old(State()), item, confirmed, deleted, refetch)
      ensures query == old(query)
    {
      sent, alerted := [], false;
      if !confirmed {
        return;
      }
      if !deleted {
        sent, alerted := [DeleteReq(DeletePath(resource, item))], true;
        return;
      }
      sent := [DeleteReq(DeletePath(resource, item)), GetReq(Root(resource))];
      match refetch {
        case Ok(data) =>
          items := if data.List? then data.elems else [];
        case Failed(_) =>
          alerted := true;
      }
    }
  }
}
