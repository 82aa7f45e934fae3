/**
 * The dashboard page controller: which dashboard to show (new, cloned, explicit,
 * remembered or default), who owns it, and the reshaping of its widgets and widget
 * fields into the form the page renders.
 *
 * The Dashboard and User APIs, the preference store and the widget-type catalog are
 * external: the APIs are maps of what they return to this user, the preference store
 * is a `Profile` value, the catalog is a `WidgetConfig` of two functions.
 */
module DashboardView {
  import opened Common
  import opened PhpArray

  /** Lowest user type that may open dashboards. */
  const USER_TYPE_ZABBIX_USER := 1
  /** Dashboard shown when nothing else is chosen and the dashboard list was never opened. */
  const DASHBOARD_DEFAULT_ID := 1
  /** Owner name shown when the owner cannot be looked up. */
  const INACCESSIBLE_USER := "Inaccessible user"
  /** Where the page redirects when there is no dashboard to show. */
  const DASHBOARD_LIST_ACTION := "dashboard.list"

  // ---------------------------------------------------------------- data model

  /** The column of a widget-field record that holds its value, chosen by field type. */
  datatype FieldSlot = ValueInt | ValueStr | ValueGroupId | ValueHostId | ValueItemId | ValueGraphId

  /** A widget field value as stored: a number or a string. */
  datatype Value = IntValue(i: int) | StrValue(s: string)

  /** One widget-field record as the Dashboard API returns it. */
  datatype RawField = RawField(
    fieldType: int, name: string,
    valueInt: int, valueStr: string,
    valueGroupId: int, valueHostId: int, valueItemId: int, valueGraphId: int)

  /** One widget as the Dashboard API returns it (position values after the `(int)` casts). */
  datatype Widget = Widget(
    widgetid: int, widgetType: string, name: string,
    row: int, col: int, height: int, width: int,
    fields: seq<RawField>)

  /** A converted field: one value, or every value of a repeated field name in input order. */
  datatype FieldEntry = Scalar(value: Value) | List(values: seq<Value>)

  datatype Position = Position(row: int, col: int, height: int, width: int)

  /** One entry of the page's `grid_widgets`. */
  datatype GridWidget = GridWidget(
    widgetid: int, widgetType: string, header: string, pos: Position,
    rfRate: int, fields: Assoc<string, FieldEntry>)

  datatype Owner = Owner(id: int, name: string)

  /** The dashboard the page shows. */
  datatype Dashboard = Dashboard(
    dashboardid: int, name: string, editable: bool, widgets: seq<Widget>, owner: Owner)

  /** A dashboard as the Dashboard API returns it, with the editable flag already prepared. */
  datatype StoredDashboard = StoredDashboard(
    dashboardid: int, name: string, userid: int, widgets: seq<Widget>, editable: bool)

  /** The widget-type catalog: default refresh rate per widget type, value column per field type. */
  datatype WidgetConfig = WidgetConfig(defaultRfRate: string -> int, apiFieldKey: int -> FieldSlot)

  /** Who asks and what the APIs return to them. */
  datatype Env = Env(
    userid: int,                               // the session's user id
    userType: int,                             // the session's user type
    dashboards: map<int, StoredDashboard>,     // dashboards the Dashboard API returns, by id
    userNames: map<int, string>,               // full names of users the User API returns, by id
    config: WidgetConfig)

  /** The validated request parameters. */
  datatype Request = Request(
    isNew: bool,                       // `new` present
    sourceDashboardId: Option<int>,    // `source_dashboardid`
    dashboardId: Option<int>,          // `dashboardid`
    fullscreen: Option<int>)           // `fullscreen`

  /** The per-user preferences the controller reads or writes. */
  datatype Profile = Profile(
    dashboardId: Option<int>,          // web.dashbrd.dashboardid
    listWasOpened: Option<int>,        // web.dashbrd.list_was_opened
    filterEnabled: Option<int>,        // web.dashconf.filter.enable
    widgetRfRates: map<int, int>)      // web.dashbrd.widget.rf_rate, by widget id

  /** What `doAction` hands to the view. */
  datatype ViewData = ViewData(
    dashboard: Dashboard, fullscreen: int, filterEnabled: int,
    gridWidgets: Assoc<int, GridWidget>, hasDynamicWidgets: bool)

  datatype Response = Redirect(action: string) | Data(data: ViewData)

  // ---------------------------------------------------------------- owner and dashboard resolution

  /** `getOwnerData`: the owner's id is always the given one; the name soft-fails to a placeholder. */
  function OwnerData(userid: int, userNames: map<int, string>): (o: Owner)
    ensures o.id == userid
    ensures userid !in userNames ==> o.name == INACCESSIBLE_USER
    ensures userid in userNames ==> o.name == userNames[userid]
  {
    var owner := Owner(userid, INACCESSIBLE_USER);
    if userid in userNames then owner.(name := userNames[userid]) else owner
  }

  /** `getNewDashboard`: an unsaved, empty, editable dashboard owned by the session's user. */
  function NewDashboard(env: Env): (d: Dashboard)
    ensures d.dashboardid == 0 && d.name == "" && d.editable && d.widgets == []
    ensures d.owner.id == env.userid
    ensures env.userid in env.userNames ==> d.owner.name == env.userNames[env.userid]
    ensures env.userid !in env.userNames ==> d.owner.name == INACCESSIBLE_USER
  {
    Dashboard(0, "", true, [], OwnerData(env.userid, env.userNames))
  }

  /** The id before the default substitution: explicit `dashboardid`, else the remembered one, else 0. */
  function RequestedId(req: Request, profile: Profile): int {
    req.dashboardId.GetOr(profile.dashboardId.GetOr(0))
  }

  /** The id `getDashboard` looks up when neither `new` nor `source_dashboardid` is given. */
  function ResolvedId(req: Request, profile: Profile): (id: int)
    ensures RequestedId(req, profile) != 0 ==> id == RequestedId(req, profile)
    ensures RequestedId(req, profile) == 0 && profile.listWasOpened != Some(1) ==> id == DASHBOARD_DEFAULT_ID
    ensures RequestedId(req, profile) == 0 && profile.listWasOpened == Some(1) ==> id == 0
  {
    var id := RequestedId(req, profile);
    if id == 0 && profile.listWasOpened != Some(1) then DASHBOARD_DEFAULT_ID else id
  }

  /** True when `getDashboard` takes its third branch and the lookup finds the dashboard. */
  predicate LoadsStored(req: Request, env: Env, profile: Profile) {
    && !req.isNew
    && req.sourceDashboardId.None?
    && ResolvedId(req, profile) != 0
    && ResolvedId(req, profile) in env.dashboards
  }

  /** A stored dashboard as the page shows it, with its owner resolved. */
  function Loaded(stored: StoredDashboard, env: Env): Dashboard {
    Dashboard(stored.dashboardid, stored.name, stored.editable, stored.widgets,
              OwnerData(stored.userid, env.userNames))
  }

  /** The dashboard `getDashboard` returns (None for PHP `null`): first match wins. */
  function ResolveDashboard(req: Request, env: Env, profile: Profile): (r: Option<Dashboard>)
    ensures r.Some? && (req.isNew || req.sourceDashboardId.Some?) ==> r.value.owner.id == env.userid
    ensures !req.isNew && req.sourceDashboardId.None? ==> (r.Some? <==> LoadsStored(req, env, profile))
    ensures LoadsStored(req, env, profile) ==> (
      var stored := env.dashboards[ResolvedId(req, profile)];
      && r.Some?
      && r.value.dashboardid == stored.dashboardid
      && r.value.widgets == stored.widgets
      && r.value.owner.id == stored.userid)
  {
    if req.isNew then
      Some(NewDashboard(env))
    else if req.sourceDashboardId.Some? then
      var src := req.sourceDashboardId.value;
      if src in env.dashboards then
        Some(NewDashboard(env).(name := env.dashboards[src].name, widgets := env.dashboards[src].widgets))
      else None
    else
      var id := ResolvedId(req, profile);
      if id != 0 && id in env.dashboards then Some(Loaded(env.dashboards[id], env)) else None
  }

  /** The preference store after `getDashboard`: the id is remembered only when the lookup succeeded. */
  function ProfileAfter(req: Request, env: Env, profile: Profile): (p: Profile)
    ensures p.listWasOpened == profile.listWasOpened && p.filterEnabled == profile.filterEnabled
    ensures p.widgetRfRates == profile.widgetRfRates
    ensures LoadsStored(req, env, profile) ==> p.dashboardId == Some(ResolvedId(req, profile))
    ensures !LoadsStored(req, env, profile) ==> p == profile
  {
    if LoadsStored(req, env, profile) then profile.(dashboardId := Some(ResolvedId(req, profile)))
    else profile
  }

  /** After a dashboard was loaded, opening the page again without choosing one shows the same
      dashboard: the remembered id takes the place of the explicit one. */
  lemma ReopenShowsSame(req: Request, env: Env, profile: Profile, again: Request)
    requires LoadsStored(req, env, profile)
    requires !again.isNew && again.sourceDashboardId.None? && again.dashboardId.None?
    ensures ResolvedId(again, ProfileAfter(req, env, profile)) == ResolvedId(req, profile)
    ensures ResolveDashboard(again, env, ProfileAfter(req, env, profile)) == ResolveDashboard(req, env, profile)
  {
  }

  /** With `new`, the result is the empty new dashboard, whatever else the request and the preferences say. */
  lemma NewTakesPrecedence(req: Request, env: Env, profile: Profile)
    requires req.isNew
    ensures ResolveDashboard(req, env, profile) == Some(Dashboard(0, "", true, [], OwnerData(env.userid, env.userNames)))
    ensures ProfileAfter(req, env, profile) == profile
  {
  }

  /** Cloning: a found source gives an unsaved copy owned by the session's user; a missing one gives null. */
  lemma CloneResult(req: Request, env: Env, profile: Profile)
    requires !req.isNew && req.sourceDashboardId.Some?
    ensures var src := req.sourceDashboardId.value;
      && (src !in env.dashboards ==> ResolveDashboard(req, env, profile) == None)
      && (src in env.dashboards ==> ResolveDashboard(req, env, profile) == Some(Dashboard(
            0, env.dashboards[src].name, true, env.dashboards[src].widgets, OwnerData(env.userid, env.userNames))))
    ensures ProfileAfter(req, env, profile) == profile
  {
  }

  /** An explicit non-zero id that the API does not return gives null, whatever the preferences hold. */
  lemma ExplicitMissingIsNull(req: Request, env: Env, p1: Profile, p2: Profile)
    requires !req.isNew && req.sourceDashboardId.None?
    requires req.dashboardId.Some? && req.dashboardId.value != 0 && req.dashboardId.value !in env.dashboards
    ensures ResolveDashboard(req, env, p1) == None == ResolveDashboard(req, env, p2)
    ensures ProfileAfter(req, env, p1) == p1
  {
  }

  /** A resolved id of 0 gives null without any lookup: the result does not depend on the API. */
  lemma ZeroIdIsNull(req: Request, e1: Env, e2: Env, profile: Profile)
    requires !req.isNew && req.sourceDashboardId.None?
    requires ResolvedId(req, profile) == 0
    ensures ResolveDashboard(req, e1, profile) == None == ResolveDashboard(req, e2, profile)
  {
  }

  /** Nothing requested, nothing remembered, list never opened: the default dashboard is looked up. */
  lemma DefaultWhenNothingChosen(req: Request, profile: Profile)
    requires req.dashboardId.None? && profile.dashboardId.None? && profile.listWasOpened.None?
    ensures ResolvedId(req, profile) == DASHBOARD_DEFAULT_ID
  {
  }

  // ---------------------------------------------------------------- widget fields

  /** The value a field record holds in the given column. */
  function SlotValue(f: RawField, slot: FieldSlot): Value {
    match slot
    case ValueInt => IntValue(f.valueInt)
    case ValueStr => StrValue(f.valueStr)
    case ValueGroupId => IntValue(f.valueGroupId)
    case ValueHostId => IntValue(f.valueHostId)
    case ValueItemId => IntValue(f.valueItemId)
    case ValueGraphId => IntValue(f.valueGraphId)
  }

  /** The value of a field record, read from the column its field type names. */
  function FieldValue(f: RawField, apiFieldKey: int -> FieldSlot): Value {
    SlotValue(f, apiFieldKey(f.fieldType))
  }

  /** The field names, in input order. */
  function Names(fields: seq<RawField>): (r: seq<string>)
    ensures |r| == |fields| && forall i :: 0 <= i < |fields| ==> r[i] == fields[i].name
  {
    seq(|fields|, i requires 0 <= i < |fields| => fields[i].name)
  }

  /** The values of every field named `name`, in input order. */
  function Occurrences(fields: seq<RawField>, name: string, apiFieldKey: int -> FieldSlot): seq<Value> {
    if fields == [] then []
    else
      var last := fields[|fields| - 1];
      Occurrences(fields[..|fields| - 1], name, apiFieldKey)
        + (if last.name == name then [FieldValue(last, apiFieldKey)] else [])
  }

  /** A name seen once keeps its value; a repeated name keeps the list of its values. */
  function Collapse(values: seq<Value>): FieldEntry {
    if |values| == 1 then Scalar(values[0]) else List(values)
  }

  /** What `convertWidgetFields` returns, stated per field name. */
  function ConvertedFields(fields: seq<RawField>, apiFieldKey: int -> FieldSlot): Assoc<string, FieldEntry> {
    Assoc(FirstSeen(Names(fields)), ConvertedValues(fields, apiFieldKey))
  }

  /** The entries of `ConvertedFields`, without their order. */
  function ConvertedValues(fields: seq<RawField>, apiFieldKey: int -> FieldSlot): map<string, FieldEntry> {
    map n | n in Names(fields) :: Collapse(Occurrences(fields, n, apiFieldKey))
  }

  /** Occurrences of a name in a concatenation: those of the first part, then those of the second. */
  lemma {:induction false} OccurrencesAppend(a: seq<RawField>, b: seq<RawField>, name: string, key: int -> FieldSlot)
    ensures Occurrences(a + b, name, key) == Occurrences(a, name, key) + Occurrences(b, name, key)
    decreases |b|
  {
    if b == [] {
      assert a + b == a;
    } else {
      var b' := b[..|b| - 1];
      assert (a + b)[..|a + b| - 1] == a + b';
      OccurrencesAppend(a, b', name, key);
    }
  }

  /** A name has as many values as it has occurrences among the field names. */
  lemma {:induction false} OccurrencesCount(fields: seq<RawField>, name: string, key: int -> FieldSlot)
    ensures |Occurrences(fields, name, key)| == multiset(Names(fields))[name]
  {
    if fields != [] {
      var init := fields[..|fields| - 1];
      OccurrencesCount(init, name, key);
      assert Names(fields) == Names(init) + [fields[|fields| - 1].name];
    }
  }

  /** A name that no field carries has no values. */
  lemma {:induction false} OccurrencesNone(fields: seq<RawField>, name: string, key: int -> FieldSlot)
    requires forall i :: 0 <= i < |fields| ==> fields[i].name != name
    ensures Occurrences(fields, name, key) == []
  {
    if fields != [] {
      OccurrencesNone(fields[..|fields| - 1], name, key);
    }
  }

  /** A field name occurring exactly once maps to that field's single value. */
  lemma ConvertedSingle(fields: seq<RawField>, key: int -> FieldSlot, i: int)
    requires 0 <= i < |fields|
    requires forall j :: 0 <= j < |fields| && j != i ==> fields[j].name != fields[i].name
    ensures fields[i].name in ConvertedFields(fields, key).values
    ensures ConvertedFields(fields, key).values[fields[i].name] == Scalar(FieldValue(fields[i], key))
  {
    var n := fields[i].name;
    var a, b := fields[..i], fields[i + 1..];
    assert fields == a + [fields[i]] + b;
    OccurrencesNone(a, n, key);
    OccurrencesNone(b, n, key);
    OccurrencesAppend(a, [fields[i]], n, key);
    OccurrencesAppend(a + [fields[i]], b, n, key);
    assert Occurrences([fields[i]], n, key) == [FieldValue(fields[i], key)];
    assert n in Names(fields);
  }

  /** A field name occurring k > 1 times maps to the list of its k values in input order. */
  lemma ConvertedRepeated(fields: seq<RawField>, key: int -> FieldSlot, name: string)
    requires multiset(Names(fields))[name] > 1
    ensures name in ConvertedFields(fields, key).values
    ensures ConvertedFields(fields, key).values[name] == List(Occurrences(fields, name, key))
    ensures |Occurrences(fields, name, key)| == multiset(Names(fields))[name]
  {
    OccurrencesCount(fields, name, key);
    assert name in multiset(Names(fields));
  }

  /** The converted keys are exactly the field names, each once, in first-seen order. */
  lemma ConvertedKeys(fields: seq<RawField>, key: int -> FieldSlot)
    ensures ConvertedFields(fields, key).Valid()
    ensures forall n :: n in ConvertedFields(fields, key).values <==> exists i :: 0 <= i < |fields| && fields[i].name == n
  {
    var c := ConvertedFields(fields, key);
    forall n | n in c.values ensures exists i :: 0 <= i < |fields| && fields[i].name == n {
      var i :| 0 <= i < |Names(fields)| && Names(fields)[i] == n;
    }
  }

  /** PHP's `(array)` cast of a field entry: a single value becomes a one-element list. */
  function AsList(e: FieldEntry): seq<Value> {
    match e
    case Scalar(v) => [v]
    case List(vs) => vs
  }

  /** One step of `convertWidgetFields`: the entry for the next field's name. */
  function NextEntry(values: map<string, FieldEntry>, f: RawField, apiFieldKey: int -> FieldSlot): FieldEntry {
    if f.name in values then List(AsList(values[f.name]) + [FieldValue(f, apiFieldKey)])
    else Scalar(FieldValue(f, apiFieldKey))
  }

  /** A name that some field carries has at least one value. */
  lemma OccurrencesPresent(fields: seq<RawField>, name: string, key: int -> FieldSlot)
    requires name in Names(fields)
    ensures |Occurrences(fields, name, key)| >= 1
  {
    OccurrencesCount(fields, name, key);
  }

  /** Collapsing values seen before and one more value gives the list of all of them. */
  lemma CollapseStep(values: seq<Value>, v: Value)
    requires |values| >= 1
    ensures Collapse(values + [v]) == List(AsList(Collapse(values)) + [v])
  {
  }

  /** Processing one more field turns the conversion of a prefix into the conversion of the longer prefix. */
  lemma ConvertedFieldsStep(fields: seq<RawField>, f: RawField, key: int -> FieldSlot)
    ensures var c := ConvertedFields(fields, key);
      ConvertedFields(fields + [f], key) == c.Put(f.name, NextEntry(c.values, f, key))
  {
    var c := ConvertedFields(fields, key);
    NamesAppend(fields, f);
    PutFirstSeen(c, Names(fields), f.name, NextEntry(c.values, f, key));
    ConvertedValuesStep(fields, f, key);
  }

  lemma NamesAppend(fields: seq<RawField>, f: RawField)
    ensures Names(fields + [f]) == Names(fields) + [f.name]
  {
  }

  /** The entries after one more field: only the entry of that field's name changes. */
  lemma ConvertedValuesStep(fields: seq<RawField>, f: RawField, key: int -> FieldSlot)
    ensures var m := ConvertedValues(fields, key);
      ConvertedValues(fields + [f], key) == m[f.name := NextEntry(m, f, key)]
  {
    var m := ConvertedValues(fields, key);
    var lhs := ConvertedValues(fields + [f], key);
    var rhs := m[f.name := NextEntry(m, f, key)];
    NamesAppend(fields, f);
    assert lhs.Keys == rhs.Keys;
    forall n | n in lhs ensures lhs[n] == rhs[n] {
      ConvertedValueStep(fields, f, key, n);
    }
  }

  /** The entry of one name after one more field. */
  lemma ConvertedValueStep(fields: seq<RawField>, f: RawField, key: int -> FieldSlot, n: string)
    requires n in Names(fields) || n == f.name
    ensures var m := ConvertedValues(fields, key);
      Collapse(Occurrences(fields + [f], n, key)) == m[f.name := NextEntry(m, f, key)][n]
  {
    OccurrencesSnoc(fields, f, n, key);
    if n == f.name {
      if n in Names(fields) {
        OccurrencesPresent(fields, n, key);
        CollapseStep(Occurrences(fields, n, key), FieldValue(f, key));
      } else {
        OccurrencesNone(fields, n, key);
      }
    }
  }

  lemma OccurrencesSnoc(fields: seq<RawField>, f: RawField, n: string, key: int -> FieldSlot)
    ensures Occurrences(fields + [f], n, key) == Occurrences(fields, n, key) + (if f.name == n then [FieldValue(f, key)] else [])
  {
    var s := fields + [f];
    assert s[..|s| - 1] == fields;
  }

  /** `ConvertedFieldsStep` on consecutive prefixes of one list. */
  lemma ConvertedFieldsPrefixStep(fields: seq<RawField>, i: int, key: int -> FieldSlot)
    requires 0 <= i < |fields|
    ensures var c := ConvertedFields(fields[..i], key);
      ConvertedFields(fields[..i + 1], key) == c.Put(fields[i].name, NextEntry(c.values, fields[i], key))
  {
    assert fields[..i + 1] == fields[..i] + [fields[i]];
    ConvertedFieldsStep(fields[..i], fields[i], key);
  }

  /** `convertWidgetFields`: collapses field records into a name-keyed array. */
  method ConvertWidgetFields(fields: seq<RawField>, apiFieldKey: int -> FieldSlot)
    returns (ret: Assoc<string, FieldEntry>)
    ensures ret == ConvertedFields(fields, apiFieldKey)
  {
    ret := Empty();
    assert fields[..0] == [];
    assert ret == ConvertedFields(fields[..0], apiFieldKey);
    var i := 0;
    while i < |fields|
      invariant 0 <= i <= |fields|
      invariant ret == ConvertedFields(fields[..i], apiFieldKey)
    {
      var field := fields[i];
      var value := FieldValue(field, apiFieldKey);
      ConvertedFieldsPrefixStep(fields, i, apiFieldKey);
      if field.name in ret.values {
        // `(array)` turns a single value into a one-element list; then the value is appended
        var existing := AsList(ret.values[field.name]);
        ret := ret.Put(field.name, List(existing + [value]));
      } else {
        ret := ret.Put(field.name, Scalar(value));
      }
      i := i + 1;
    }
    assert fields[..i] == fields;
  }

  // ---------------------------------------------------------------- widgets

  /** The ids of the widgets, in input order. */
  function WidgetIds(widgets: seq<Widget>): (r: seq<int>)
    ensures |r| == |widgets| && forall i :: 0 <= i < |widgets| ==> r[i] == widgets[i].widgetid
  {
    seq(|widgets|, i requires 0 <= i < |widgets| => widgets[i].widgetid)
  }

  /** The last widget with the given id: the one whose entry survives in `grid_widgets`. */
  function LastWithId(widgets: seq<Widget>, id: int): Option<Widget> {
    if widgets == [] then None
    else if widgets[|widgets| - 1].widgetid == id then Some(widgets[|widgets| - 1])
    else LastWithId(widgets[..|widgets| - 1], id)
  }

  /** `LastWithId` finds a widget exactly when one has the id, and no later widget has it. */
  lemma {:induction false} LastWithIdFound(widgets: seq<Widget>, id: int)
    ensures LastWithId(widgets, id).None? <==> forall i :: 0 <= i < |widgets| ==> widgets[i].widgetid != id
    ensures LastWithId(widgets, id).Some? ==>
      exists i :: 0 <= i < |widgets| && widgets[i] == LastWithId(widgets, id).value && widgets[i].widgetid == id
                  && forall j :: i < j < |widgets| ==> widgets[j].widgetid != id
  {
    if widgets != [] && widgets[|widgets| - 1].widgetid != id {
      var init := widgets[..|widgets| - 1];
      LastWithIdFound(init, id);
      if LastWithId(init, id).Some? {
        var i :| 0 <= i < |init| && init[i] == LastWithId(init, id).value && init[i].widgetid == id
                 && forall j :: i < j < |init| ==> init[j].widgetid != id;
        assert widgets[i] == init[i];
      }
    }
  }

  /** One `grid_widgets` entry built from one widget. */
  function GridWidgetOf(w: Widget, rfRates: map<int, int>, config: WidgetConfig): GridWidget {
    GridWidget(
      w.widgetid, w.widgetType, w.name,
      Position(w.row, w.col, w.height, w.width),
      if w.widgetid in rfRates then rfRates[w.widgetid] else config.defaultRfRate(w.widgetType),
      ConvertedFields(w.fields, config.apiFieldKey))
  }

  /** The header is the widget's name; the refresh rate is the stored one, else the type's default. */
  lemma GridWidgetHeaderAndRate(w: Widget, rfRates: map<int, int>, config: WidgetConfig)
    ensures GridWidgetOf(w, rfRates, config).header == w.name
    ensures w.widgetid in rfRates ==> GridWidgetOf(w, rfRates, config).rfRate == rfRates[w.widgetid]
    ensures w.widgetid !in rfRates ==> GridWidgetOf(w, rfRates, config).rfRate == config.defaultRfRate(w.widgetType)
  {
  }

  /** The values of an array filled by storing `f(w)` under the id of each widget `w` in turn:
      the entry of an id comes from the last widget with that id. */
  function LastEntries<T>(widgets: seq<Widget>, f: Widget -> T): map<int, T> {
    map id | id in WidgetIds(widgets) && LastWithId(widgets, id).Some? :: f(LastWithId(widgets, id).value)
  }

  /** What `getWidgets` returns: keyed by widget id in first-seen order, each entry from the last widget with that id. */
  function GridWidgets(widgets: seq<Widget>, rfRates: map<int, int>, config: WidgetConfig): Assoc<int, GridWidget> {
    Assoc(FirstSeen(WidgetIds(widgets)), LastEntries(widgets, w => GridWidgetOf(w, rfRates, config)))
  }

  /** The keys of `LastEntries` are the widget ids. */
  lemma LastEntriesKeys<T>(widgets: seq<Widget>, f: Widget -> T)
    ensures forall id :: id in LastEntries(widgets, f) <==> id in WidgetIds(widgets)
  {
    forall id | id in WidgetIds(widgets) ensures LastWithId(widgets, id).Some? {
      var i :| 0 <= i < |widgets| && WidgetIds(widgets)[i] == id;
      LastWithIdFound(widgets, id);
    }
  }

  /** Storing one more widget's entry under its id replaces any earlier entry for that id. */
  lemma LastEntriesStep<T>(widgets: seq<Widget>, w: Widget, f: Widget -> T)
    ensures LastEntries(widgets + [w], f) == LastEntries(widgets, f)[w.widgetid := f(w)]
  {
    var lhs := LastEntries(widgets + [w], f);
    var rhs := LastEntries(widgets, f)[w.widgetid := f(w)];
    WidgetIdsAppend(widgets, w);
    LastEntriesKeys(widgets, f);
    LastEntriesKeys(widgets + [w], f);
    assert lhs.Keys == rhs.Keys;
    forall id | id in lhs ensures lhs[id] == rhs[id] {
      LastWithIdSnoc(widgets, w, id);
    }
  }

  /** The grid has one entry per distinct widget id; a later widget with the same id replaces an earlier one. */
  lemma GridWidgetsEntries(widgets: seq<Widget>, rfRates: map<int, int>, config: WidgetConfig)
    ensures GridWidgets(widgets, rfRates, config).Valid()
    ensures forall id :: id in GridWidgets(widgets, rfRates, config).values <==>
      exists i :: 0 <= i < |widgets| && widgets[i].widgetid == id
    ensures forall i :: 0 <= i < |widgets| && (forall j :: i < j < |widgets| ==> widgets[j].widgetid != widgets[i].widgetid) ==>
      widgets[i].widgetid in GridWidgets(widgets, rfRates, config).values &&
      GridWidgets(widgets, rfRates, config).values[widgets[i].widgetid] == GridWidgetOf(widgets[i], rfRates, config)
  {
    var f := w => GridWidgetOf(w, rfRates, config);
    LastEntriesKeys(widgets, f);
    forall id | exists i :: 0 <= i < |widgets| && widgets[i].widgetid == id
      ensures id in WidgetIds(widgets)
    {
      var i :| 0 <= i < |widgets| && widgets[i].widgetid == id;
      assert WidgetIds(widgets)[i] == id;
    }
    forall i | 0 <= i < |widgets| && (forall j :: i < j < |widgets| ==> widgets[j].widgetid != widgets[i].widgetid)
      ensures LastWithId(widgets, widgets[i].widgetid) == Some(widgets[i])
    {
      var id := widgets[i].widgetid;
      LastWithIdFound(widgets, id);
      var k :| 0 <= k < |widgets| && widgets[k] == LastWithId(widgets, id).value && widgets[k].widgetid == id
               && forall j :: k < j < |widgets| ==> widgets[j].widgetid != id;
      assert k == i;
    }
  }

  /** Processing one more widget: its entry is stored under its id, replacing any earlier one. */
  lemma GridWidgetsStep(widgets: seq<Widget>, w: Widget, rfRates: map<int, int>, config: WidgetConfig)
    ensures GridWidgets(widgets + [w], rfRates, config)
         == GridWidgets(widgets, rfRates, config).Put(w.widgetid, GridWidgetOf(w, rfRates, config))
  {
    var f := w => GridWidgetOf(w, rfRates, config);
    var g := GridWidgets(widgets, rfRates, config);
    WidgetIdsAppend(widgets, w);
    LastEntriesKeys(widgets, f);
    PutFirstSeen(g, WidgetIds(widgets), w.widgetid, GridWidgetOf(w, rfRates, config));
    LastEntriesStep(widgets, w, f);
  }

  lemma WidgetIdsAppend(widgets: seq<Widget>, w: Widget)
    ensures WidgetIds(widgets + [w]) == WidgetIds(widgets) + [w.widgetid]
  {
  }

  lemma LastWithIdSnoc(widgets: seq<Widget>, w: Widget, id: int)
    ensures LastWithId(widgets + [w], id) == if w.widgetid == id then Some(w) else LastWithId(widgets, id)
  {
    var s := widgets + [w];
    assert s[..|s| - 1] == widgets;
  }

  /** `GridWidgetsStep` on consecutive prefixes of one list. */
  lemma GridWidgetsPrefixStep(widgets: seq<Widget>, i: int, rfRates: map<int, int>, config: WidgetConfig)
    requires 0 <= i < |widgets|
    ensures GridWidgets(widgets[..i + 1], rfRates, config)
         == GridWidgets(widgets[..i], rfRates, config).Put(widgets[i].widgetid, GridWidgetOf(widgets[i], rfRates, config))
  {
    assert widgets[..i + 1] == widgets[..i] + [widgets[i]];
    GridWidgetsStep(widgets[..i], widgets[i], rfRates, config);
  }

  /** The body of the `getWidgets` loop: one `grid_widgets` entry, with the refresh rate from the
      preferences (the type's default otherwise) and the converted fields. */
  method GridWidgetEntry(widget: Widget, rfRates: map<int, int>, config: WidgetConfig) returns (entry: GridWidget)
    ensures entry == GridWidgetOf(widget, rfRates, config)
  {
    var widgetid := widget.widgetid;
    var defaultRfRate := config.defaultRfRate(widget.widgetType);
    var rfRate := if widgetid in rfRates then rfRates[widgetid] else defaultRfRate;
    var fields := ConvertWidgetFields(widget.fields, config.apiFieldKey);
    entry := GridWidget(
      widgetid, widget.widgetType, widget.name,
      Position(widget.row, widget.col, widget.height, widget.width),
      rfRate, fields);
  }

  /** `getWidgets`: turns the widget list into `grid_widgets`. */
  method GetWidgets(widgets: seq<Widget>, rfRates: map<int, int>, config: WidgetConfig)
    returns (grid: Assoc<int, GridWidget>)
    ensures grid == GridWidgets(widgets, rfRates, config)
  {
    grid := Empty();
    assert widgets[..0] == [];
    assert grid == GridWidgets(widgets[..0], rfRates, config);
    var i := 0;
    while i < |widgets|
      invariant 0 <= i <= |widgets|
      invariant grid == GridWidgets(widgets[..i], rfRates, config)
    {
      var widget := widgets[i];
      var entry := GridWidgetEntry(widget, rfRates, config);
      GridWidgetsPrefixStep(widgets, i, rfRates, config);
      grid := grid.Put(widget.widgetid, entry);
      i := i + 1;
    }
    assert widgets[..i] == widgets;
  }

  // ---------------------------------------------------------------- dynamic widgets

  /** A field that turns on the page's host selector. */
  predicate IsDynamicOn(f: RawField) {
    f.name == "dynamic" && f.valueInt == 1
  }

  /** The inner loop of `hasDynamicWidgets`. */
  function HasDynamicField(fields: seq<RawField>): (r: bool)
    ensures r <==> exists j :: 0 <= j < |fields| && IsDynamicOn(fields[j])
  {
    if fields == [] then false
    else IsDynamicOn(fields[0]) || HasDynamicField(fields[1..])
  }

  /** `hasDynamicWidgets`: some field of some widget is `dynamic` with value 1; false without widgets. */
  function HasDynamicWidgets(widgets: seq<Widget>): (r: bool)
    ensures r <==> exists i, j :: 0 <= i < |widgets| && 0 <= j < |widgets[i].fields| && IsDynamicOn(widgets[i].fields[j])
    ensures widgets == [] ==> !r
  {
    if widgets == [] then false
    else HasDynamicField(widgets[0].fields) || HasDynamicWidgets(widgets[1..])
  }

  // ---------------------------------------------------------------- the controller

  /** The controller object: request, session and APIs are fixed; the preferences and the chosen dashboard change. */
  class Controller {
    const request: Request
    const env: Env
    var profile: Profile
    var dashboard: Option<Dashboard>

    constructor (request: Request, env: Env, profile: Profile)
      ensures this.request == request && this.env == env && this.profile == profile
      ensures dashboard == None
    {
      this.request := request;
      this.env := env;
      this.profile := profile;
      dashboard := None;
    }

    /** `getDashboard`: resolves the dashboard and remembers a successfully loaded id. */
    method GetDashboard() returns (d: Option<Dashboard>)
      modifies this`profile
      ensures d == ResolveDashboard(request, env, old(profile))
      ensures profile == ProfileAfter(request, env, old(profile))
    {
      d := None;
      if request.isNew {
        d := Some(NewDashboard(env));
      } else if request.sourceDashboardId.Some? {
        var src := request.sourceDashboardId.value;
        if src in env.dashboards {
          var source := env.dashboards[src];
          var clone := NewDashboard(env);
          clone := clone.(name := source.name);
          clone := clone.(widgets := source.widgets);
          d := Some(clone);
        }
      } else {
        var dashboardid := request.dashboardId.GetOr(profile.dashboardId.GetOr(0));
        if dashboardid == 0 && profile.listWasOpened != Some(1) {
          dashboardid := DASHBOARD_DEFAULT_ID;
        }
        if dashboardid != 0 && dashboardid in env.dashboards {
          var stored := env.dashboards[dashboardid];
          d := Some(Dashboard(stored.dashboardid, stored.name, stored.editable, stored.widgets,
                              OwnerData(stored.userid, env.userNames)));
          profile := profile.(dashboardId := Some(dashboardid));
        }
      }
    }

    /** `checkPermissions`: low user types are refused; otherwise only an explicit id that resolves to nothing is. */
    method CheckPermissions() returns (allowed: bool)
      modifies this
      ensures env.userType < USER_TYPE_ZABBIX_USER ==>
        !allowed && dashboard == old(dashboard) && profile == old(profile)
      ensures env.userType >= USER_TYPE_ZABBIX_USER ==>
        && dashboard == ResolveDashboard(request, env, old(profile))
        && profile == ProfileAfter(request, env, old(profile))
        && allowed == (request.dashboardId.None? || dashboard.Some?)
    {
      if env.userType < USER_TYPE_ZABBIX_USER {
        return false;
      }
      dashboard := GetDashboard();
      allowed := request.dashboardId.None? || dashboard.Some?;
    }

    /** `doAction`: no dashboard redirects to the list; otherwise the page data is assembled. */
    method DoAction() returns (response: Response)
      ensures dashboard.None? ==> response == Redirect(DASHBOARD_LIST_ACTION)
      ensures dashboard.Some? ==> response.Data?
      ensures dashboard.Some? ==> var data := response.data;
        && data.dashboard == dashboard.value
        && data.fullscreen == request.fullscreen.GetOr(0)
        && data.filterEnabled == profile.filterEnabled.GetOr(0)
        && data.gridWidgets == GridWidgets(dashboard.value.widgets, profile.widgetRfRates, env.config)
        && data.hasDynamicWidgets == HasDynamicWidgets(dashboard.value.widgets)
    {
      if dashboard.None? {
        return Redirect(DASHBOARD_LIST_ACTION);
      }
      var grid := GetWidgets(dashboard.value.widgets, profile.widgetRfRates, env.config);
      response := Data(ViewData(
        dashboard.value,
        request.fullscreen.GetOr(0),
        profile.filterEnabled.GetOr(0),
        grid,
        HasDynamicWidgets(dashboard.value.widgets)));
    }
  }

  /** Two `columns` field records with string values 3 and 5. */
  function ColumnsFields(): seq<RawField> {
    [RawField(1, "columns", 0, "3", 0, 0, 0, 0), RawField(1, "columns", 0, "5", 0, 0, 0, 0)]
  }

  /** The values of `columns` in the example, in input order. */
  lemma ColumnsOccurrences(key: int -> FieldSlot)
    requires key(1) == ValueStr
    ensures Occurrences(ColumnsFields(), "columns", key) == [StrValue("3"), StrValue("5")]
  {
    var fields := ColumnsFields();
    OccurrencesSnoc([], fields[0], "columns", key);
    OccurrencesSnoc([fields[0]], fields[1], "columns", key);
    assert [fields[0]] == [] + [fields[0]] && fields == [fields[0]] + [fields[1]];
  }

  /** Two fields of the same name and nothing else: one key, holding the list of both values. */
  lemma ConvertedPair(fields: seq<RawField>, key: int -> FieldSlot, n: string)
    requires Names(fields) == [n, n]
    ensures ConvertedFields(fields, key).keys == [n]
    ensures ConvertedFields(fields, key).values == map[n := List(Occurrences(fields, n, key))]
  {
    var names := Names(fields);
    assert names[..1] == [n] && [n][..0] == [];
    assert FirstSeen([n]) == [n];
    PairValues(fields, key, n);
  }

  // The entries of `ConvertedPair`, proved apart from its key order.
  lemma PairValues(fields: seq<RawField>, key: int -> FieldSlot, n: string)
    requires Names(fields) == [n, n]
    ensures ConvertedValues(fields, key) == map[n := List(Occurrences(fields, n, key))]
  {
    var occ := Occurrences(fields, n, key);
    OccurrencesCount(fields, n, key);
    assert multiset(Names(fields))[n] == 2;
    var values := ConvertedValues(fields, key);
    assert values.Keys == {n};
    assert values[n] == List(occ);
  }

  /** The worked example: two `columns` fields with string values 3 and 5 give the list ["3", "5"]. */
  lemma ColumnsExample(key: int -> FieldSlot)
    requires key(1) == ValueStr
    ensures ConvertedFields(ColumnsFields(), key).keys == ["columns"]
    ensures ConvertedFields(ColumnsFields(), key).values == map["columns" := List([StrValue("3"), StrValue("5")])]
  {
    var fields := ColumnsFields();
    assert Names(fields) == ["columns", "columns"];
    ColumnsOccurrences(key);
    ConvertedPair(fields, key, "columns");
  }
}
