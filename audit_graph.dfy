/**
 * Audit bookkeeping for graphs and graph prototypes: the audit table keyed by graph
 * id (one entry per graph, first registration wins), the detail records appended to
 * it under keys such as `graph.width` or `graphprototype.gitems[42].color`, and the
 * collector that registers deleted graphs and returns their ids sorted.
 *
 * The hash set and the JSON documents of the audit library are modelled by a map from
 * id to entry and an append-only list of detail records; the database query by its rows.
 */
module AuditGraph {
  import opened PhpArray

  /** An unsigned 64-bit id. */
  type UInt64 = x: int | 0 <= x < 0x1_0000_0000_0000_0000

  /** Discovery flags a graph can carry. */
  const ZBX_FLAG_DISCOVERY_NORMAL := 0x00
  const ZBX_FLAG_DISCOVERY_PROTOTYPE := 0x02
  const ZBX_FLAG_DISCOVERY_CREATED := 0x04

  /** The audit resource an entry is about. */
  datatype ResourceType = Graph | GraphPrototype

  /** The audit action of an entry. */
  datatype AuditAction = Add | Update | Delete

  /** One entry of the audit table. */
  datatype AuditEntry = AuditEntry(id: UInt64, name: string, action: AuditAction, resource: ResourceType)

  /** A value written into a detail record. */
  datatype Scalar = Str(s: string) | Int(i: int) | UInt(u: UInt64) | Double(d: real)

  /** The kind of a scalar, as the C parameter type fixes it. */
  datatype ScalarKind = StrKind | IntKind | UIntKind | DoubleKind

  predicate HasKind(v: Scalar, k: ScalarKind) {
    match v
    case Str(_) => k == StrKind
    case Int(_) => k == IntKind
    case UInt(_) => k == UIntKind
    case Double(_) => k == DoubleKind
  }

  /** Whether a detail record adds a value or records a change. */
  datatype DetailOp = DetailsAdd | DetailsUpdate

  datatype DetailValue = NoValue | Value(v: Scalar) | Change(oldValue: Scalar, newValue: Scalar)

  /** One detail record, attached to the entry of graph `id`. */
  datatype Detail = Detail(id: UInt64, op: DetailOp, key: string, value: DetailValue)

  // ---------------------------------------------------------------- resource type and keys

  /** The flags `graph_flag_to_resource_type` accepts; any other value ends the process. */
  predicate IsGraphFlag(flag: int) {
    flag == ZBX_FLAG_DISCOVERY_NORMAL || flag == ZBX_FLAG_DISCOVERY_CREATED || flag == ZBX_FLAG_DISCOVERY_PROTOTYPE
  }

  /** `graph_flag_to_resource_type`. */
  function FlagToResourceType(flag: int): (rt: ResourceType)
    requires IsGraphFlag(flag)
    ensures rt == GraphPrototype <==> flag == ZBX_FLAG_DISCOVERY_PROTOTYPE
    ensures rt == Graph <==> flag == ZBX_FLAG_DISCOVERY_NORMAL || flag == ZBX_FLAG_DISCOVERY_CREATED
  {
    if flag == ZBX_FLAG_DISCOVERY_NORMAL || flag == ZBX_FLAG_DISCOVERY_CREATED then Graph
    else GraphPrototype
  }

  /** The container key: `graph` or `graphprototype`. */
  function Prefix(rt: ResourceType): string {
    if rt == Graph then "graph" else "graphprototype"
  }

  /** `GR_OR_GRP(field)`: `graph.<field>` or `graphprototype.<field>`. */
  function FieldKey(rt: ResourceType, field: string): string {
    Prefix(rt) + "." + field
  }

  /** The decimal digit for `d`. */
  function DigitChar(d: nat): char
    requires d < 10
  {
    ('0' as int + d) as char
  }

  /** `ZBX_FS_UI64`: the decimal form of `n`, without leading zeros. */
  function Decimal(n: nat): (r: string)
    ensures |r| >= 1 && (n >= 10 ==> |r| >= 2)
    ensures forall i :: 0 <= i < |r| ==> '0' <= r[i] <= '9'
  {
    if n < 10 then [DigitChar(n)] else Decimal(n / 10) + [DigitChar(n % 10)]
  }

  /** Different numbers have different decimal forms. */
  lemma {:induction false} DecimalInjective(a: nat, b: nat)
    requires Decimal(a) == Decimal(b)
    ensures a == b
  {
    if a >= 10 && b >= 10 {
      var da, db := Decimal(a), Decimal(b);
      assert da[|da| - 1] == db[|db| - 1];
      assert a % 10 == b % 10;
      assert Decimal(a / 10) == da[..|da| - 1] == db[..|db| - 1] == Decimal(b / 10);
      DecimalInjective(a / 10, b / 10);
    }
  }

  /** The graph-item container key: `<prefix>.gitems[<gitemid>]`. */
  function GitemsKey(rt: ResourceType, gitemid: UInt64): string {
    FieldKey(rt, "gitems[" + Decimal(gitemid) + "]")
  }

  /** The graph-item field key: `<prefix>.gitems[<gitemid>].<field>`. */
  function GitemFieldKey(rt: ResourceType, gitemid: UInt64, field: string): string {
    GitemsKey(rt, gitemid) + "." + field
  }

  /** Equal strings with a common head have equal tails. */
  lemma StripHead(h: string, t1: string, t2: string)
    requires h + t1 == h + t2
    ensures t1 == t2
  {
    assert t1 == (h + t1)[|h|..];
    assert t2 == (h + t2)[|h|..];
  }

  /** Field keys of graphs and of graph prototypes never collide, and each names one field. */
  lemma FieldKeyInjective(rt1: ResourceType, f1: string, rt2: ResourceType, f2: string)
    requires FieldKey(rt1, f1) == FieldKey(rt2, f2)
    ensures rt1 == rt2 && f1 == f2
  {
    assert FieldKey(rt1, f1)[5] == (if rt1 == Graph then '.' else 'p');
    assert FieldKey(rt2, f2)[5] == (if rt2 == Graph then '.' else 'p');
    StripHead(Prefix(rt1) + ".", f1, f2);
  }

  /** A decimal number followed by `]`: the number is everything before the first `]`. */
  lemma DecimalBracketInjective(a: nat, t1: string, b: nat, t2: string)
    requires Decimal(a) + ("]" + t1) == Decimal(b) + ("]" + t2)
    ensures a == b && t1 == t2
  {
    var da, db := Decimal(a), Decimal(b);
    var s1, s2 := da + ("]" + t1), db + ("]" + t2);
    // the first `]` of either string sits right after its digits
    assert s1[|da|] == ']' && s2[|db|] == ']';
    assert forall i :: 0 <= i < |da| ==> s1[i] == da[i] != ']';
    assert forall i :: 0 <= i < |db| ==> s2[i] == db[i] != ']';
    assert |da| == |db|;
    assert da == s1[..|da|] == s2[..|db|] == db;
    DecimalInjective(a, b);
    assert (da + "]") + t1 == s1 && (db + "]") + t2 == s2;
    StripHead(da + "]", t1, t2);
  }

  /** A graph-item field key is a field key whose field starts with the item's bracketed id. */
  lemma GitemFieldKeyShape(rt: ResourceType, a: UInt64, f: string)
    ensures GitemFieldKey(rt, a, f) == FieldKey(rt, "gitems[" + (Decimal(a) + ("]" + ("." + f))))
  {
  }

  /** Graph-item field keys of different items, fields or resource types are different. */
  lemma GitemFieldKeyInjective(rt1: ResourceType, a: UInt64, f1: string, rt2: ResourceType, b: UInt64, f2: string)
    requires GitemFieldKey(rt1, a, f1) == GitemFieldKey(rt2, b, f2)
    ensures rt1 == rt2 && a == b && f1 == f2
  {
    GitemFieldKeyShape(rt1, a, f1);
    GitemFieldKeyShape(rt2, b, f2);
    FieldKeyInjective(rt1, "gitems[" + (Decimal(a) + ("]" + ("." + f1))), rt2, "gitems[" + (Decimal(b) + ("]" + ("." + f2))));
    StripHead("gitems[", Decimal(a) + ("]" + ("." + f1)), Decimal(b) + ("]" + ("." + f2)));
    DecimalBracketInjective(a, "." + f1, b, "." + f2);
    StripHead(".", f1, f2);
  }

  // ---------------------------------------------------------------- detail generators

  /** The arguments of `zbx_audit_graph_update_json_add_data`. */
  datatype GraphData = GraphData(
    graphCopyName: string, width: int, height: int, yaxismin: real, yaxismax: real,
    templateid: UInt64, showWorkPeriod: int, showTriggers: int, graphtype: int,
    showLegend: int, show3d: int, percentLeft: real, percentRight: real,
    yminType: int, ymaxType: int, yminItemid: UInt64, ymaxItemid: UInt64,
    flags: int, discover: int)

  /** The graph fields `add_data` records, in the order it records them. The list is one
      sequence of calls in the C code; it is written here as three consecutive groups only so
      that the distinctness proof can compare the groups one pair at a time. */
  const GRAPH_FIELDS_HEAD: seq<string> := ["graph_copy_name", "width", "height", "yaxismin", "yaxismax", "templateid"]
  const GRAPH_FIELDS_MIDDLE: seq<string> := ["show_work_period", "show_triggers", "graphtype", "show_legend", "show_3d", "percent_left"]
  const GRAPH_FIELDS_TAIL: seq<string> := ["percent_right", "ymin_type", "ymax_type", "ymin_itemid", "ymax_itemid", "flags", "discover"]
  const GRAPH_DATA_FIELDS: seq<string> := GRAPH_FIELDS_HEAD + GRAPH_FIELDS_MIDDLE + GRAPH_FIELDS_TAIL

  /** The values `add_data` records, in the order of `GRAPH_DATA_FIELDS`. */
  function GraphDataValues(d: GraphData): (r: seq<Scalar>)
    ensures |r| == |GRAPH_DATA_FIELDS|
  {
    [Str(d.graphCopyName), Int(d.width), Int(d.height), Double(d.yaxismin), Double(d.yaxismax),
     UInt(d.templateid), Int(d.showWorkPeriod), Int(d.showTriggers), Int(d.graphtype),
     Int(d.showLegend), Int(d.show3d), Double(d.percentLeft), Double(d.percentRight),
     Int(d.yminType), Int(d.ymaxType), UInt(d.yminItemid), UInt(d.ymaxItemid),
     Int(d.flags), Int(d.discover)]
  }

  /** The keys of a list of detail records, in order. */
  function Keys(ds: seq<Detail>): (r: seq<string>)
    ensures |r| == |ds| && forall i :: 0 <= i < |ds| ==> r[i] == ds[i].key
  {
    seq(|ds|, i requires 0 <= i < |ds| => ds[i].key)
  }

  /** The records of an `add_*` generator: the container key without a value, then each key
      with its value, all as additions to the entry of `graphid`. */
  function AddDetails(graphid: UInt64, container: string, keys: seq<string>, values: seq<Scalar>): (r: seq<Detail>)
    requires |keys| == |values|
    ensures |r| == 1 + |keys| && r[0] == Detail(graphid, DetailsAdd, container, NoValue)
    ensures forall i :: 0 <= i < |keys| ==> r[i + 1] == Detail(graphid, DetailsAdd, keys[i], Value(values[i]))
  {
    [Detail(graphid, DetailsAdd, container, NoValue)] +
    seq(|keys|, i requires 0 <= i < |keys| => Detail(graphid, DetailsAdd, keys[i], Value(values[i])))
  }

  /** When the container key differs from the distinct field keys, no key is recorded twice. */
  lemma AddDetailsDistinct(graphid: UInt64, container: string, keys: seq<string>, values: seq<Scalar>)
    requires |keys| == |values| && Distinct(keys) && container !in keys
    ensures Distinct(Keys(AddDetails(graphid, container, keys, values)))
  {
    var ks := Keys(AddDetails(graphid, container, keys, values));
    forall i, j | 0 <= i < j < |ks| ensures ks[i] != ks[j] {
      if i == 0 {
        assert ks[j] == keys[j - 1];
      } else {
        assert ks[i] == keys[i - 1] && ks[j] == keys[j - 1];
      }
    }
  }

  /** The keys `graph.<field>` (or `graphprototype.<field>`) for a list of fields. */
  function FieldKeys(rt: ResourceType, fields: seq<string>): (r: seq<string>)
    ensures |r| == |fields| && forall i :: 0 <= i < |fields| ==> r[i] == FieldKey(rt, fields[i])
  {
    seq(|fields|, i requires 0 <= i < |fields| => FieldKey(rt, fields[i]))
  }

  /** Distinct fields give distinct keys, none of which is the container key. */
  lemma FieldKeysDistinct(rt: ResourceType, fields: seq<string>)
    requires Distinct(fields)
    ensures Distinct(FieldKeys(rt, fields)) && Prefix(rt) !in FieldKeys(rt, fields)
  {
    var ks := FieldKeys(rt, fields);
    forall i, j | 0 <= i < j < |ks| ensures ks[i] != ks[j] {
      if ks[i] == ks[j] {
        FieldKeyInjective(rt, fields[i], rt, fields[j]);
      }
    }
    forall i | 0 <= i < |ks| ensures ks[i] != Prefix(rt) {
      assert |ks[i]| > |Prefix(rt)|;
    }
  }

  /** The details `add_data` appends: the container key, then each field with its value. */
  function AddDataDetails(graphid: UInt64, rt: ResourceType, d: GraphData): seq<Detail> {
    AddDetails(graphid, Prefix(rt), FieldKeys(rt, GRAPH_DATA_FIELDS), GraphDataValues(d))
  }

  /** No element of `a` occurs in `b`. */
  predicate Disjoint(a: seq<string>, b: seq<string>) {
    forall i, j :: 0 <= i < |a| && 0 <= j < |b| ==> a[i] != b[j]
  }

  /** Two lists without repetitions and without common elements concatenate to a list without repetitions. */
  lemma DistinctAppend(a: seq<string>, b: seq<string>)
    requires Distinct(a) && Distinct(b) && Disjoint(a, b)
    ensures Distinct(a + b)
  {
    forall i, j | 0 <= i < j < |a + b| ensures (a + b)[i] != (a + b)[j] {
      if j < |a| {
        assert (a + b)[i] == a[i] && (a + b)[j] == a[j];
      } else if i < |a| {
        assert (a + b)[i] == a[i] && (a + b)[j] == b[j - |a|];
      } else {
        assert (a + b)[i] == b[i - |a|] && (a + b)[j] == b[j - |a|];
      }
    }
  }

  lemma GraphDataFieldsFirst()
    ensures Distinct(GRAPH_FIELDS_HEAD)
  {
  }

  lemma GraphDataFieldsSecond()
    ensures Distinct(GRAPH_FIELDS_MIDDLE)
  {
  }

  lemma GraphDataFieldsThird()
    ensures Distinct(GRAPH_FIELDS_TAIL)
  {
  }

  lemma GraphDataFieldsFirstSecond()
    ensures Disjoint(GRAPH_FIELDS_HEAD, GRAPH_FIELDS_MIDDLE)
  {
  }

  lemma GraphDataFieldsFirstThird()
    ensures Disjoint(GRAPH_FIELDS_HEAD, GRAPH_FIELDS_TAIL)
  {
  }

  lemma GraphDataFieldsSecondThird()
    ensures Disjoint(GRAPH_FIELDS_MIDDLE, GRAPH_FIELDS_TAIL)
  {
  }

  /** A list disjoint from two lists is disjoint from their concatenation. */
  lemma DisjointAppend(a: seq<string>, b: seq<string>, c: seq<string>)
    requires Disjoint(a, c) && Disjoint(b, c)
    ensures Disjoint(a + b, c)
  {
    forall i, j | 0 <= i < |a + b| && 0 <= j < |c| ensures (a + b)[i] != c[j] {
      if i >= |a| {
        assert (a + b)[i] == b[i - |a|];
      }
    }
  }

  /** No graph field is listed twice. */
  lemma GraphDataFieldsDistinct()
    ensures Distinct(GRAPH_DATA_FIELDS)
  {
    var a, b, c := GRAPH_FIELDS_HEAD, GRAPH_FIELDS_MIDDLE, GRAPH_FIELDS_TAIL;
    GraphDataFieldsFirst();
    GraphDataFieldsSecond();
    GraphDataFieldsThird();
    GraphDataFieldsFirstSecond();
    GraphDataFieldsFirstThird();
    GraphDataFieldsSecondThird();
    DistinctAppend(a, b);
    DisjointAppend(a, b, c);
    DistinctAppend(a + b, c);
  }

  /** `add_data` writes every key of the graph's document at most once. */
  lemma AddDataKeysDistinct(graphid: UInt64, rt: ResourceType, d: GraphData)
    ensures Distinct(Keys(AddDataDetails(graphid, rt, d)))
  {
    GraphDataFieldsDistinct();
    FieldKeysDistinct(rt, GRAPH_DATA_FIELDS);
    AddDetailsDistinct(graphid, Prefix(rt), FieldKeys(rt, GRAPH_DATA_FIELDS), GraphDataValues(d));
  }

  /** The arguments of `zbx_audit_graph_update_json_add_gitems` after the ids. */
  datatype GitemData = GitemData(drawtype: int, sortorder: int, color: string, yaxisside: int, calcFnc: int, itemType: int)

  /** The graph-item fields `add_gitems` records, in the order it records them. */
  const GITEM_FIELDS: seq<string> := ["drawtype", "sortorder", "color", "yaxisside", "calc_fnc", "type"]

  /** The values `add_gitems` records, in the order of `GITEM_FIELDS`. */
  function GitemDataValues(g: GitemData): (r: seq<Scalar>)
    ensures |r| == |GITEM_FIELDS|
  {
    [Int(g.drawtype), Int(g.sortorder), Str(g.color), Int(g.yaxisside), Int(g.calcFnc), Int(g.itemType)]
  }

  /** The keys `<prefix>.gitems[<gitemid>].<field>` for a list of fields. */
  function GitemFieldKeys(rt: ResourceType, gitemid: UInt64, fields: seq<string>): (r: seq<string>)
    ensures |r| == |fields| && forall i :: 0 <= i < |fields| ==> r[i] == GitemFieldKey(rt, gitemid, fields[i])
  {
    seq(|fields|, i requires 0 <= i < |fields| => GitemFieldKey(rt, gitemid, fields[i]))
  }

  /** Distinct fields give distinct item keys, none of which is the item's container key. */
  lemma GitemFieldKeysDistinct(rt: ResourceType, gitemid: UInt64, fields: seq<string>)
    requires Distinct(fields)
    ensures Distinct(GitemFieldKeys(rt, gitemid, fields)) && GitemsKey(rt, gitemid) !in GitemFieldKeys(rt, gitemid, fields)
  {
    var ks := GitemFieldKeys(rt, gitemid, fields);
    forall i, j | 0 <= i < j < |ks| ensures ks[i] != ks[j] {
      if ks[i] == ks[j] {
        GitemFieldKeyInjective(rt, gitemid, fields[i], rt, gitemid, fields[j]);
      }
    }
    forall i | 0 <= i < |ks| ensures ks[i] != GitemsKey(rt, gitemid) {
      assert |ks[i]| > |GitemsKey(rt, gitemid)|;
    }
  }

  /** The details `add_gitems` appends: the item's container key, then each field with its value. */
  function AddGitemsDetails(graphid: UInt64, rt: ResourceType, gitemid: UInt64, g: GitemData): seq<Detail> {
    AddDetails(graphid, GitemsKey(rt, gitemid), GitemFieldKeys(rt, gitemid, GITEM_FIELDS), GitemDataValues(g))
  }

  /** No graph-item field is listed twice. */
  lemma GitemFieldsDistinct()
    ensures Distinct(GITEM_FIELDS)
  {
  }

  /** An item's field keys never name a field of another item or of the other resource type. */
  lemma GitemFieldKeysForeign(rt: ResourceType, gitemid: UInt64, fields: seq<string>)
    ensures forall k, rt': ResourceType, id': UInt64, f': string ::
      0 <= k < |fields| && (rt' != rt || id' != gitemid) ==> GitemFieldKeys(rt, gitemid, fields)[k] != GitemFieldKey(rt', id', f')
  {
    var ks := GitemFieldKeys(rt, gitemid, fields);
    forall k, rt': ResourceType, id': UInt64, f': string | 0 <= k < |fields| && (rt' != rt || id' != gitemid)
      ensures ks[k] != GitemFieldKey(rt', id', f')
    {
      if ks[k] == GitemFieldKey(rt', id', f') {
        GitemFieldKeyInjective(rt, gitemid, fields[k], rt', id', f');
      }
    }
  }

  /** `add_gitems` writes every key of the item's document at most once. */
  lemma AddGitemsKeysDistinct(graphid: UInt64, rt: ResourceType, gitemid: UInt64, g: GitemData)
    ensures Distinct(Keys(AddGitemsDetails(graphid, rt, gitemid, g)))
  {
    GitemFieldsDistinct();
    GitemFieldKeysDistinct(rt, gitemid, GITEM_FIELDS);
    AddDetailsDistinct(graphid, GitemsKey(rt, gitemid), GitemFieldKeys(rt, gitemid, GITEM_FIELDS), GitemDataValues(g));
  }

  /** None of the field keys `add_gitems` writes belongs to another item or to the other resource type. */
  lemma AddGitemsKeysOwn(graphid: UInt64, rt: ResourceType, gitemid: UInt64, g: GitemData)
    ensures var ds := AddGitemsDetails(graphid, rt, gitemid, g);
      forall i, rt': ResourceType, id': UInt64, f': string ::
        1 <= i < |ds| && (rt' != rt || id' != gitemid) ==> ds[i].key != GitemFieldKey(rt', id', f')
  {
    var keys := GitemFieldKeys(rt, gitemid, GITEM_FIELDS);
    var ds := AddGitemsDetails(graphid, rt, gitemid, g);
    GitemFieldKeysForeign(rt, gitemid, GITEM_FIELDS);
    assert forall i :: 1 <= i < |ds| ==> ds[i].key == keys[i - 1];
  }

  /** The graph fields that have an `update_*` generator. */
  datatype GraphField =
    | Name | Width | Height | YAxisMin | YAxisMax | ShowWorkPeriod | ShowTriggers | GraphType
    | ShowLegend | Show3d | PercentLeft | PercentRight | YMinType | YMaxType | YMinItemid
    | YMaxItemid | Discover | TemplateId

  /** The field name the generator puts in the key. */
  function GraphFieldName(f: GraphField): string {
    match f
    case Name => "name"
    case Width => "width"
    case Height => "height"
    case YAxisMin => "yaxismin"
    case YAxisMax => "yaxismax"
    case ShowWorkPeriod => "show_work_period"
    case ShowTriggers => "show_triggers"
    case GraphType => "graphtype"
    case ShowLegend => "show_legend"
    case Show3d => "show_3d"
    case PercentLeft => "percent_left"
    case PercentRight => "percent_right"
    case YMinType => "ymin_type"
    case YMaxType => "ymax_type"
    case YMinItemid => "ymin_itemid"
    case YMaxItemid => "ymax_itemid"
    case Discover => "discover"
    case TemplateId => "templateid"
  }

  /** The C type of the generator's old and new values. */
  function GraphFieldKind(f: GraphField): ScalarKind {
    match f
    case Name => StrKind
    case YAxisMin | YAxisMax | PercentLeft | PercentRight => DoubleKind
    case YMinItemid | YMaxItemid | TemplateId => UIntKind
    case _ => IntKind
  }

  /** The graph-item fields that have an `update_gitem_update_*` generator. */
  datatype GitemField = DrawType | SortOrder | Color | YAxisSide | CalcFnc | ItemType

  function GitemFieldName(f: GitemField): string {
    match f
    case DrawType => "drawtype"
    case SortOrder => "sortorder"
    case Color => "color"
    case YAxisSide => "yaxisside"
    case CalcFnc => "calc_fnc"
    case ItemType => "type"
  }

  function GitemFieldKind(f: GitemField): ScalarKind {
    if f == Color then StrKind else IntKind
  }

  // ---------------------------------------------------------------- registration of deleted graphs

  /** Columns 0, 1 and 2 of a row of the delete query: id, name and flags. */
  datatype GraphRow = GraphRow(id: UInt64, name: string, flags: int)

  predicate AllGraphFlags(rows: seq<GraphRow>) {
    forall i :: 0 <= i < |rows| ==> IsGraphFlag(rows[i].flags)
  }

  /** The ids of the rows, in row order. */
  function RowIds(rows: seq<GraphRow>): (r: seq<UInt64>)
    ensures |r| == |rows| && forall i :: 0 <= i < |rows| ==> r[i] == rows[i].id
  {
    seq(|rows|, i requires 0 <= i < |rows| => rows[i].id)
  }

  /** The audit entry `create_entry` makes for a fresh graph id. */
  function NewEntry(action: AuditAction, graphid: UInt64, name: string, flags: int): AuditEntry
    requires IsGraphFlag(flags)
  {
    AuditEntry(graphid, name, action, FlagToResourceType(flags))
  }

  /** The table after registering an entry: unchanged when its id is already there. */
  function InsertIfAbsent(entries: map<UInt64, AuditEntry>, e: AuditEntry): map<UInt64, AuditEntry> {
    if e.id in entries then entries else entries[e.id := e]
  }

  /** The table after registering a `DELETE` entry for each row in turn. */
  function RegisterDeletes(entries: map<UInt64, AuditEntry>, rows: seq<GraphRow>): map<UInt64, AuditEntry>
    requires AllGraphFlags(rows)
  {
    if rows == [] then entries
    else
      var last := rows[|rows| - 1];
      InsertIfAbsent(RegisterDeletes(entries, rows[..|rows| - 1]), NewEntry(Delete, last.id, last.name, last.flags))
  }

  /** Registering deletes adds exactly the row ids, and entries already present are left as they were. */
  lemma {:induction false} RegisterDeletesKeeps(entries: map<UInt64, AuditEntry>, rows: seq<GraphRow>)
    requires AllGraphFlags(rows)
    ensures RegisterDeletes(entries, rows).Keys == entries.Keys + set i | 0 <= i < |rows| :: rows[i].id
    ensures forall id :: id in entries ==> RegisterDeletes(entries, rows)[id] == entries[id]
  {
    if rows != [] {
      var init := rows[..|rows| - 1];
      RegisterDeletesKeeps(entries, init);
      assert (set i | 0 <= i < |rows| :: rows[i].id) == (set i | 0 <= i < |init| :: init[i].id) + {rows[|rows| - 1].id};
    }
  }

  /** A new id gets the `DELETE` entry of the first row that carries it: the first registration wins. */
  lemma {:induction false} RegisterDeletesFirstWins(entries: map<UInt64, AuditEntry>, rows: seq<GraphRow>, k: int)
    requires AllGraphFlags(rows)
    requires 0 <= k < |rows| && rows[k].id !in entries
    requires forall j :: 0 <= j < k ==> rows[j].id != rows[k].id
    ensures rows[k].id in RegisterDeletes(entries, rows)
    ensures RegisterDeletes(entries, rows)[rows[k].id] == NewEntry(Delete, rows[k].id, rows[k].name, rows[k].flags)
  {
    var init := rows[..|rows| - 1];
    if k < |rows| - 1 {
      RegisterDeletesFirstWins(entries, init, k);
    } else {
      RegisterDeletesKeeps(entries, init);
      assert rows[k].id !in RegisterDeletes(entries, init) by {
        if rows[k].id in RegisterDeletes(entries, init) {
          assert false;
        }
      }
    }
  }

  /** Registering one more row of a prefix. */
  lemma RowsPrefixStep(entries: map<UInt64, AuditEntry>, rows: seq<GraphRow>, i: int, enabled: bool)
    requires 0 <= i < |rows| && (enabled ==> AllGraphFlags(rows))
    ensures RowIds(rows[..i + 1]) == RowIds(rows[..i]) + [rows[i].id]
    ensures enabled ==>
      RegisterDeletes(entries, rows[..i + 1]) == InsertIfAbsent(RegisterDeletes(entries, rows[..i]), NewEntry(Delete, rows[i].id, rows[i].name, rows[i].flags))
  {
    assert rows[..i + 1][..i] == rows[..i];
  }

  /** Every entry is stored under its own id. */
  ghost predicate KeyedById(entries: map<UInt64, AuditEntry>) {
    forall id :: id in entries ==> entries[id].id == id
  }

  /** Registering deletes keeps every entry under its own id. */
  lemma {:induction false} RegisterDeletesKeyed(entries: map<UInt64, AuditEntry>, rows: seq<GraphRow>)
    requires AllGraphFlags(rows) && KeyedById(entries)
    ensures KeyedById(RegisterDeletes(entries, rows))
  {
    if rows != [] {
      RegisterDeletesKeyed(entries, rows[..|rows| - 1]);
    }
  }

  // ---------------------------------------------------------------- sorting the id vector

  predicate SortedAscending(s: seq<UInt64>) {
    forall i, j :: 0 <= i < j < |s| ==> s[i] <= s[j]
  }

  /** `s` with `x` inserted before the first element not below it. */
  function Insert(s: seq<UInt64>, x: UInt64): seq<UInt64> {
    if s == [] || x <= s[0] then [x] + s else [s[0]] + Insert(s[1..], x)
  }

  /** Inserting adds exactly `x`. */
  lemma {:induction false} InsertPermutes(s: seq<UInt64>, x: UInt64)
    ensures multiset(Insert(s, x)) == multiset(s) + multiset{x}
  {
    if s != [] && x > s[0] {
      InsertPermutes(s[1..], x);
      assert s == [s[0]] + s[1..];
    }
  }

  /** Inserting a value no smaller than a bound into values no smaller than it keeps them all above it. */
  lemma {:induction false} InsertBounded(s: seq<UInt64>, x: UInt64, b: int)
    requires forall k :: 0 <= k < |s| ==> b <= s[k]
    requires b <= x
    ensures forall k :: 0 <= k < |Insert(s, x)| ==> b <= Insert(s, x)[k]
  {
    if s != [] && x > s[0] {
      InsertBounded(s[1..], x, b);
      assert Insert(s, x) == [s[0]] + Insert(s[1..], x);
    }
  }

  /** Inserting into a sorted sequence keeps it sorted. */
  lemma {:induction false} InsertSorted(s: seq<UInt64>, x: UInt64)
    requires SortedAscending(s)
    ensures SortedAscending(Insert(s, x))
  {
    if s != [] && x > s[0] {
      var tail := s[1..];
      InsertSorted(tail, x);
      InsertBounded(tail, x, s[0]);
      assert Insert(s, x) == [s[0]] + Insert(tail, x);
    }
  }

  lemma PrefixMultisetStep(s: seq<UInt64>, i: int)
    requires 0 <= i < |s|
    ensures multiset(s[..i + 1]) == multiset(s[..i]) + multiset{s[i]}
  {
    assert s[..i + 1] == s[..i] + [s[i]];
  }

  /** The id vector of the delete collector. */
  class IdVector {
    var values: seq<UInt64>

    constructor (values: seq<UInt64>)
      ensures this.values == values
    {
      this.values := values;
    }

    /** `zbx_vector_uint64_append`. */
    method Append(id: UInt64)
      modifies this
      ensures values == old(values) + [id]
    {
      values := values + [id];
    }

    /** `zbx_vector_uint64_sort` with the default ascending comparison. */
    method Sort()
      modifies this
      ensures SortedAscending(values)
      ensures multiset(values) == multiset(old(values))
    {
      var input := values;
      var sorted: seq<UInt64> := [];
      var i := 0;
      while i < |input|
        invariant 0 <= i <= |input|
        invariant SortedAscending(sorted)
        invariant multiset(sorted) == multiset(input[..i])
      {
        InsertSorted(sorted, input[i]);
        InsertPermutes(sorted, input[i]);
        PrefixMultisetStep(input, i);
        sorted := Insert(sorted, input[i]);
        i := i + 1;
      }
      assert input[..i] == input;
      values := sorted;
    }
  }

  // ---------------------------------------------------------------- the audit table

  /** The global audit state: whether auditing is on, the table of entries, the detail records. */
  class AuditLog {
    var enabled: bool
    var entries: map<UInt64, AuditEntry>
    var details: seq<Detail>

    ghost predicate Valid()
      reads this
    {
      KeyedById(entries)
    }

    constructor (enabled: bool)
      ensures Valid() && this.enabled == enabled && entries == map[] && details == []
    {
      this.enabled := enabled;
      entries := map[];
      details := [];
    }

    /** `zbx_audit_graph_create_entry`: registers the graph unless it already has an entry; a fresh
        `ADD` entry also records the graph id. Nothing happens when auditing is off. */
    method CreateEntry(action: AuditAction, graphid: UInt64, name: string, flags: int)
      requires Valid()
      requires enabled ==> IsGraphFlag(flags)
      modifies this
      ensures Valid() && enabled == old(enabled)
      ensures !enabled ==> entries == old(entries) && details == old(details)
      ensures enabled && graphid in old(entries) ==> entries == old(entries) && details == old(details)
      ensures enabled ==> graphid in entries && entries[graphid].id == graphid
      ensures enabled && graphid !in old(entries) ==>
        && entries == old(entries)[graphid := NewEntry(action, graphid, name, flags)]
        && details == old(details) + (if action == Add
             then [Detail(graphid, DetailsAdd, FieldKey(FlagToResourceType(flags), "graphid"), Value(UInt(graphid)))]
             else [])
    {
      if !enabled {
        return;
      }
      var resourceType := FlagToResourceType(flags);
      if graphid !in entries {
        entries := entries[graphid := AuditEntry(graphid, name, action, resourceType)];
        if action == Add {
          details := details + [Detail(graphid, DetailsAdd, FieldKey(resourceType, "graphid"), Value(UInt(graphid)))];
        }
      }
    }

    /** `zbx_audit_graph_update_json_add_data`. */
    method AddData(graphid: UInt64, d: GraphData)
      requires enabled ==> IsGraphFlag(d.flags)
      modifies this`details
      ensures !enabled ==> details == old(details)
      ensures enabled ==> details == old(details) + AddDataDetails(graphid, FlagToResourceType(d.flags), d)
    {
      if !enabled {
        return;
      }
      var resourceType := FlagToResourceType(d.flags);
      details := details + AddDataDetails(graphid, resourceType, d);
    }

    /** `zbx_audit_graph_update_json_add_gitems`. */
    method AddGitems(graphid: UInt64, flags: int, gitemid: UInt64, g: GitemData)
      requires enabled ==> IsGraphFlag(flags)
      modifies this`details
      ensures !enabled ==> details == old(details)
      ensures enabled ==> details == old(details) + AddGitemsDetails(graphid, FlagToResourceType(flags), gitemid, g)
    {
      if !enabled {
        return;
      }
      var resourceType := FlagToResourceType(flags);
      details := details + AddGitemsDetails(graphid, resourceType, gitemid, g);
    }

    /** The `zbx_audit_graph_update_json_update_<field>` generators: one change record per call. */
    method UpdateGraphField(graphid: UInt64, flags: int, field: GraphField, oldValue: Scalar, newValue: Scalar)
      requires enabled ==> IsGraphFlag(flags)
      requires HasKind(oldValue, GraphFieldKind(field)) && HasKind(newValue, GraphFieldKind(field))
      modifies this`details
      ensures !enabled ==> details == old(details)
      ensures enabled ==>
        details == old(details) + [Detail(graphid, DetailsUpdate, FieldKey(FlagToResourceType(flags), GraphFieldName(field)), Change(oldValue, newValue))]
    {
      if !enabled {
        return;
      }
      var resourceType := FlagToResourceType(flags);
      var key := FieldKey(resourceType, GraphFieldName(field));
      details := details + [Detail(graphid, DetailsUpdate, key, Change(oldValue, newValue))];
    }

    /** `zbx_audit_graph_update_json_update_gitem_create_entry`: records the item's container key as an update. */
    method UpdateGitemCreateEntry(graphid: UInt64, flags: int, gitemid: UInt64)
      requires enabled ==> IsGraphFlag(flags)
      modifies this`details
      ensures !enabled ==> details == old(details)
      ensures enabled ==>
        details == old(details) + [Detail(graphid, DetailsUpdate, GitemsKey(FlagToResourceType(flags), gitemid), NoValue)]
    {
      if !enabled {
        return;
      }
      var resourceType := FlagToResourceType(flags);
      details := details + [Detail(graphid, DetailsUpdate, GitemsKey(resourceType, gitemid), NoValue)];
    }

    /** The `zbx_audit_graph_update_json_update_gitem_update_<field>` generators. */
    method UpdateGitemField(graphid: UInt64, flags: int, gitemid: UInt64, field: GitemField, oldValue: Scalar, newValue: Scalar)
      requires enabled ==> IsGraphFlag(flags)
      requires HasKind(oldValue, GitemFieldKind(field)) && HasKind(newValue, GitemFieldKind(field))
      modifies this`details
      ensures !enabled ==> details == old(details)
      ensures enabled ==>
        details == old(details) + [Detail(graphid, DetailsUpdate, GitemFieldKey(FlagToResourceType(flags), gitemid, GitemFieldName(field)), Change(oldValue, newValue))]
    {
      if !enabled {
        return;
      }
      var resourceType := FlagToResourceType(flags);
      var key := GitemFieldKey(resourceType, gitemid, GitemFieldName(field));
      details := details + [Detail(graphid, DetailsUpdate, key, Change(oldValue, newValue))];
    }

    /** `zbx_audit_DBselect_delete_for_graph`: appends every row's id, registers a `DELETE` entry
        for it, then sorts the ids. */
    method DeleteForGraph(rows: seq<GraphRow>, ids: IdVector)
      requires Valid()
      requires enabled ==> AllGraphFlags(rows)
      modifies this, ids
      ensures Valid() && enabled == old(enabled)
      ensures SortedAscending(ids.values)
      ensures multiset(ids.values) == multiset(old(ids.values)) + multiset(RowIds(rows))
      ensures entries == if enabled then RegisterDeletes(old(entries), rows) else old(entries)
      ensures enabled ==> forall k :: 0 <= k < |rows| ==> rows[k].id in entries && entries[rows[k].id].id == rows[k].id
      ensures details == old(details)
    {
      var i := 0;
      while i < |rows|
        invariant 0 <= i <= |rows|
        invariant Valid() && enabled == old(enabled) && details == old(details)
        invariant ids.values == old(ids.values) + RowIds(rows[..i])
        invariant entries == if enabled then RegisterDeletes(old(entries), rows[..i]) else old(entries)
      {
        var row := rows[i];
        RowsPrefixStep(old(entries), rows, i, enabled);
        ids.Append(row.id);
        CreateEntry(Delete, row.id, row.name, row.flags);
        i := i + 1;
      }
      assert rows[..i] == rows;
      if enabled {
        RegisterDeletesKeeps(old(entries), rows);
        forall k | 0 <= k < |rows| ensures rows[k].id in entries {
          assert rows[k].id in set j | 0 <= j < |rows| :: rows[j].id;
        }
      }
      ids.Sort();
    }
  }
}
