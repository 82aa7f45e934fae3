# Zabbix dashboard view, message-template popup and graph audit, in Dafny

This project models three pieces of Zabbix and proves properties of them.

- **The dashboard page controller** (`CControllerDashboardView`). It picks the dashboard to show. The first matching rule wins: `new`, then a clone of `source_dashboardid`, then an explicit, remembered or default id. It remembers a successfully loaded id in the user's preferences. It resolves the owner's name, falling back to a placeholder. It turns the widget list into the `grid_widgets` array keyed by widget id. It collapses each widget's field records into a name-keyed array: a single value for a name seen once, a list for a repeated name. It also reports whether any widget has the `dynamic` switch on. The controller is a class: its preferences and chosen dashboard are fields that its methods update. PHP ordered arrays are `Assoc` values, a key order plus a map (`php_array.dfy`).
- **The media-type message-template popup** (`CControllerPopupMediatypeMessage`). When an existing template is edited, its old message type is removed from the list of types in use. A new template without a type gets the first catalog type not yet in use, or "problem", together with that type's canned subject and body. In both branches the event source and recovery stage are derived from the message type when the request gives neither.
- **The graph audit bookkeeping** (`audit_graph.c`). It maps a discovery flag to a resource type and builds audit keys such as `graph.width` or `graphprototype.gitems[42].color`. It registers audit entries in a table keyed by graph id, where the first registration wins, and appends detail records. When graphs are deleted, it appends their ids to a vector, registers a `DELETE` entry for each and sorts the vector. The audit state and the id vector are classes.

External services are parameters:
- the Data API's dashboards and users are maps;
- the preference store is a `Profile` value;
- the widget configuration is the function-typed `WidgetConfig`;
- the media-type helper is the `Helper` value;
- the rows of the delete query are a sequence.

With nothing in use, a blank template gets the catalog's first type. That is "problem" only because the catalog starts with it (`MediatypeMessage.DefaultWithNothingInUse`).

Files:
- `common.dfy`: `Option`.
- `php_array.dfy`: ordered associative arrays.
- `dashboard_view.dfy`, `mediatype_message.dfy`, `audit_graph.dfy`: one module per source file.

## Model

| member | source | states |
|---|---|---|
| DashboardView.OwnerData | frontends/php/app/controllers/CControllerDashboardView.php:180-193 | the owner id is always the given user id; the name is the "Inaccessible user" placeholder exactly when the user lookup finds nothing, otherwise the user's name |
| DashboardView.NewDashboard | frontends/php/app/controllers/CControllerDashboardView.php:162-171 | a new dashboard is unsaved (id 0), unnamed, editable and empty, and is owned by the session user, whose name is looked up with the placeholder fallback |
| DashboardView.ResolvedId | frontends/php/app/controllers/CControllerDashboardView.php:130-134 | the looked-up id is the explicit id, else the remembered id, else 0; a 0 becomes the default dashboard id unless the list page was opened (preference equal to 1) |
| DashboardView.ResolveDashboard | frontends/php/app/controllers/CControllerDashboardView.php:107-155 | new and cloned dashboards are owned by the session user; in the lookup branch a dashboard is returned exactly when the resolved id is non-zero and stored, and it then carries the stored id, widgets and owner |
| DashboardView.ProfileAfter | frontends/php/app/controllers/CControllerDashboardView.php:144-149 | the remembered dashboard id becomes the looked-up id exactly when the lookup found the dashboard; otherwise, and for every other preference, nothing changes |
| DashboardView.ReopenShowsSame | frontends/php/app/controllers/CControllerDashboardView.php:130-149 | after a successful lookup, a later request that names no dashboard resolves the same id and shows the same dashboard |
| DashboardView.NewTakesPrecedence | frontends/php/app/controllers/CControllerDashboardView.php:110-111 | with `new`, the result is the unsaved empty editable dashboard (id 0, name "", no widgets) owned by the session user, whatever the other inputs say, and the preferences are untouched |
| DashboardView.CloneResult | frontends/php/app/controllers/CControllerDashboardView.php:113-127 | a found clone source gives id 0 with the source's name and widgets, owned by the session user; a missing source gives null; the preferences are untouched |
| DashboardView.ExplicitMissingIsNull | frontends/php/app/controllers/CControllerDashboardView.php:136-151 | an explicit non-zero id that the API does not return gives null whatever the preferences hold, and the preferences are not rewritten |
| DashboardView.ZeroIdIsNull | frontends/php/app/controllers/CControllerDashboardView.php:136 | a resolved id of 0 gives null, independently of what the API holds (no lookup) |
| DashboardView.DefaultWhenNothingChosen | frontends/php/app/controllers/CControllerDashboardView.php:130-134 | with no explicit id, nothing remembered and the list never opened, the default dashboard id is looked up |
| DashboardView.Controller.GetDashboard | frontends/php/app/controllers/CControllerDashboardView.php:107-155 | returns the dashboard `ResolveDashboard` specifies and rewrites the remembered id only when the lookup succeeded |
| DashboardView.Controller.CheckPermissions | frontends/php/app/controllers/CControllerDashboardView.php:51-59 | user types below Zabbix user are refused without resolving; otherwise the dashboard is resolved and access is refused only when an explicit id resolved to null |
| DashboardView.Controller.DoAction | frontends/php/app/controllers/CControllerDashboardView.php:61-100 | no dashboard redirects to `dashboard.list`; otherwise the page data holds the dashboard, fullscreen and filter flags with their defaults of 0, the widget grid `GetWidgets` specifies, and the dynamic-widget flag |
| DashboardView.OccurrencesCount | frontends/php/app/controllers/CControllerDashboardView.php:232-247 | a name collects exactly as many values as there are records with that name |
| DashboardView.OccurrencesAppend | frontends/php/app/controllers/CControllerDashboardView.php:234-244 | values of a name over concatenated records are the first part's followed by the second part's (input order is kept) |
| DashboardView.OccurrencesNone | frontends/php/app/controllers/CControllerDashboardView.php:234-244 | a name no record carries collects no value |
| DashboardView.ConvertedSingle | frontends/php/app/controllers/CControllerDashboardView.php:241-243 | a name occurring once maps to its single value, read from the column its field type names |
| DashboardView.ConvertedRepeated | frontends/php/app/controllers/CControllerDashboardView.php:237-240 | a name occurring k > 1 times maps to the list of its k values in input order |
| DashboardView.ConvertedKeys | frontends/php/app/controllers/CControllerDashboardView.php:232-247 | the result is a well-formed ordered array whose keys are exactly the field names |
| DashboardView.ConvertedFieldsStep | frontends/php/app/controllers/CControllerDashboardView.php:237-243 | one more record either appends its value to the existing entry (cast to a list) or adds a new scalar entry at the end of the key order |
| DashboardView.ConvertedValuesStep | frontends/php/app/controllers/CControllerDashboardView.php:237-243 | one more record changes only the entry of its own name |
| DashboardView.CollapseStep | frontends/php/app/controllers/CControllerDashboardView.php:238-239 | a name already holding values, given one more, holds the list of the old values (a single value cast to a list) followed by the new one |
| DashboardView.ConvertWidgetFields | frontends/php/app/controllers/CControllerDashboardView.php:232-247 | the loop builds exactly the collapsed field array `ConvertedFields` |
| DashboardView.ConvertedPair | frontends/php/app/controllers/CControllerDashboardView.php:237-240 | two records carrying the same name, and no others, give that single key holding the list of both values in input order |
| DashboardView.ColumnsExample | frontends/php/app/controllers/CControllerDashboardView.php:237-240 | two string fields named `columns` with values 3 and 5 give the single key `columns` mapped to the list [3, 5] |
| DashboardView.ColumnsOccurrences | frontends/php/app/controllers/CControllerDashboardView.php:235-240 | the two `columns` records contribute their string values 3 and 5, in that order |
| DashboardView.LastWithIdFound | frontends/php/app/controllers/CControllerDashboardView.php:203-220 | the widget kept for an id is present exactly when some widget has that id, and no later widget has it |
| DashboardView.GridWidgetHeaderAndRate | frontends/php/app/controllers/CControllerDashboardView.php:205-217 | the header is the widget's name; the refresh rate is the stored per-widget rate, else the type's default |
| DashboardView.LastEntriesKeys | frontends/php/app/controllers/CControllerDashboardView.php:203-220 | storing widgets by id gives exactly the widget ids as keys |
| DashboardView.LastEntriesStep | frontends/php/app/controllers/CControllerDashboardView.php:207 | storing one more widget replaces the entry of its id and leaves every other entry unchanged |
| DashboardView.GridWidgetsEntries | frontends/php/app/controllers/CControllerDashboardView.php:200-223 | one entry per distinct widget id, keys exactly the ids present; a widget with no later duplicate supplies its id's entry, so a later duplicate overwrites an earlier one |
| DashboardView.GridWidgetsStep | frontends/php/app/controllers/CControllerDashboardView.php:207-219 | processing one more widget stores its entry under its id, replacing an earlier one in place |
| DashboardView.GridWidgetEntry | frontends/php/app/controllers/CControllerDashboardView.php:204-219 | the loop body builds the entry `GridWidgetOf` specifies: id, type, header, integer position, refresh rate and converted fields |
| DashboardView.GetWidgets | frontends/php/app/controllers/CControllerDashboardView.php:200-223 | the loop builds exactly the grid `GridWidgets` |
| DashboardView.HasDynamicField | frontends/php/app/controllers/CControllerDashboardView.php:258-263 | true iff some field is named `dynamic` with integer value 1 |
| DashboardView.HasDynamicWidgets | frontends/php/app/controllers/CControllerDashboardView.php:256-267 | true iff some field of some widget is named `dynamic` with integer value 1; false for no widgets |
| PhpArray.FirstSeen | frontends/php/app/controllers/CControllerDashboardView.php:207 | the keys of an array filled by assignment: duplicate-free, holding exactly the assigned keys |
| PhpArray.PutFirstSeen | frontends/php/app/controllers/CControllerDashboardView.php:242 | assigning a key keeps the first-assignment key order |
| MediatypeMessage.Controller.Init | frontends/php/app/controllers/CControllerPopupMediatypeMessage.php:32-36 | the catalog field holds the helper's full list of message types |
| MediatypeMessage.Controller.CheckPermissions | frontends/php/app/controllers/CControllerPopupMediatypeMessage.php:68-70 | always allowed |
| MediatypeMessage.Controller.DoAction | frontends/php/app/controllers/CControllerPopupMediatypeMessage.php:72-123 | type and content type are copied, an absent one as null (also into the template lookup); the update branch removes the old type from the in-use list and forwards type, subject and message; the create branch forwards a given type with its subject and message, or picks the default type and its canned template; event source and recovery are derived from the message type exactly when neither input is truthy, otherwise both are absent |
| MediatypeMessage.WithoutRemovesExactly | frontends/php/app/controllers/CControllerPopupMediatypeMessage.php:91-95 | after the update loop the old type no longer occurs and every other type keeps its number of occurrences |
| MediatypeMessage.WithoutAppend | frontends/php/app/controllers/CControllerPopupMediatypeMessage.php:91-95 | removal works part by part, so kept types keep their relative order |
| MediatypeMessage.WithoutAbsent | frontends/php/app/controllers/CControllerPopupMediatypeMessage.php:91-95 | removing a type that is not in use leaves the list unchanged |
| MediatypeMessage.RemoveType | frontends/php/app/controllers/CControllerPopupMediatypeMessage.php:91-95 | the loop keeps exactly the types different from the old one, in order |
| MediatypeMessage.FirstFreeIsFirst | frontends/php/app/controllers/CControllerPopupMediatypeMessage.php:107-108 | the first of the catalog minus the in-use types is absent exactly when every catalog type is in use, and otherwise is a free type all of whose catalog predecessors are in use |
| MediatypeMessage.DefaultIsFirstFreeOrProblem | frontends/php/app/controllers/CControllerPopupMediatypeMessage.php:107-109 | the chosen default is the first free type, or "problem" when every type is in use |
| MediatypeMessage.DefaultWithNothingInUse | frontends/php/app/controllers/CControllerPopupMediatypeMessage.php:107-109 | with nothing in use the first catalog type is chosen |
| AuditGraph.FlagToResourceType | src/libs/zbxaudit/audit_graph.c:25-41 | normal and created graphs are graphs, prototypes are graph prototypes; other flags are excluded by the precondition |
| AuditGraph.Decimal | src/libs/zbxaudit/audit_graph.c:163-165 | the decimal form of an id is non-empty and made of digits only |
| AuditGraph.DecimalInjective | src/libs/zbxaudit/audit_graph.c:163-165 | different ids have different decimal forms |
| AuditGraph.FieldKeyInjective | src/libs/zbxaudit/audit_graph.c:42 | `graph.<field>` and `graphprototype.<field>` keys never collide, and each names a single field |
| AuditGraph.DecimalBracketInjective | src/libs/zbxaudit/audit_graph.c:163-165 | a decimal id followed by `]` determines both the id and the rest of the key |
| AuditGraph.GitemFieldKeyInjective | src/libs/zbxaudit/audit_graph.c:163-172 | graph-item field keys of different items, fields or resource types differ |
| AuditGraph.AddDetails | src/libs/zbxaudit/audit_graph.c:120-143 | an `add_*` generator records its container key without a value first, then each key with its value, all as additions |
| AuditGraph.AddDetailsDistinct | src/libs/zbxaudit/audit_graph.c:120-143 | with distinct field keys and a different container key, no key is recorded twice |
| AuditGraph.FieldKeysDistinct | src/libs/zbxaudit/audit_graph.c:97-118 | distinct field names give distinct `<prefix>.<field>` keys, none equal to the container key |
| AuditGraph.GraphDataFieldsDistinct | src/libs/zbxaudit/audit_graph.c:100-118 | no graph field is recorded twice by `add_data` |
| AuditGraph.AddDataKeysDistinct | src/libs/zbxaudit/audit_graph.c:76-148 | `add_data` writes each key of the graph's document at most once |
| AuditGraph.GitemFieldKeysDistinct | src/libs/zbxaudit/audit_graph.c:163-172 | distinct item field names give distinct item keys, none equal to the item's container key |
| AuditGraph.GitemFieldsDistinct | src/libs/zbxaudit/audit_graph.c:166-172 | no graph-item field is recorded twice by `add_gitems` |
| AuditGraph.AddGitemsKeysDistinct | src/libs/zbxaudit/audit_graph.c:150-185 | `add_gitems` writes each key of the item's document at most once |
| AuditGraph.GitemFieldKeysForeign | src/libs/zbxaudit/audit_graph.c:163-172 | an item's field keys never name a field of another item or of the other resource type |
| AuditGraph.AddGitemsKeysOwn | src/libs/zbxaudit/audit_graph.c:150-185 | none of the field keys `add_gitems` writes belongs to another item or to the other resource type |
| AuditGraph.RegisterDeletesKeeps | src/libs/zbxaudit/audit_graph.c:271-281 | registering deletes adds exactly the row ids to the table and leaves existing entries unchanged |
| AuditGraph.RegisterDeletesFirstWins | src/libs/zbxaudit/audit_graph.c:56-66 | a new id gets the `DELETE` entry of the first row carrying it; later rows with that id change nothing |
| AuditGraph.RegisterDeletesKeyed | src/libs/zbxaudit/audit_graph.c:54-66 | every entry stays stored under its own graph id |
| AuditGraph.InsertPermutes | src/libs/zbxaudit/audit_graph.c:285 | inserting into the sorted prefix adds exactly the inserted id |
| AuditGraph.InsertBounded | src/libs/zbxaudit/audit_graph.c:285 | inserting keeps every value above a common lower bound |
| AuditGraph.InsertSorted | src/libs/zbxaudit/audit_graph.c:285 | inserting into a sorted sequence keeps it sorted |
| AuditGraph.IdVector.Append | src/libs/zbxaudit/audit_graph.c:277 | the id is appended at the end |
| AuditGraph.IdVector.Sort | src/libs/zbxaudit/audit_graph.c:285 | the ids end up in ascending order and are a permutation of the old ids |
| AuditGraph.AuditLog.CreateEntry | src/libs/zbxaudit/audit_graph.c:44-74 | nothing happens when auditing is off; an existing entry is left unchanged; a new id gets an entry with the action, name and resource type; with auditing on, the graph afterwards always has an entry stored under its own id; only a fresh `ADD` appends exactly one detail, `<prefix>.graphid` with the graph id |
| AuditGraph.AuditLog.AddData | src/libs/zbxaudit/audit_graph.c:76-148 | when auditing is on, appends the container key and the nineteen graph fields in their fixed order with their values |
| AuditGraph.AuditLog.AddGitems | src/libs/zbxaudit/audit_graph.c:150-185 | when auditing is on, appends the item's container key and its six fields in their fixed order |
| AuditGraph.AuditLog.UpdateGraphField | src/libs/zbxaudit/audit_graph.c:187-220 | when auditing is on, appends exactly one update record keyed `<prefix>.<field>` carrying the old and the new value |
| AuditGraph.AuditLog.UpdateGitemCreateEntry | src/libs/zbxaudit/audit_graph.c:225-237 | when auditing is on, appends one update record with the item's container key and no value |
| AuditGraph.AuditLog.UpdateGitemField | src/libs/zbxaudit/audit_graph.c:239-259 | when auditing is on, appends exactly one update record keyed `<prefix>.gitems[<id>].<field>` carrying the old and the new value |
| AuditGraph.AuditLog.DeleteForGraph | src/libs/zbxaudit/audit_graph.c:264-286 | the ids end up sorted ascending and a permutation of the old ids plus every row id; with auditing on, each row registers a `DELETE` entry in row order (first registration wins), so every deleted graph has an entry stored under its own id; no detail is appended |

## Left out

- Database access (`DBselect`, `DBfetch`, `DBfree_result`): the rows of the delete query are an input sequence. The conversion of their columns (`ZBX_STR2UINT64`, `atoi`) is taken as already done.
- The internals of the audit hash set and of the `zbx_audit_update_json_*` functions, and JSON rendering. They are a map from id to entry plus an append-only list of detail records.
- Logging and the process exit on an unexpected discovery flag: a precondition on every audit operation that needs the resource type, required only while auditing is on, as the C code computes it only then.
- `zbx_snprintf` truncation at `AUDIT_DETAILS_KEY_LEN`: keys are taken to fit.
- Double-valued audit fields (`yaxismin`, `yaxismax`, `percent_left`, `percent_right`) are carried as `real` values. Floating-point formatting is not modelled.
- `zbx_vector_uint64_sort`: its `qsort` is modelled by an insertion sort. Only its result (ascending order, same multiset) is claimed.
- The numeric values of `ZBX_FLAG_DISCOVERY_*`, `USER_TYPE_ZABBIX_USER`, `DASHBOARD_DEFAULT_ID` and `CMediatypeHelper::MSG_TYPE_PROBLEM` come from headers that are not part of this model. They are taken as 0/2/4, 1, 1 and 0.
- `API::Dashboard()`, `API::User()`, `CProfile`, `CWidgetConfig`, `CMediatypeHelper` and `getUserFullname` are abstract maps and functions. `prepareEditableFlag` is taken as already applied to the stored `editable` flag.
- Input validation (`checkInput`), `CPageFilter` with its host and group ids, `widget_defaults`, the response, URL and title objects, and the `_()` translations.
- DashboardView.Controller.DoAction: the host and group ids of the page filter and the widget defaults are not part of the modelled page data.
- MediatypeMessage.Controller.DoAction: an absent `message_types` parameter (PHP `null`) is not modelled. The PHP array index holes that `unset` leaves are not modelled: the result is a dense list of the kept types in order.
- PHP loose comparisons: message types and field values are modelled as integers and strings, so `==` is plain equality.
