# Analytica data models and workspaces in Dafny

This project models two parts of the Analytica analytics back end.

- **The semantic data-model engine** (`analytica/models/data_model.py`):
  - the schema records;
  - the simplified DAX measure language (the six aggregates, the evaluator for `FUNC(Table[Column])` and the static validator);
  - the relationship-suggestion heuristic;
  - the two in-place mutators that append a relationship or a validated measure to a model;
  - the quick-measure templates.
- **The workspace permission and sharing model** (`analytica/models/workspace.py`):
  - members with roles and the fixed role-to-action table;
  - adding and removing members;
  - permission and role lookup;
  - creating and publishing dashboards, and looking up public dashboards;
  - the access-filtered workspace listing and owner-only deletion.

The workspace files on disk are modelled as a store object holding a `map` from workspace id to workspace.

Files:

- `wrappers.dfy`: `Option`.
- `text.dfy` (module `Text`): the Python string operations the code relies on, on ASCII. These are `upper`, `lower`, `count` of one character, `startswith`, `strip`, `split` on one character, `rstrip` and the substring test `in`.
- `dax.dfy` (module `Dax`): the aggregates, the evaluator, the validator and the quick measures.
- `data_modeling.dfy` (module `DataModeling`): the schema records, the suggestion heuristic, and the `DataModel` class with its three operations.
- `workspaces.dfy` (module `Workspaces`): the records, roles, member-list reasoning, dashboards, and the `WorkspaceStore` class.

Code that works by mutation is modelled as methods:

- the loops of `parse_dax` and `detect_relationships`;
- the step-by-step update of `validate_dax`'s result record;
- the appends to `model.relationships` and `model.measures`;
- every state-changing workspace operation.

Each method is proved against a specification function or predicate, and the properties are proved about those functions as lemmas. The role table, the aggregate table and the quick-measure templates are pure functions.

Behaviours of the code that the model keeps, and proves where a lemma is named:

- `detect_relationships` does no sorting. Suggestions come in nested-loop order (`DataModeling.UnsortedExample`).
- The foreign-key rule suggests `<table>.id` whether or not that table has an `id` column (`DataModeling.ForeignKeySuggested`).
- `create_relationship` makes no duplicate or endpoint check.
- For a missing key, every aggregate gives 0: `data.get` falls back to `[]`, `[1]` or `[0]`.
- For a present but empty column, AVERAGE raises a division by zero and MIN and MAX raise on an empty sequence. These are modelled as `Raised(...)` results.
- The evaluator reads only one aggregate call. `SUM(T[C]) + SUM(U[D])` is read as a single SUM whose key runs from `C` up to the second table name (`Dax.SumOfTwoSums`). The two composite quick-measure templates are not aggregate calls, so the evaluator does not read them (`Dax.CompositeQuickMeasureUnsupported`).
- The public-dashboard lookup tests whether the token is contained in the link, not whether it equals it. Any piece of a public link finds the dashboard, the empty text included (`Workspaces.AnyPieceFindsPublished`).
- An admin may add a user with the `owner` role, who then holds `manage` (`Workspaces.AdminCanGrantOwner`).
- A failed `create_dashboard` because the workspace does not exist reports the permission error. `check_permission` is already false for a missing workspace, so the later not-found branch never runs.

## Model

| member | source | states |
|---|---|---|
| Dax.Apply | analytica/models/data_model.py:153-160 | For a present key:<br>- SUM is the total;<br>- COUNT is the length;<br>- DISTINCTCOUNT is the number of distinct values;<br>- AVERAGE is total over length, or a division-by-zero error on an empty column;<br>- MIN and MAX are a member of the column bounding every value, or an empty-sequence error.<br>For a missing key, every aggregate gives 0. |
| Dax.Smallest | analytica/models/data_model.py:157 | `min` of a non-empty column is one of its values and is at most every value |
| Dax.Largest | analytica/models/data_model.py:158 | `max` of a non-empty column is one of its values and is at least every value |
| Dax.TotalConcat | analytica/models/data_model.py:154 | the sum of two concatenated columns is the sum of their sums |
| Dax.FirstMatch | analytica/models/data_model.py:171-172 | returns a function whose name plus "(" starts the text. It is None exactly when no name does. No function before it in table order matches. |
| Dax.ParseDax | analytica/models/data_model.py:163-190 | the loop over the function table with early return computes `Evaluate`: strip, upper-case, first matching name, argument key, aggregate; anything else is `Unsupported` |
| Dax.KeyOfColumnReference | analytica/models/data_model.py:176-180 | the argument `T[C]` (no `[` in `T` or `C`, no `]` in `C`) gives the key `"T.C"` |
| Dax.EvaluateCall | analytica/models/data_model.py:169-184 | round trip: `f(T[C])`, with `f` any spelling of a function name up to case, evaluates to that aggregate over key `"T.C"` |
| Dax.Validate | analytica/models/data_model.py:193-214 | Valid iff both counts balance, iff there are no errors.<br>- The parentheses error is reported iff the parentheses do not balance, and then it comes first.<br>- The brackets error is reported iff the brackets do not balance, and then it comes last.<br>- Each failing check adds its error once: there are as many errors as failing checks.<br>- The missing-function message is never an error.<br>There is one warning exactly when no known `FUNC(` starts the upper-cased text and there is no `[`. |
| Dax.ValidateDax | analytica/models/data_model.py:193-214 | the step-by-step update of the result record computes `Validate` |
| Dax.QuickMeasure | analytica/models/data_model.py:320-324 | a template exists exactly for the eight known kinds; None otherwise |
| Dax.QuickMeasureBalanced | analytica/models/data_model.py:308-317 | for table and column names without `()[]`, every template's text has balanced parentheses and brackets and contains a `[` |
| Dax.QuickMeasureValid | analytica/models/data_model.py:308-324 | for such names every template passes the validator as valid and with no warning |
| Dax.QuickMeasureEvaluates | analytica/models/data_model.py:309-314 | the six single-aggregate templates evaluate to their aggregate over key `"T.C"` |
| Dax.CompositeQuickMeasureUnsupported | analytica/models/data_model.py:315-316 | the percentage-change and running-total templates are not read by the evaluator |
| Dax.SumOfTwoSums | analytica/models/data_model.py:171-184 | `SUM(T[C]) + SUM(U[D])` evaluates as one SUM over the key `T.C]) + SUM(U` |
| DataModeling.Match | analytica/models/data_model.py:257-271 | one column pair yields at most one suggestion |
| DataModeling.MatchRules | analytica/models/data_model.py:257-271 | A column pair yields nothing exactly when neither rule fires. Otherwise the suggestion is from `t1.c1`:<br>- identical names (up to case) give 0.9 to `t2.c2`;<br>- the foreign-key rule (`<t2>_id`) gives 0.95 to `t2.id`, and only when the names differ. |
| DataModeling.SuggestionsMembers | analytica/models/data_model.py:249-271 | a suggestion is produced iff some column pair of two differently named tables yields it |
| DataModeling.SuggestionShape | analytica/models/data_model.py:257-271 | every suggestion has its rule's confidence. A foreign-key suggestion targets `<some table>.id`. |
| DataModeling.NeverSameTable | analytica/models/data_model.py:249-271 | every suggestion goes from column `k` of some table `i` to column `l`, or to the `id`, of some table `j` named differently from table `i` |
| DataModeling.IdenticalNamesSuggested | analytica/models/data_model.py:257-263 | two columns of differently named tables whose names agree up to case are always suggested with 0.9 |
| DataModeling.ForeignKeySuggested | analytica/models/data_model.py:264-271 | a column named `<other table>_id` is suggested against `<other table>.id` with 0.95, with no check that an `id` column exists |
| DataModeling.UnsortedExample | analytica/models/data_model.py:245-273 | a two-table example whose output is in loop order, not sorted by confidence |
| DataModeling.CompareColumn | analytica/models/data_model.py:255-271 | the innermost loop (over `table2`'s columns) builds the column's suggestions in order |
| DataModeling.CompareTables | analytica/models/data_model.py:254-271 | the third loop (over `table1`'s columns) builds the table pair's suggestions in order |
| DataModeling.CompareWithAll | analytica/models/data_model.py:250-271 | the second loop skips same-named tables and builds `table1`'s suggestions in order |
| DataModeling.DataModel.DetectRelationships | analytica/models/data_model.py:245-273 | returns `Suggestions(tables)`, all suggestions in nested-loop order, and changes nothing |
| DataModeling.DataModel.CreateRelationship | analytica/models/data_model.py:221-242 | appends exactly one relationship with the given endpoints, cardinality and cross filter `"single"`; every other field is unchanged |
| DataModeling.DataModel.CreateMeasure | analytica/models/data_model.py:280-301 | None and no change exactly when the expression is invalid. Otherwise it appends exactly the given measure and nothing else changes. "Every measure is valid" is preserved. |
| Workspaces.Actions | analytica/models/workspace.py:191-196 | only owner has `manage`. Every known role has `read`; owner, admin and editor have `write`; owner and admin have `share` and `delete`. An unknown role grants no action at all. |
| Workspaces.RolesNested | analytica/models/workspace.py:191-196 | viewer ⊆ editor ⊆ admin ⊆ owner |
| Workspaces.RoleOf | analytica/models/workspace.py:287-291 | None exactly when the user has no entry; otherwise the role of the user's first entry |
| Workspaces.Permitted | analytica/models/workspace.py:273-278 | true iff the user's first entry has a role granting the action |
| Workspaces.PermittedByRole | analytica/models/workspace.py:267-291 | the permission check agrees with the role lookup followed by the role table |
| Workspaces.ManagesByRole | analytica/models/workspace.py:211-215 | with one entry per user, "some owner/admin entry" and "first entry is owner/admin" agree |
| Workspaces.Without | analytica/models/workspace.py:261 | keeps exactly the entries of other users |
| Workspaces.WithoutConcat | analytica/models/workspace.py:261 | the filter keeps the relative order of the remaining entries |
| Workspaces.WithoutKeepsRoles | analytica/models/workspace.py:261 | after removal the user has no entry and every other user keeps their role |
| Workspaces.NewWorkspace | analytica/models/workspace.py:80-88 | permissions are exactly `[Permission(owner, "owner")]`, with no dashboards and no datasets. The workspace is well formed and the owner may `manage`. |
| Workspaces.AddKeepsWellFormed | analytica/models/workspace.py:221-230 | appending a non-member keeps one entry per user and the owner's role, gives the new user the granted role, and changes nobody else's |
| Workspaces.RemoveKeepsWellFormed | analytica/models/workspace.py:246-261 | removing a non-owner keeps the workspace well formed, leaves no entry for the user, and changes nobody else's role |
| Workspaces.AdminCanGrantOwner | analytica/models/workspace.py:211-230 | the role passed to add is not checked: a new member can receive `owner` and then holds `manage` |
| Workspaces.NewDashboard | analytica/models/workspace.py:312-316 | a new dashboard is private, with no links, and has the given id, name and description |
| Workspaces.EmbedCode | analytica/models/workspace.py:346 | the embed snippet contains the public link |
| Workspaces.Publish | analytica/models/workspace.py:340-351 | Sets `is_public` and the update time.<br>- Public: the link starts with `/public/dashboard/` and the embed code is non-empty and contains the link.<br>- Private: both are empty.<br>Id, name, description, creation time and layout are kept. |
| Workspaces.PublishedIsFound | analytica/models/workspace.py:342-345 | round trip: a dashboard published with a token is found by the public lookup's test for that token |
| Workspaces.UnpublishedIsHidden | analytica/models/workspace.py:347-349 | an unpublished dashboard matches no token |
| Workspaces.AnyPieceFindsPublished | analytica/models/workspace.py:370 | every slice of a public link, the empty one included, matches the published dashboard |
| Workspaces.DashboardIndex | analytica/models/workspace.py:338-339 | the position of the first dashboard with the id, or the length when none has it |
| Workspaces.FindDashboard | analytica/models/workspace.py:338-339 | the scan over the dashboards stops at `DashboardIndex` |
| Workspaces.WorkspaceStore.Save | analytica/models/workspace.py:93-114 | stores the workspace under its own id with the save time as update time |
| Workspaces.WorkspaceStore.CreateWorkspace | analytica/models/workspace.py:78-90 | saves `NewWorkspace(...)` under its id and keeps the store valid |
| Workspaces.HasAccess | analytica/models/workspace.py:150-155 | the access scan is true iff no user is given, the user is the owner, or the user has an entry |
| Workspaces.VisibleSummaries | analytica/models/workspace.py:143-167 | the loop over the stored workspaces lists a summary iff it summarises a workspace the user may see, with exactly one summary per visible workspace |
| Workspaces.ListingStep | analytica/models/workspace.py:145-165 | one step of the loop keeps its invariant: the summary is appended exactly when the workspace is visible |
| Workspaces.WorkspaceStore.ListWorkspaces | analytica/models/workspace.py:141-167 | a summary is listed iff it summarises a stored workspace that the user may see (no user given, the owner, or a member). The number of summaries is the number of visible workspaces. |
| Workspaces.WorkspaceStore.DeleteWorkspace | analytica/models/workspace.py:170-184 | not found, or refused for anyone but the owner. Success exactly for the owner, removing only that workspace. |
| Workspaces.WorkspaceStore.HasManagerEntry | analytica/models/workspace.py:211-215 | the flag loop is true iff some entry of the user has role owner or admin |
| Workspaces.WorkspaceStore.AddUser | analytica/models/workspace.py:199-233 | Refusals:<br>- not found;<br>- no owner/admin entry for the granter;<br>- the user already has an entry.<br>On success exactly one entry is appended, and only that workspace changes. The store stays valid. |
| Workspaces.WorkspaceStore.RemoveUser | analytica/models/workspace.py:236-264 | Refusals:<br>- not found;<br>- the owner;<br>- no owner/admin entry for the remover.<br>On success every entry of the user is filtered out, and only that workspace changes. The store stays valid. |
| Workspaces.WorkspaceStore.CheckPermission | analytica/models/workspace.py:267-278 | true iff the workspace exists, the user has an entry, and the first entry's role grants the action |
| Workspaces.WorkspaceStore.GetUserRole | analytica/models/workspace.py:281-291 | the role of the first entry; None for a missing workspace or a non-member |
| Workspaces.WorkspaceStore.CreateDashboard | analytica/models/workspace.py:298-321 | Fails with no change exactly when the user lacks `write`. Otherwise it appends a new private dashboard to that workspace only. |
| Workspaces.WorkspaceStore.PublishDashboard | analytica/models/workspace.py:324-360 | Fails with no change without `share`, or when no dashboard has the id. Otherwise the first dashboard with the id becomes `Publish(...)`, other dashboards are unchanged, and the links are returned. |
| Workspaces.FirstPublic | analytica/models/workspace.py:369-371 | the position of the first dashboard of a list that is public with a non-empty link containing the token, or the length when none is |
| Workspaces.FindPublic | analytica/models/workspace.py:369-378 | the scan over one workspace's dashboards, with its two nested tests, stops at `FirstPublic` |
| Workspaces.WorkspaceStore.GetPublicDashboard | analytica/models/workspace.py:363-379 | A result is the view of the first matching dashboard, in list order, of some stored workspace, with that workspace's name. None exactly when no stored dashboard matches. |

## Left out

- Disk I/O:
  - `save_model`, `load_model`, `list_models`, `delete_model`;
  - `load_workspace`, and the JSON encoding in `save_workspace`;
  - the failure results of those calls (an exception while deleting, a failed save).

  The workspace store is an in-memory map. A workspace that would fail to load counts as missing.
- User profiles (`UserProfile`, `create_user_profile`, `save_user_profile`, `get_user_by_email`) and the default workspace created at import time. They are file handling and start-up code outside the core.
- The `eval` fallback of `parse_dax`. It runs host-language code; every expression that is not an aggregate call gives `Unsupported`.
- `uuid` values and `datetime.now()`: ids, public tokens and timestamps are parameters.
- Column values are `real`. There is no float rounding, and text values in a column (which Python's `sum` would reject) are not modelled.
- Dax.Apply: AVERAGE is exact real division rather than a float quotient.
- `upper`, `lower` and `strip` act on ASCII only. Python's Unicode case mapping and whitespace set are not modelled.
- Workspaces.WorkspaceStore.ListWorkspaces: the order of the summaries follows `os.listdir`, which is not modelled. The contract gives which summaries appear and how many there are, not their order.
- Workspaces.WorkspaceStore.GetPublicDashboard: which workspace is scanned first follows `os.listdir`, which is not modelled. When several workspaces hold a match, the contract allows the first match of any of them.
- Dashboard `layout` and workspace `settings` are maps from string to string, not arbitrary JSON values.
- The four nested loops of `detect_relationships` are written as four methods, one loop each: `DetectRelationships`, `CompareWithAll`, `CompareTables` and `CompareColumn`. They append the same suggestions in the same order.
- The search loop of `publish_dashboard` is the method `FindDashboard`; the update follows it. The result is the same as the loop that returns from inside.
- Workspaces.WorkspaceStore.CheckPermission and Workspaces.WorkspaceStore.GetUserRole are functions over the store's current state, not over a freshly loaded file.
