# Workbasket administration: a Dafny model

This project models five parts of the workbasket administration system and
proves properties of each:

- **Access-ID lookup field** (`TypeAhead`, `type_ahead.dfy`). A text control
  whose debounced value is resolved by a case-insensitive search into an
  access-ID record. It emits a validity flag and the chosen record. It can be
  preset from a saved value, and the UNDO button restores that value.
- **Workbasket list** (`WorkbasketList`, `workbasket_list.dfy`). The behaviour
  of the list component's tests:
  - toggle selection through store actions;
  - sort replacement;
  - a filter merge that keeps the current domain;
  - the page cursor;
  - the filter taken over on init.
- **Workbasket overview** (`WorkbasketOverview`, `workbasket_overview.dfy`).
  Whether the detail pane shows, which store actions the route implies, and the
  list's two-state width toggle.
- **Workbasket service** (`WorkbasketService`, `workbasket_service.dfy`).
  Workbaskets, distribution targets and access items, kept in three in-memory
  tables that stand for the mappers. It covers:
  - id defaulting with the `WBI`/`WAI` prefixes;
  - time stamping;
  - the duplicate-free union of `getWorkbaskets`;
  - the target reconciliation of `updateWorkbasket`;
  - the authorization check;
  - connection bracketing, recorded in a trace.
- **User SQL provider** (`UserSql`, `user_sql.dfy`). The text of the user
  mapper's statements, each a sequence of text pieces whose concatenation is
  the SQL. The column enum's order and `toString`, and the script tags and the
  DB2 read clause, are parameters (`SqlEnv`).

Components and the service are classes. Their fields are updated in place,
and each method states the whole new state. Emitted events, dispatched store
actions and connection steps are appended to sequence fields. Loops are
proved against fold functions (`StoreMissing`, `Reconcile`, `Collected`), and
the properties of those functions are proved as lemmas.

Three behaviours of the lookup field that are easy to miss in its code:

- A search answer is applied whenever it arrives. The code has no staleness
  guard, so an answer for an older query can overwrite a newer state.
- A change of `entityId` writes the preset with `setValue`. That fires the
  value stream again, so the preset passes through the debounce pipeline.
- The value pipeline keeps the debounce time it finds when it is built. A
  customisation that arrives later changes the field `debounceTime` but never
  the pipeline.

## Model

| member | source | states |
|---|---|---|
| TypeAhead.Lower | web/src/app/shared/components/type-ahead/type-ahead.component.ts:127 | lower-casing keeps the length and maps every character through the ASCII case fold |
| TypeAhead.Matches | web/src/app/shared/components/type-ahead/type-ahead.component.ts:127 | two ids that match up to case have the same length |
| TypeAhead.FindMatch | web/src/app/shared/components/type-ahead/type-ahead.component.ts:127 | the index `find` stops at is a candidate whose id equals the query up to case, and no earlier candidate matches; none is found only when no candidate matches |
| TypeAhead.Classify | web/src/app/shared/components/type-ahead/type-ahead.component.ts:127-137 | a search is a match exactly when some candidate matches, and the record is such a candidate; it is rejected exactly when errors are displayed and nothing matches; otherwise it is unresolved |
| TypeAhead.FindMatchIgnoresQueryCase | web/src/app/shared/components/type-ahead/type-ahead.component.ts:127 | changing the case of the query never changes the chosen candidate |
| TypeAhead.FirstMatchWins | web/src/app/shared/components/type-ahead/type-ahead.component.ts:127-132 | when several candidates match, the first one is emitted, whether or not errors are displayed |
| TypeAhead.PresetControlValue | web/src/app/shared/components/type-ahead/type-ahead.component.ts:142-143 | a defined structured `accessId` (even `''`) wins; a bare id is taken as is; no preset gives `''`; a wrapped preset without an `accessId` is written into the control as that preset object itself |
| TypeAhead.PresetName | web/src/app/shared/components/type-ahead/type-ahead.component.ts:146 | the name is the preset's `accessName` whenever it has one, and `''` otherwise |
| TypeAhead.EmptyFieldEmissions | web/src/app/shared/components/type-ahead/type-ahead.component.ts:112-115 | clearing the field emits validity `!isRequired` first, then the empty record exactly when the placeholder is not `Search for AccessId`: two emissions or one |
| TypeAhead.CreateThenInit | web/src/app/shared/components/type-ahead/type-ahead.component.ts:54-108 | a freshly built component, once initialised, shows its preset, keeps it as the last saved value, has a live pipeline and has emitted nothing |
| TypeAhead.TypeThenUndo | web/src/app/shared/components/type-ahead/type-ahead.component.ts:79-83 | after initialisation, whatever the user typed, UNDO brings back the preset; after destruction UNDO leaves the typed text |
| TypeAhead.TypeAheadComponent.constructor | web/src/app/shared/components/type-ahead/type-ahead.component.ts:54-62 | the initial fields: empty name and saved value, no candidates, debounce time 750, an empty enabled control with no error, no emissions, and no subscription yet (not initialised, not destroyed, nothing pending) |
| TypeAhead.TypeAheadComponent.SetControlValue | web/src/app/shared/components/type-ahead/type-ahead.component.ts:144 | `setValue` writes the value, clears the error of an enabled control, and restarts the debounce window while the pipeline is live |
| TypeAhead.TypeAheadComponent.OnUserInput | web/src/app/shared/components/type-ahead/type-ahead.component.ts:96-97 | typing writes the text and marks a change as pending while the pipeline is live |
| TypeAhead.TypeAheadComponent.OnChanges | web/src/app/shared/components/type-ahead/type-ahead.component.ts:66-71 | only an `entityId` change re-reads the preset into the control, the last saved value and the name, and clears the error of an enabled control; otherwise none of them change |
| TypeAhead.TypeAheadComponent.Init | web/src/app/shared/components/type-ahead/type-ahead.component.ts:73-108 | disables the control when asked; a truthy customisation delivered at once replaces the debounce time, which the pipeline keeps; then the preset is read; nothing is emitted |
| TypeAhead.TypeAheadComponent.OnCustomisation | web/src/app/shared/components/type-ahead/type-ahead.component.ts:85-94 | only the first customisation counts, and only a truthy value replaces the debounce time |
| TypeAhead.TypeAheadComponent.OnButtonAction | web/src/app/shared/components/type-ahead/type-ahead.component.ts:79-83 | while live, UNDO restores the last saved value into the control and clears the error of an enabled control; any other action, or any action after destruction, changes nothing |
| TypeAhead.TypeAheadComponent.DebounceElapsed | web/src/app/shared/components/type-ahead/type-ahead.component.ts:96-105 | a pending value equal to the previous debounced one is dropped; `''` goes to the empty handler with its emissions; anything else issues one search request |
| TypeAhead.TypeAheadComponent.HandleEmptyAccessId | web/src/app/shared/components/type-ahead/type-ahead.component.ts:110-119 | clears the name, appends the empty-field emissions, and marks the control incorrect when the field is required |
| TypeAhead.TypeAheadComponent.CompleteSearch | web/src/app/shared/components/type-ahead/type-ahead.component.ts:121-138 | the candidates are stored whatever the outcome; a match sets the name and emits `true` then the record; a rejection emits `false` then the empty record and marks the control incorrect; otherwise nothing changes |
| TypeAhead.TypeAheadComponent.SetAccessIdFromInput | web/src/app/shared/components/type-ahead/type-ahead.component.ts:141-147 | the preset value goes to the control and to the last saved value, and the name is the preset's name |
| TypeAhead.TypeAheadComponent.Destroy | web/src/app/shared/components/type-ahead/type-ahead.component.ts:149-152 | the value pipeline and the UNDO subscription end, and no change stays pending |
| WorkbasketList.MergeFilter | web/src/app/administration/components/workbasket-list/workbasket-list.component.spec.ts:185-190 | the update's keys replace the current ones and the domain stays the current one, as the test asserts; keeping the other keys and an absent domain are assumed (see Left out) |
| WorkbasketList.MergeFilterIdempotent | web/src/app/administration/components/workbasket-list/workbasket-list.component.spec.ts:185-190 | merging the same update a second time changes nothing |
| WorkbasketList.MergeFilterKeepsDomain | web/src/app/administration/components/workbasket-list/workbasket-list.component.spec.ts:185-190 | the test's merge yields `name-like: ['workbasket']` and `domain: ['123']` |
| WorkbasketList.SelectionAction | web/src/app/administration/components/workbasket-list/workbasket-list.component.spec.ts:156-174 | selecting the selected id deselects; selecting any other id selects that id |
| WorkbasketList.WorkbasketListComponent.constructor | web/src/app/administration/components/workbasket-list/workbasket-list.component.spec.ts:144-150 | nothing is selected or dispatched, and the sort, filter and page are the given ones |
| WorkbasketList.WorkbasketListComponent.SelectWorkbasket | web/src/app/administration/components/workbasket-list/workbasket-list.component.spec.ts:156-174 | dispatches the selection action; after a deselection nothing is selected (the store's synchronous reaction to the deselection, folded into the method), and a selection leaves the selected id to the store |
| WorkbasketList.WorkbasketListComponent.OnSelectedWorkbasket | web/src/app/administration/components/workbasket-list/workbasket-list.component.spec.ts:173 | the selected id mirrors the store's selection |
| WorkbasketList.WorkbasketListComponent.PerformSorting | web/src/app/administration/components/workbasket-list/workbasket-list.component.spec.ts:176-183 | the sort becomes the given one |
| WorkbasketList.WorkbasketListComponent.PerformFilter | web/src/app/administration/components/workbasket-list/workbasket-list.component.spec.ts:185-190 | the filter becomes the merge of the current filter and the update |
| WorkbasketList.WorkbasketListComponent.ChangePage | web/src/app/administration/components/workbasket-list/workbasket-list.component.spec.ts:192-196 | the page becomes exactly the given one |
| WorkbasketList.WorkbasketListComponent.Init | web/src/app/administration/components/workbasket-list/workbasket-list.component.spec.ts:198-202 | on init the store's filter goes through `performFilter` |
| WorkbasketList.SelectWhenNoneSelected | web/src/app/administration/components/workbasket-list/workbasket-list.component.spec.ts:156-163 | from any initial state with nothing selected, selecting dispatches exactly `SelectWorkbasket` of that id |
| WorkbasketList.SelectAgainDeselects | web/src/app/administration/components/workbasket-list/workbasket-list.component.spec.ts:165-174 | selecting the selected `'123'` dispatches exactly `DeselectWorkbasket` and leaves nothing selected |
| WorkbasketList.SelectTwiceToggles | web/src/app/administration/components/workbasket-list/workbasket-list.component.spec.ts:156-174 | selecting an id twice, with the store reporting the first selection, selects and then deselects it |
| WorkbasketList.FilterKeepsDomain | web/src/app/administration/components/workbasket-list/workbasket-list.component.spec.ts:185-190 | the test's filter takes `name-like` from the update and keeps domain `['123']` |
| WorkbasketList.ChangePageSetsPage | web/src/app/administration/components/workbasket-list/workbasket-list.component.spec.ts:192-196 | `changePage(2)` leaves page 2 from any prior page |
| WorkbasketList.PerformSortingStoresSort | web/src/app/administration/components/workbasket-list/workbasket-list.component.spec.ts:176-183 | sorting by TYPE ascending stores exactly that sort |
| WorkbasketOverview.RouteAction | web/src/app/administration/components/workbasket-overview/workbasket-overview.component.ts:66-73 | a truthy id leads to an action: `new-workbasket` creates, any other id selects that id; a falsy id leads to none |
| WorkbasketOverview.Toggled | web/src/app/administration/components/workbasket-overview/workbasket-overview.component.ts:81-93 | width 250 expands to 500 and anything else collapses to 250; the minimum width follows the width and the button sits 20 to its left |
| WorkbasketOverview.ToggleTwiceRestores | web/src/app/administration/components/workbasket-overview/workbasket-overview.component.ts:81-93 | once the width is one the toggle writes, two more toggles restore the layout |
| WorkbasketOverview.WorkbasketOverviewComponent.constructor | web/src/app/administration/components/workbasket-overview/workbasket-overview.component.ts:36-41 | the detail pane is hidden, the list is expanded, and nothing is recorded or dispatched |
| WorkbasketOverview.WorkbasketOverviewComponent.OnUrl | web/src/app/administration/components/workbasket-overview/workbasket-overview.component.ts:52-62 | on the `workbaskets` page a stored selection with a defined id is selected again; otherwise nothing is dispatched |
| WorkbasketOverview.WorkbasketOverviewComponent.OnChildParams | web/src/app/administration/components/workbasket-overview/workbasket-overview.component.ts:63-75 | the parameters are recorded; a truthy id shows the detail pane and dispatches its route action; a falsy id changes nothing else |
| WorkbasketOverview.WorkbasketOverviewComponent.OnSelectionState | web/src/app/administration/components/workbasket-overview/workbasket-overview.component.ts:76-78 | the detail pane shows exactly when a workbasket is selected or the action is 1 |
| WorkbasketOverview.WorkbasketOverviewComponent.ToggleWidth | web/src/app/administration/components/workbasket-overview/workbasket-overview.component.ts:81-93 | the new layout is the toggle of the current width |
| WorkbasketOverview.WorkbasketOverviewComponent.Destroy | web/src/app/administration/components/workbasket-overview/workbasket-overview.component.ts:95-98 | the subscriptions end |
| WorkbasketService.Ids | lib/taskana-core/src/main/java/pro/taskana/impl/WorkbasketServiceImpl.java:108-115 | the ids of a target list are exactly the ids of its entries |
| WorkbasketService.MatchingAccessItems | lib/taskana-core/src/main/java/pro/taskana/impl/WorkbasketServiceImpl.java:208-209 | the query returns only stored access items |
| WorkbasketService.MatchingIffAuthorized | lib/taskana-core/src/main/java/pro/taskana/impl/WorkbasketServiceImpl.java:208-214 | the access query finds some item exactly when some item of one of the access ids grants the permission on the workbasket |
| WorkbasketService.CollectedMembers | lib/taskana-core/src/main/java/pro/taskana/impl/WorkbasketServiceImpl.java:73-76 | the set built over the access ids holds exactly what the query returns for one of them |
| WorkbasketService.ListOf | lib/taskana-core/src/main/java/pro/taskana/impl/WorkbasketServiceImpl.java:77-78 | copying the set into a list yields each element exactly once |
| WorkbasketService.UpdateRow | lib/taskana-core/src/main/java/pro/taskana/impl/WorkbasketServiceImpl.java:128-129 | the update replaces the row under the workbasket's id, if there is one, and adds none |
| WorkbasketService.StoreMissingKeys | lib/taskana-core/src/main/java/pro/taskana/impl/WorkbasketServiceImpl.java:107-116 | creation's target walk stores exactly the listed ids that are missing and keeps every stored row |
| WorkbasketService.StoreMissingRows | lib/taskana-core/src/main/java/pro/taskana/impl/WorkbasketServiceImpl.java:109-112 | every row the walk adds is a listed target stamped with the creation instant |
| WorkbasketService.StoreMissingKeyed | lib/taskana-core/src/main/java/pro/taskana/impl/WorkbasketServiceImpl.java:107-116 | the walk keeps every row under its own id |
| WorkbasketService.StoreMissing | lib/taskana-core/src/main/java/pro/taskana/impl/WorkbasketServiceImpl.java:107-116 | creation's walk over the targets never drops a stored row |
| WorkbasketService.ReconcileLinks | lib/taskana-core/src/main/java/pro/taskana/impl/WorkbasketServiceImpl.java:132-142 | the update's walk links every listed target and strikes every listed target off the old ones |
| WorkbasketService.ReconcileKeys | lib/taskana-core/src/main/java/pro/taskana/impl/WorkbasketServiceImpl.java:133-137 | the walk keeps every stored row and stores every listed target that was not an old target |
| WorkbasketService.ReconcileRows | lib/taskana-core/src/main/java/pro/taskana/impl/WorkbasketServiceImpl.java:134-136 | every row the walk adds is a listed target |
| WorkbasketService.ReconcileKeyed | lib/taskana-core/src/main/java/pro/taskana/impl/WorkbasketServiceImpl.java:132-142 | the walk keeps every row under its own id |
| WorkbasketService.Reconcile | lib/taskana-core/src/main/java/pro/taskana/impl/WorkbasketServiceImpl.java:132-142 | the update's walk never drops a stored row or a link, and only strikes targets off the remaining old ones |
| WorkbasketService.UpdateTargets | lib/taskana-core/src/main/java/pro/taskana/impl/WorkbasketServiceImpl.java:130-143 | the update's target handling never drops a stored row |
| WorkbasketService.UpdateTargetsSpec | lib/taskana-core/src/main/java/pro/taskana/impl/WorkbasketServiceImpl.java:130-143 | after the update, the workbasket's targets are exactly the listed ids; links of other workbaskets are untouched; stored rows are kept; new targets are stored; every new row is a listed target |
| WorkbasketService.WorkbasketServiceImpl.constructor | lib/taskana-core/src/main/java/pro/taskana/impl/WorkbasketServiceImpl.java:41-51 | the tables and the trace start empty and consistent |
| WorkbasketService.WorkbasketServiceImpl.GetWorkbasket | lib/taskana-core/src/main/java/pro/taskana/impl/WorkbasketServiceImpl.java:53-66 | returns the stored workbasket or fails with not-found, and the connection is opened and returned |
| WorkbasketService.WorkbasketServiceImpl.GetWorkbasketsByPermission | lib/taskana-core/src/main/java/pro/taskana/impl/WorkbasketServiceImpl.java:68-83 | the result holds, each exactly once, the workbaskets the query returns for some access id |
| WorkbasketService.WorkbasketServiceImpl.GetAllWorkbaskets | lib/taskana-core/src/main/java/pro/taskana/impl/WorkbasketServiceImpl.java:85-93 | returns every stored workbasket exactly once |
| WorkbasketService.WorkbasketServiceImpl.StoreTargets | lib/taskana-core/src/main/java/pro/taskana/impl/WorkbasketServiceImpl.java:107-117 | the creation loop's new tables are the walk over the targets plus a link to every listed target |
| WorkbasketService.WorkbasketServiceImpl.ReconcileTargets | lib/taskana-core/src/main/java/pro/taskana/impl/WorkbasketServiceImpl.java:130-142 | the update loop's tables and remaining old targets are the reconciliation walk from the current links |
| WorkbasketService.WorkbasketServiceImpl.CreateWorkbasket | lib/taskana-core/src/main/java/pro/taskana/impl/WorkbasketServiceImpl.java:95-121 | created and modified are the same instant; a null or empty id becomes `WBI` plus a fresh part, and any other id is kept; the row is stored; the missing targets are stored stamped alike; every listed target is linked; the result is the stored row |
| WorkbasketService.WorkbasketServiceImpl.UpdateWorkbasket | lib/taskana-core/src/main/java/pro/taskana/impl/WorkbasketServiceImpl.java:124-149 | the row gets the new modification time; a null target list fails after the row update; otherwise the tables are the reconciled ones and the result is the stored row |
| WorkbasketService.WorkbasketServiceImpl.CreateWorkbasketAuthorization | lib/taskana-core/src/main/java/pro/taskana/impl/WorkbasketServiceImpl.java:151-161 | the item gets a `WAI` id and is stored under it |
| WorkbasketService.WorkbasketServiceImpl.GetWorkbasketAuthorization | lib/taskana-core/src/main/java/pro/taskana/impl/WorkbasketServiceImpl.java:163-171 | returns the stored item with the id, if any |
| WorkbasketService.WorkbasketServiceImpl.DeleteWorkbasketAuthorization | lib/taskana-core/src/main/java/pro/taskana/impl/WorkbasketServiceImpl.java:173-181 | removes the item with the id and no other |
| WorkbasketService.WorkbasketServiceImpl.GetAllAuthorizations | lib/taskana-core/src/main/java/pro/taskana/impl/WorkbasketServiceImpl.java:183-191 | returns every stored item exactly once |
| WorkbasketService.WorkbasketServiceImpl.CheckAuthorization | lib/taskana-core/src/main/java/pro/taskana/impl/WorkbasketServiceImpl.java:193-219 | passes with no query when security is disabled; otherwise queries once, and fails with the not-authorized message exactly when no item grants the permission |
| WorkbasketService.WorkbasketServiceImpl.UpdateWorkbasketAuthorization | lib/taskana-core/src/main/java/pro/taskana/impl/WorkbasketServiceImpl.java:221-230 | overwrites the stored item with the same id, returns the item, and changes nothing for an item that is not stored |
| WorkbasketService.WorkbasketServiceImpl.GetWorkbasketAuthorizations | lib/taskana-core/src/main/java/pro/taskana/impl/WorkbasketServiceImpl.java:232-240 | returns exactly the stored items of the workbasket, each once |
| UserSql.InfoColumns | lib/kadai-core/src/main/java/io/kadai/user/internal/UserMapperSqlProvider.java:46-50 | the filter keeps only user-info columns, drops none of them, and is no longer than its input |
| UserSql.InfoColumnsLength | lib/kadai-core/src/main/java/io/kadai/user/internal/UserMapperSqlProvider.java:47-50 | the filter drops exactly the occurrences of GROUPS and PERMISSIONS |
| UserSql.InfoColumnsAppend | lib/kadai-core/src/main/java/io/kadai/user/internal/UserMapperSqlProvider.java:46-50 | the filter keeps the enum's order: filtering a concatenation concatenates the filtered parts |
| UserSql.InfoColumnsKeepsInfo | lib/kadai-core/src/main/java/io/kadai/user/internal/UserMapperSqlProvider.java:47-50 | a list without GROUPS and PERMISSIONS passes unchanged |
| UserSql.InfoColumnsAtMost13 | lib/kadai-core/src/main/java/io/kadai/user/internal/UserMapperSqlProvider.java:46-50 | from the enum's values the filter keeps at most thirteen entries |
| UserSql.InfoColumnsMember | lib/kadai-core/src/main/java/io/kadai/user/internal/UserMapperSqlProvider.java:47-50 | a listed constant survives the filter exactly when it is a user-info column |
| UserSql.InfoColumnsElements | lib/kadai-core/src/main/java/io/kadai/user/internal/UserMapperSqlProvider.java:46-50 | from the enum's values the filter keeps every user-info column |
| UserSql.InfoColumnsOfEnum | lib/kadai-core/src/main/java/io/kadai/user/internal/UserMapperSqlProvider.java:45-53 | whatever the enum's order, the column list names the thirteen user-info columns, each once |
| UserSql.InfoColumnsInListedOrder | lib/kadai-core/src/main/java/io/kadai/user/internal/UserMapperSqlProvider.java:45-56 | if the enum declares the columns in the order of the values list, the column list follows that order exactly |
| UserSql.InterleaveIndex | lib/kadai-core/src/main/java/io/kadai/user/internal/UserMapperSqlProvider.java:52 | joining puts the items at the even places and the separator between consecutive items |
| UserSql.UserInfoColumns | lib/kadai-core/src/main/java/io/kadai/user/internal/UserMapperSqlProvider.java:45-53 | the column list always ends with one space |
| UserSql.UserInfoColumnsJoined | lib/kadai-core/src/main/java/io/kadai/user/internal/UserMapperSqlProvider.java:45-53 | the column list is the filtered names, in order, joined by `", "` and followed by one space |
| UserSql.UserInfoValuesBindInfoColumns | lib/kadai-core/src/main/java/io/kadai/user/internal/UserMapperSqlProvider.java:54-56 | the values list is twenty-six pieces: the k-th placeholder is that of the k-th user-info column in listed order, with `", "` between placeholders and a space after the last |
| UserSql.FindById | lib/kadai-core/src/main/java/io/kadai/user/internal/UserMapperSqlProvider.java:60-70 | a script SELECT of the column list from USER_INFO keyed on `USER_ID = #{id}` |
| UserSql.FindByIds | lib/kadai-core/src/main/java/io/kadai/user/internal/UserMapperSqlProvider.java:72-82 | a script SELECT of the column list from USER_INFO with USER_ID in a comma-separated foreach list |
| UserSql.FindGroupsById | lib/kadai-core/src/main/java/io/kadai/user/internal/UserMapperSqlProvider.java:84-91 | a script SELECT of GROUP_ID from GROUP_INFO keyed on `USER_ID = #{id}` |
| UserSql.FindPermissionsById | lib/kadai-core/src/main/java/io/kadai/user/internal/UserMapperSqlProvider.java:93-100 | a script SELECT of PERMISSION_ID from PERMISSION_INFO keyed on `USER_ID = #{id}` |
| UserSql.ScriptSelectText | lib/kadai-core/src/main/java/io/kadai/user/internal/UserMapperSqlProvider.java:60-100 | the text of every script SELECT starts with the opening tag and ends with the DB2 clause and the closing tag |
| UserSql.InsertColumnsMatchValues | lib/kadai-core/src/main/java/io/kadai/user/internal/UserMapperSqlProvider.java:102-104 | whatever the enum's order, the insert's column list names thirteen columns and its values list has thirteen placeholders, both twenty-six pieces |
| UserSql.InsertBindsInListedOrder | lib/kadai-core/src/main/java/io/kadai/user/internal/UserMapperSqlProvider.java:45-56 | if the enum declares the columns in the order of the values list, the k-th column of the insert's column list and its k-th placeholder belong to the same column |
| UserSql.Insert | lib/kadai-core/src/main/java/io/kadai/user/internal/UserMapperSqlProvider.java:102-104 | the insert opens with `INSERT INTO USER_INFO ( `, closes with `)`, and is the column list and the values list plus three pieces |
| UserSql.InsertBindsAtOffsets | lib/kadai-core/src/main/java/io/kadai/user/internal/UserMapperSqlProvider.java:102-104 | if the enum declares the columns in the order of the values list, in the insert statement itself the k-th column name (piece 1 + 2k) and the k-th placeholder (piece 28 + 2k) belong to the same column |
| UserSql.UpdateAssignsUpdatedColumns | lib/kadai-core/src/main/java/io/kadai/user/internal/UserMapperSqlProvider.java:129-159 | the update assigns the listed columns, each to its own property, separated by `", "`, and keys on `USER_ID = #{id}` |
| UserSql.Update | lib/kadai-core/src/main/java/io/kadai/user/internal/UserMapperSqlProvider.java:129-159 | the update is fifty-five pieces: two of head, twelve assignments of four pieces, and the five of the key |
| UserSql.UpdatedColumnsAllButUserId | lib/kadai-core/src/main/java/io/kadai/user/internal/UserMapperSqlProvider.java:132-155 | the update assigns twelve columns: every user-info column except USER_ID |
| UserSql.Delete | lib/kadai-core/src/main/java/io/kadai/user/internal/UserMapperSqlProvider.java:161-163 | the delete from USER_INFO has the shared shape keyed on `USER_ID = #{id}` |
| UserSql.DeleteGroups | lib/kadai-core/src/main/java/io/kadai/user/internal/UserMapperSqlProvider.java:165-167 | the delete from GROUP_INFO has the shared shape keyed on `USER_ID = #{id}` |
| UserSql.DeletePermissions | lib/kadai-core/src/main/java/io/kadai/user/internal/UserMapperSqlProvider.java:169-171 | the delete from PERMISSION_INFO has the shared shape keyed on `USER_ID = #{id}` |
| UserSql.InsertGroups | lib/kadai-core/src/main/java/io/kadai/user/internal/UserMapperSqlProvider.java:106-115 | a script of eight pieces that opens and closes with the tags and names the USER_ID column |
| UserSql.InsertPermissions | lib/kadai-core/src/main/java/io/kadai/user/internal/UserMapperSqlProvider.java:117-127 | a script of nine pieces that opens and closes with the tags and names the USER_ID column |

## Left out

- Real-time debouncing, `take`, `takeUntil` and the `destroy$` teardown are not timed. A debounce window is the discrete step `DebounceElapsed`, and a subscription's end is a flag.
- TypeAhead.Lower: case folding covers the ASCII letters only. JavaScript's `toLowerCase` also folds other scripts.
- TypeAhead.TypeAheadComponent.DebounceElapsed: control values are compared by value. The source's `distinctUntilChanged` compares with `===`, so a new preset object with the same content (written by a later `entityId` change) passes it and issues a search, where the model drops it as a repeat.
- TypeAhead.TypeAheadComponent.CompleteSearch: takes the query as text. A search issued for a preset object (possible when a wrapped preset has no `accessId`) calls `toLowerCase` on an object, which fails at run time when there are candidates; that case is not modelled.
- The access-ID search, the NGXS store and its selectors, Angular's form machinery and dependency injection are not part of this model. Search answers, selector values and the customisation are method parameters, and dispatched actions and emissions are entries appended to a sequence.
- WorkbasketList.MergeFilter: the test asserts only that the updated key is taken over and the domain is kept. That other keys are kept, and that the domain stays absent when there is none, is an assumption about the component's code, which is not part of this model.
- The workbasket list component's own source is not part of this model. Its class is modelled from what its tests assert. Rendering, fetching and stale-response handling are left out.
- DOM style writes and `offsetWidth` are integer fields. The initial widths come from a style sheet that is not part of this model, so they are constructor parameters.
- WorkbasketOverview.WorkbasketOverviewComponent.OnUrl: the URL always has a first segment, so the TypeError the source raises on a URL without segments is not modelled. A selected workbasket's id is present or absent; the source's `typeof … !== 'undefined'` test also lets a `null` id through and dispatches a selection of `null`, which the model cannot represent (an absent id dispatches nothing).
- The selected-workbasket selector emitting no object at all, which would fail on `workbasketId`, is not modelled.
- The mappers and SQL execution are not part of this model. Tables are maps and sets:
  - an insert of an existing key overwrites it, where the database would reject it;
  - a duplicate link is a single set element;
  - a row is the workbasket without its target list.
  - Workbaskets are compared by value, as a `HashSet` of beans with value equality would.
- `IdGenerator` is a prefix followed by a caller-supplied suffix. The clock, `CurrentUserContext` (the access ids) and the security flag are parameters. Logging is dropped.
- WorkbasketService.WorkbasketServiceImpl.CreateWorkbasket: requires every listed target to carry an id. The source would pass a null id to the mappers.
- WorkbasketService.WorkbasketServiceImpl.CreateWorkbasket: the source's setters stamp and name the caller's own workbasket, and stamp each newly stored target in the caller's list. The model returns a fresh value and leaves the arguments as they were, so the sharing between the caller's objects and the stored rows is not captured.
- WorkbasketService.WorkbasketServiceImpl.CreateWorkbasketAuthorization: the source sets the id on the caller's item and returns that same object. The model returns a copy with the id, so the caller's item keeping the new id is not captured.
- WorkbasketService.WorkbasketServiceImpl.UpdateWorkbasket: requires the workbasket and its listed targets to carry ids. It does not model that the setters of the source mutate the caller's objects.
- WorkbasketService.WorkbasketServiceImpl.GetWorkbasketsByPermission: the permission query `findByPermission` is a parameter applied to each access id, because the mapper's SQL is not part of this model.
- Exceptions thrown by collaborators are not modelled. Every modelled path appends the open and return steps of the connection to the trace.
- The `UserQueryColumnName` enum body, its declaration order and its `toString`, and the `SqlProviderUtil` constants, are not part of this model. They are fields of `SqlEnv`. The datatype `UserColumn` assumes the enum has exactly the fifteen constants the provider names; `InfoColumnsOfEnum` and `InsertColumnsMatchValues` ("whatever the enum's order", thirteen columns) rest on that assumption.
- UserSql.InfoColumnsInListedOrder: assumes the enum declares its constants in the order of the values list. For any other declaration order the column list and the values list are both thirteen long, but the k-th column is not bound to its own placeholder.
- UserSql.InsertBindsInListedOrder: rests on the same assumed declaration order, as does UserSql.InsertBindsAtOffsets.
- The cut of a statement into pieces is a modelling device; only the concatenation (`Text`) corresponds to the source's string.
- UserSql.InsertGroups: states the script's frame and key column, not the text of the foreach clause, which is a fixed constant.
- UserSql.InsertPermissions: states the script's frame and key column, not the text of the foreach clause, which is a fixed constant.
