# Statistics jobs, report-generator rules and access predicates

A Dafny model of the self-contained logic in a Django back end that serves
two front-end services:

- **Statistics jobs** (`statistics_pp`). A user submits an aggregation job: a
  set of OKPD2 classifier codes, region ids and metric indices. The job is
  saved as a `Process` row with a 3-slot 0/1 metric vector. The job is then
  polled until it has a result file. Classifier nodes form a tree through
  `parent_id` links. The model covers listing a node's children, walking up
  from a node to its root, and creating named segments of codes.
- **Report generator** (`products_report_generator_api`). The model covers:
  - products, global campaigns, reports and action and goal handbooks, all
    soft-deletable through a `to_delete` flag;
  - the name checks behind the `unique=True` names;
  - the nested save of a campaign's group sets, groups and Yandex Direct
    campaigns, which deletes the stored children that were not sent back and
    upserts the rest;
  - the validation rules of the request serializers and the flattening of
    their error trees into one message;
  - the previous-report file name, the Direct campaign status labels and the
    CSRF header injection.
- **Access rules** (`core/permissions.py`). A fixed group name grants access,
  or the user's groups must intersect the allowed groups of the service the
  view's app belongs to.

ORM tables become maps (keyed by primary key) or sequences of rows. Tables
the views write are fields of classes (`Statistics.StatisticsStore`,
`CampaignItems.ItemStore`, `Catalog.Table`, `Catalog.CatalogStore`), and
their methods are proved against pure specification functions. Loops that
change state stay loops:
- the metric vector is written into an `array`;
- `mappings_statuses` relabels an `array` in place;
- the ancestor walk appends to and reverses a shared list object.

The object-storage URL function is a parameter `share`. The iteration order
of a Python `set` is a parameter `order` that may return any ordering of the
distinct elements.

Python semantics kept explicit:
- **Truthiness.** An id of `0` or `None` means "create new"; an empty string
  counts as no file or no token.
- **`exclude(pk=None)`** excludes nothing.
- **`get_object_or_404`** becomes a 404 response or error value.
- **`transaction.atomic`** becomes a rollback of every row the failed
  request wrote. The tables' key sequences are PostgreSQL sequences (the
  models use `ArrayField`), which a rollback does not rewind, so key counters
  keep the values a failed save consumed.

Modules: `Common` (Option/Result, string helpers, Python `set` ordering),
`Statistics`, `Permissions`, `Serializers`, `CampaignItems`, `ReportViews`,
`Catalog`.

## Model

| member | source | states |
|---|---|---|
| Statistics.MetricSlots | statistics_pp/views.py:43-47 | three 0/1 slots; slot i is 1 exactly when metric i+1 is among the chosen ones |
| Statistics.BuildMetricVector | statistics_pp/views.py:43-47 | the vector has 3 slots; slot i is 1 exactly when metric i+1 was selected, 0 otherwise |
| Statistics.MetricSlotsIgnoreOrderAndDuplicates | statistics_pp/views.py:43-45 | two metric lists with the same members give the same vector, so order and duplicates do not matter |
| Statistics.MetricExample | statistics_pp/views.py:43-45 | [1,3], [3,1] and [3,1,3] all give [1,0,1] |
| Statistics.Poll | statistics_pp/views.py:133-160 | an unknown job is 404. A truthy error message is a 502 with the fixed text. Unfinished jobs report their stored progress and no file. A finished job with a file reports a URL and the last '/'-segment as its name. A finished job without a file reports 99 |
| Statistics.PollNamesStoredFile | statistics_pp/views.py:149-152 | a finished job stored at `dir/name` (name without '/') is reported under the display name `name` with the shared URL of that path |
| Statistics.SubmittedJobPollsZero | statistics_pp/views.py:145-160 | a job just created (progress 0, no error, no file) polls as 0% with no file |
| Statistics.ReachedChainShape | statistics_pp/views.py:195-207 | a completed upward walk starts at the node, each element's parent is the next, and it ends at a root (parent 0) |
| Statistics.ReversedUpChainIsRootPath | statistics_pp/views.py:205-206 | reversing an upward chain gives a root-to-node path that ends at the chain's first node |
| Statistics.ReversedChainIsRootPath | statistics_pp/views.py:195-207 | read root first, a completed walk is a root path that ends at the start node |
| Statistics.PathBuffer.constructor | statistics_pp/views.py:195 | a new accumulator list is empty |
| Statistics.PathBuffer.Append | statistics_pp/views.py:202-205 | `append` adds one id at the end |
| Statistics.PathBuffer.ReverseInPlace | statistics_pp/views.py:206 | `reverse` leaves the reversed list |
| Statistics.ParentPlaceholder | statistics_pp/views.py:195-207 | on a walk that reaches a root, the list becomes its old contents plus the upward chain, reversed. On a missing parent it raises, having appended only the ids below that node |
| Statistics.AncestorPath | statistics_pp/views.py:195-207 | with a fresh list on an acyclic table: it succeeds exactly when the walk reaches a root. The path starts at a root, each id is the parent of the next, and it ends at the start node. Otherwise it reports the missing parent id |
| Statistics.BrokenChainMissing | statistics_pp/views.py:199-201 | a walk that breaks stops at an id absent from the table |
| Statistics.TwoCallsSharingDefault | statistics_pp/views.py:195 | with the shared default list, both calls return the same list. The second path is the second node's path followed by the first walk's ids, so it is not the second node's path |
| Statistics.SharedListOrder | statistics_pp/views.py:195-206 | reversing a list that already holds a reversed walk puts the old walk, un-reversed, after the new path |
| Statistics.GetPaths | statistics_pp/views.py:182-193 | `get_path` with the corrected walk (a fresh list per node, see Findings): one root-to-node path per selected node, in order, exactly when every walk reaches a root; otherwise the missing id of the first node whose walk breaks, every earlier walk having reached a root |
| Statistics.Children | statistics_pp/views.py:101-110 | an id absent from the table is a 400 with the fixed text; otherwise exactly the rows whose parent is that id, unchanged |
| Statistics.ChildWalksThroughParent | statistics_pp/views.py:101-110 | a listed child's upward walk is its parent's walk with the child in front |
| Statistics.GetByCode | statistics_pp/views.py:35 | `get(code=…)` returns a row with that code. It raises DoesNotExist exactly when no row has the code, succeeds exactly when one row has it, and raises MultipleObjectsReturned exactly when several do |
| Statistics.TwoMatchesRaise | statistics_pp/views.py:35 | two rows with the code make the lookup raise MultipleObjectsReturned |
| Statistics.UniqueMatchFound | statistics_pp/views.py:35 | when exactly one row has the code, the lookup returns that row |
| Statistics.ResolveCodes | statistics_pp/views.py:35-36 | ids in code order, one per code, exactly when every lookup succeeds; otherwise the error of a failing lookup |
| Statistics.ResolveCodesFirstFailure | statistics_pp/views.py:35 | the comprehension raises the error of the first code whose lookup fails |
| Statistics.RegionCodifierIds | statistics_pp/views.py:32 | exactly the ids of rows whose region id was requested |
| Statistics.AddUnusedName | statistics_pp/views.py:121-125 | adding a segment under an unused name keeps names unique, and that name then belongs to the new segment alone |
| Statistics.StatisticsStore.constructor | statistics_pp/views.py:21-51 | an empty store over the given classifier tables |
| Statistics.StatisticsStore.SubmitJob | statistics_pp/views.py:26-51 | an unknown OKPD2 code saves nothing. Otherwise one new Process is saved under a new key with the resolved ids, the region codifier ids, the metric vector and progress 0 |
| Statistics.LinkedCodes | statistics_pp/views.py:126-127 | the OKPD2 rows linked to a new segment: exactly the ids the codes resolve to, or none when a code does not resolve |
| Statistics.StatisticsStore.CreateSegment | statistics_pp/views.py:113-130 | a taken name fails and changes nothing. Otherwise exactly one segment with that name is added; its codes are linked only when every code resolves |
| Permissions.GroupsNamed | core/permissions.py:11-23 | the filtered groups are non-empty exactly when the user has a group of that name |
| Permissions.ServicesNamed | core/permissions.py:38 | exactly the services with that app name |
| Permissions.ServiceFor | core/permissions.py:38 | a found service has that app name. DoesNotExist exactly when no service has it, success exactly when one does, MultipleObjectsReturned exactly when several do |
| Permissions.AppName | core/permissions.py:35 | `split('.')[0]`: the longest prefix of the module path without a '.', ending where the first '.' is |
| Permissions.AppNameOfModule | core/permissions.py:35 | a view in module `app.rest` is judged by the service of `app` |
| Permissions.HasPermission | core/permissions.py:5-41 | IsUpkPermission grants exactly members of 'УПК'. IsNotUpkPermission grants exactly members of 'Сторонний отдел'. AppPermission propagates the lookup error, so a missing service never grants. Otherwise it grants exactly when a user group is among the service's allowed groups |
| Permissions.HasObjectPermission | core/permissions.py:13-44 | always true |
| Serializers.Entry | products_report_generator_api/serializers.py:4-124 | a field contributes an error entry exactly when it failed |
| Serializers.AsError | products_report_generator_api/serializers.py:4-124 | a serializer is valid exactly when no field failed |
| Serializers.CharFieldErrors | products_report_generator_api/serializers.py:23-30 | a CharField fails exactly when the string is blank or longer than its max length |
| Serializers.ChildErrorsEmpty | products_report_generator_api/serializers.py:44-66 | a list has no item errors exactly when every item is valid |
| Serializers.ListFieldErrors | products_report_generator_api/serializers.py:44-66 | a ListField passes exactly when it is non-empty (or may be empty) and every item passes |
| Serializers.ProductErrors | products_report_generator_api/serializers.py:21-30 | a product passes exactly when its name and login are non-blank and at most 50 characters, and every URL is non-blank and at most 100. The errors name exactly the failing fields, in declaration order |
| Serializers.YdCampaignErrors | products_report_generator_api/serializers.py:33-37 | a Direct campaign passes exactly when its name is 1..100 characters; otherwise the name is the reported field |
| Serializers.GroupErrors | products_report_generator_api/serializers.py:40-46 | a group passes exactly when its name is 1..75 characters, it has at least one Direct campaign, and every campaign passes. `name` and `campaigns` are reported exactly when they fail |
| Serializers.GroupSetErrors | products_report_generator_api/serializers.py:49-55 | a group set passes exactly when its name is 1..75 characters, it has at least one group, and every group passes. `name` and `groups` are reported exactly when they fail |
| Serializers.CampaignErrors | products_report_generator_api/serializers.py:58-66 | a campaign passes exactly when its name is 1..75 characters and every group set passes (none is fine). `campaign_name` and `group_sets` are reported exactly when they fail |
| Serializers.EmptyGroupRejected | products_report_generator_api/serializers.py:44-46 | a group without campaigns is rejected with its own message |
| Serializers.EmptyGroupSetRejected | products_report_generator_api/serializers.py:53-55 | a group set without groups is rejected with its own message |
| Serializers.CampaignWithoutGroupSets | products_report_generator_api/serializers.py:66 | a campaign with no group sets passes when its name does |
| Serializers.ValidateParameters | products_report_generator_api/serializers.py:74-80 | rejects exactly the dicts whose every value is null, with the fixed message; the empty dict is rejected; an accepted dict is returned unchanged |
| Serializers.ParameterValueErrors | products_report_generator_api/serializers.py:72 | no value errors exactly when every value is null or 1..50 characters |
| Serializers.ParametersErrors | products_report_generator_api/serializers.py:72-80 | the parameters fail exactly when they are not valid; failing values are reported by key, and the validator's message is given only when every value passes |
| Serializers.ActionErrors | products_report_generator_api/serializers.py:69-80 | an action passes exactly when its name is 1..75 characters, every parameter value is null or 1..50, and one value is non-null. `name` and `parameters` are reported exactly when they fail |
| Serializers.ActionGroupErrors | products_report_generator_api/serializers.py:83-88 | an action group passes exactly when its name is 1..100 characters, it has an action, and every action passes; the failing fields are reported |
| Serializers.ActionHandbookErrors | products_report_generator_api/serializers.py:91-99 | an action handbook passes exactly when its name is 1..75 characters, it has an action group, and every group passes; the failing fields are reported |
| Serializers.ActionHandbookNeedsActions | products_report_generator_api/serializers.py:86-99 | a valid handbook has an action group and every group has an action |
| Serializers.AllNullParametersRejected | products_report_generator_api/serializers.py:74-80 | an action whose parameters are all null is invalid and reports the validator's message under `parameters` |
| Serializers.GoalErrors | products_report_generator_api/serializers.py:102-106 | a purpose passes exactly when its three fields are within 50, 75 and 100 characters and non-blank; exactly the failing ones are reported |
| Serializers.GoalGroupErrors | products_report_generator_api/serializers.py:109-114 | a purpose group passes exactly when its name is 1..100 characters, it has a purpose, and every purpose passes; the failing fields are reported |
| Serializers.GoalHandbookErrors | products_report_generator_api/serializers.py:117-124 | a goal handbook passes exactly when its name is 1..75 characters, it has a purpose group, and every group passes; the failing fields are reported |
| Serializers.ReportErrors | products_report_generator_api/serializers.py:4-18 | a report request fails exactly when `prev_campaign_sheet` is the blank string, and only that field is reported; null is allowed |
| ReportViews.Formatted | products_report_generator_api/views.py:32-35 | a message list is joined by ', '; a nested dict is the distinct strings of its fields, each once and nothing else, joined by ' --- ' |
| ReportViews.ErrorFormatter | products_report_generator_api/views.py:26-39 | the result is the per-field strings joined by ' --- ', each distinct string exactly once and no other string, in some order |
| ReportViews.SingleFieldMessage | products_report_generator_api/views.py:34-37 | a single failing field gives its messages joined by ', ' |
| ReportViews.IdenticalFieldsReportedOnce | products_report_generator_api/views.py:37 | fields with identical strings are reported once |
| ReportViews.BlankProductNameMessage | products_report_generator_api/views.py:218-251 | a product with a blank name and otherwise valid fields has exactly one error, reported as the blank-field message |
| ReportViews.PreviousReportForm | products_report_generator_api/views.py:60-64 | the path is kept unchanged and the name is no longer than the path |
| ReportViews.RemoveTrailingXlsx | products_report_generator_api/views.py:62 | removing '.xlsx' from a name that ends in '.xlsx' is the same as removing it from the stem |
| ReportViews.PreviousReportName | products_report_generator_api/views.py:60-64 | a report stored at `dir/base.xlsx` is shown as `base` with its full path |
| ReportViews.StatusLabel | products_report_generator_api/views.py:999-1003 | exactly ACTIVE, STOPPED and ARCHIVED have a label |
| ReportViews.LabelsAreNotStatuses | products_report_generator_api/views.py:999-1006 | a label is not itself a known status, so relabelling twice raises |
| ReportViews.FirstUnknown | products_report_generator_api/views.py:1005-1006 | every campaign before the index has a known status, and the one at it does not |
| ReportViews.RelabelledUpTo | products_report_generator_api/views.py:1005-1006 | ids and names never change; statuses before k are their labels; everything from k on is untouched |
| ReportViews.MappingsStatuses | products_report_generator_api/views.py:993-1006 | the campaigns up to the first unknown status are relabelled in place; the KeyError carries that status; the rest is untouched |
| ReportViews.AllKnownStatusesRelabelled | products_report_generator_api/views.py:993-1006 | with only known statuses, every campaign gets its label and keeps its id and name |
| ReportViews.CsrfToken | products_report_generator_api/views.py:988 | `cookies.get(...)`: the cookie value exactly when the cookie is present, None otherwise |
| ReportViews.WithCsrf | products_report_generator_api/views.py:984-991 | `x-csrf-token` is set to the cookie exactly when the cookie is truthy; every other header is unchanged |
| ReportViews.WithCsrfIdempotent | products_report_generator_api/views.py:984-991 | injecting twice is the same as injecting once |
| ReportViews.RequestHeaders.constructor | products_report_generator_api/views.py:984 | the headers dict as given |
| ReportViews.RequestHeaders.UpdateHeadersWithCsrf | products_report_generator_api/views.py:984-991 | mutates the dict into the injected headers and returns that same dict |
| CampaignItems.ErrorStatus | products_report_generator_api/views.py:399-439 | a name clash is a 409, and a missing row is a 404 |
| CampaignItems.NewIds | products_report_generator_api/views.py:423-467 | exactly the keys handed out between two counter values |
| CampaignItems.SentGroupSetIdsExactly | products_report_generator_api/views.py:383 | the sent ids are exactly the truthy `group_set_id`s of the payload |
| CampaignItems.WithoutYdCampaigns | products_report_generator_api/views.py:446-455 | the group keeps exactly the stored Direct campaigns that were sent; no other row changes |
| CampaignItems.WithoutGroups | products_report_generator_api/views.py:413-421 | the group set keeps exactly the stored groups that were sent; no other row changes |
| CampaignItems.WithoutGroupSets | products_report_generator_api/views.py:390-392 | exactly the given group sets are removed; no other row changes |
| CampaignItems.StaleGroupSets | products_report_generator_api/views.py:383-389 | exactly the campaign's stored group sets whose ids were not sent |
| CampaignItems.Reconcile | products_report_generator_api/views.py:383-475 | on success every stored group set that is not stale is still stored; a name clash names one of the sent group sets |
| CampaignItems.ApplyYdCampaign | products_report_generator_api/views.py:465-475 | fails exactly when the sent id is truthy and not stored; only Direct-campaign rows change |
| CampaignItems.ApplyYdCampaigns | products_report_generator_api/views.py:465-475 | only Direct-campaign rows change; the only failure is a missing Direct campaign |
| CampaignItems.ApplyGroup | products_report_generator_api/views.py:432-475 | a 409 naming the group and its set exactly when another group of that set has the name; group sets are untouched |
| CampaignItems.ApplyGroups | products_report_generator_api/views.py:432-475 | group sets are untouched and no group-set clash can arise |
| CampaignItems.ApplyGroupSet | products_report_generator_api/views.py:397-475 | a 409 naming the group set exactly when another group set of the campaign has the name; a success loses no stored group set and does not move the key counter back |
| CampaignItems.ApplyGroupSets | products_report_generator_api/views.py:397-475 | a name clash names one of the sent group sets; a success loses no stored group set and does not move the key counter back |
| CampaignItems.NewIdsSplit | products_report_generator_api/views.py:423-467 | consecutive key ranges join |
| CampaignItems.NewIdsOne | products_report_generator_api/views.py:423-467 | one new row takes one key |
| CampaignItems.YdCampaignStep | products_report_generator_api/views.py:465-475 | one upsert adds its Direct campaign (the sent id, or the next key) to the group |
| CampaignItems.YdCampaignsLoop | products_report_generator_api/views.py:465-475 | after the loop the group holds its kept campaigns, the sent ids and the new keys |
| CampaignItems.GroupSaved | products_report_generator_api/views.py:432-475 | the saved group holds exactly the sent Direct campaign ids plus the new keys, and its row is written under its key |
| CampaignItems.GroupsLoop | products_report_generator_api/views.py:432-475 | after the loop the group set holds its kept groups, the sent ids and the new keys |
| CampaignItems.GroupSetSaved | products_report_generator_api/views.py:397-475 | the saved group set holds exactly the sent group ids plus the new keys, and its row is written under its key |
| CampaignItems.GroupSetsLoop | products_report_generator_api/views.py:397-475 | after the loop the campaign holds its kept group sets, the sent ids and the new keys |
| CampaignItems.ReconcileGroupSets | products_report_generator_api/views.py:383-475 | after reconciliation the campaign's group sets are exactly the sent ids plus the new keys, so stale ones are gone and sent ones survive |
| CampaignItems.AllNewGroupSetsReplaceEverything | products_report_generator_api/views.py:383-392 | a payload of only new group sets deletes every stored group set of the campaign |
| CampaignItems.OwnGroupSetNameIsFree | products_report_generator_api/views.py:399-400 | re-saving a group set under its own name is no clash |
| CampaignItems.GroupSetNamesApartSubset | products_report_generator_api/views.py:399-405 | distinct names among more group sets imply distinct names among fewer |
| CampaignItems.GroupSetStepNames | products_report_generator_api/views.py:399-429 | saving a group set keeps the names of the group sets saved so far distinct |
| CampaignItems.GroupSetsLoopNames | products_report_generator_api/views.py:397-475 | the group sets written by the loop have distinct names |
| CampaignItems.ReconcileGroupSetNamesUnique | products_report_generator_api/views.py:383-475 | after a successful save the campaign's group set names are unique |
| CampaignItems.GroupNamesApartSubset | products_report_generator_api/views.py:434-439 | distinct names among more groups imply distinct names among fewer |
| CampaignItems.GroupStepNames | products_report_generator_api/views.py:434-462 | saving a group keeps the names of the groups saved so far distinct |
| CampaignItems.GroupsLoopNames | products_report_generator_api/views.py:432-475 | the groups written by the loop have distinct names |
| CampaignItems.GroupSetSavedGroupNamesUnique | products_report_generator_api/views.py:408-475 | after a group set is saved its groups' names are distinct |
| CampaignItems.ItemStore.SetState | products_report_generator_api/views.py:373 | the store takes the given state, as the rollback does for the rows |
| CampaignItems.ItemStore.constructor | products_report_generator_api/views.py:373 | the store holds the given rows |
| CampaignItems.ItemStore.SaveYdCampaigns | products_report_generator_api/views.py:465-475 | agrees with ApplyYdCampaigns: the same error, or the same new rows; no key sequence moves back |
| CampaignItems.ItemStore.SaveGroup | products_report_generator_api/views.py:432-475 | agrees with ApplyGroup; no key sequence moves back |
| CampaignItems.ItemStore.SaveGroupSet | products_report_generator_api/views.py:397-475 | agrees with ApplyGroupSet; no key sequence moves back |
| CampaignItems.RollbackKeepsValid | products_report_generator_api/views.py:372-373 | restoring the rows while keeping the advanced key sequences keeps keys below their sequences |
| CampaignItems.ItemStore.CreateOrUpdateCampaignGroupItems | products_report_generator_api/views.py:372-476 | on success the rows are those of Reconcile and the message says updated or created. On any failure the error is returned, every table holds the rows it held before, and no key sequence is behind where it was |
| Catalog.Listed | products_report_generator_api/views.py:205-216 | exactly the rows whose soft-delete flag is false |
| Catalog.MarkDeletedLeavesListing | products_report_generator_api/views.py:154-157 | soft delete keeps the row and its data, sets the flag, removes exactly that row from the listing, and leaves every other row as it was |
| Catalog.SoftDeleteAsWritten | products_report_generator_api/views.py:267-278 | as written: a listed row is flagged with the success message; an unlisted id is a 500 carrying the 404's text |
| Catalog.DeletingTwiceAsWrittenIsServerError | products_report_generator_api/views.py:267-278 | as written, deleting the same product twice answers the second request with a 500 |
| Catalog.Table.constructor | products_report_generator_api/models.py:6-22 | a table with the given rows and counter |
| Catalog.Table.SoftDelete | products_report_generator_api/views.py:267-278 | a listed row gets its flag set with the success message; an unlisted id is a 404 and nothing changes |
| Catalog.OwnProductNameIsFree | products_report_generator_api/views.py:239-243 | saving a product under its own name is no clash |
| Catalog.OtherProductNameIsTaken | products_report_generator_api/views.py:239-243 | taking any other product's name, even a soft-deleted one's, is a clash |
| Catalog.SaveKeepsProductNamesUnique | products_report_generator_api/models.py:7 | writing a row whose name belongs to no other row keeps product names unique |
| Catalog.SaveKeepsCampaignNamesUnique | products_report_generator_api/models.py:27 | writing a row whose name belongs to no other row keeps campaign names unique |
| Catalog.OfferedIds | products_report_generator_api/views.py:187 | only offered rows (listed, of the product, status 2, with a file path), and every offered row of the walk; all of them when all qualify |
| Catalog.OfferedIdsInOrder | products_report_generator_api/views.py:187 | the offered rows are a subsequence of the walk: its order is kept |
| Catalog.OfferedIdsCount | products_report_generator_api/views.py:187 | each offered row occurs exactly as often as the walk visits it, and a row that is not offered never occurs |
| Catalog.PreviousReports | products_report_generator_api/views.py:185-188 | one entry per offered row, in walk order: entry i is the previous-report form of the i-th offered row, so duplicates are kept. Every offered report is included and every entry comes from one |
| Catalog.SamePathListedTwice | products_report_generator_api/views.py:185-188 | two offered reports with the same path give two equal entries, not one |
| Catalog.ItemErrorResponse | products_report_generator_api/views.py:356-362 | a failed group-items save keeps its status; only a clash carries a message |
| Catalog.CatalogStore.constructor | products_report_generator_api/models.py:6-207 | fresh tables and the given group items; the action and goal handbook tables are different objects |
| Catalog.CatalogStore.DeleteReport | products_report_generator_api/views.py:149-160 | Table.SoftDelete with the report message; the key counter is unchanged |
| Catalog.CatalogStore.DeleteProduct | products_report_generator_api/views.py:267-278 | Table.SoftDelete with the product message; the key counter is unchanged |
| Catalog.CatalogStore.DeleteCampaign | products_report_generator_api/views.py:518-529 | Table.SoftDelete with the campaign message; the key counter is unchanged |
| Catalog.CatalogStore.DeleteActionHandbook | products_report_generator_api/views.py:700-712 | Table.SoftDelete with the action handbook message; the key counter is unchanged |
| Catalog.CatalogStore.DeleteGoalHandbook | products_report_generator_api/views.py:862-871 | Table.SoftDelete with the goal handbook message; the key counter is unchanged |
| Catalog.CatalogStore.PostProduct | products_report_generator_api/views.py:218-251 | checks in order: invalid input is a 400 with the formatted errors; an unlisted edited product is a 404; another product's name is a 409. Otherwise the row is written (new rows take the next key and the user's id) with the updated/created message. Unique names and the key range are preserved |
| Catalog.CatalogStore.SaveCampaign | products_report_generator_api/views.py:335-346 | on a successful reconciliation the campaign row is written and the items are those of Reconcile, with the updated/created message. On failure the campaign rows and the item rows are as before, while the campaign key counter keeps the value the insert took and the item counters do not move back |
| Catalog.CatalogStore.WriteCampaign | products_report_generator_api/views.py:330-346 | an unlisted edited campaign is 404 and changes nothing. Otherwise the row is written with the product's Direct login and the stored owner, and the group items are reconciled; a failure rolls the rows back. Unique names are preserved. The key counter advances by one exactly when a new campaign is created, whether or not the items save, and is otherwise unchanged |
| Catalog.CatalogStore.PostCampaign | products_report_generator_api/views.py:316-370 | checks in order: 400; another campaign's name is 409; an unlisted product is 404 with the DoesNotExist text; an unlisted edited campaign is 404. Otherwise the row is written with the product's Direct login and the group items are reconciled. A failed reconciliation rolls the campaign row and the item rows back. Unique names are preserved. The key counter advances by one exactly when a new campaign passes the checks, and is unchanged on 400, 409 and both 404s |
| Common.Reverse | statistics_pp/views.py:206 | `reverse()`: the same length, element i is the input's element counted from the end |
| Common.ReverseAppend | statistics_pp/views.py:206 | reversal of a concatenation swaps and reverses the parts |
| Common.LastSegment | statistics_pp/views.py:152 | `split(sep)[-1]`: the longest suffix without `sep`, preceded by `sep` when it is not the whole string |
| Common.LastSegmentOfPath | statistics_pp/views.py:152 | `split('/')[-1]` of `dir/name` is `name` when `name` has no '/' |
| Common.FirstSegment | core/permissions.py:35 | `split(sep)[0]`: the longest prefix without `sep`, followed by `sep` when it is not the whole string |
| Common.Join | products_report_generator_api/views.py:34-37 | `sep.join`: the empty list gives the empty string, one part gives that part, and otherwise the result starts with the first part and ends with the last |
| Common.RemoveAll | products_report_generator_api/views.py:62 | `replace(p, '')` never lengthens the string, and leaves a string without `p` unchanged |
| Common.Distinct | products_report_generator_api/views.py:37 | the same members as the input, each exactly once |
| Common.SetOrderFacts | products_report_generator_api/views.py:37 | iterating `set(s)` yields every element of `s`, each once, and nothing else |
| Common.DistinctOfCopies | products_report_generator_api/views.py:37 | a `set` of copies of one string has that one element |
| Common.SetOrderOfCopies | products_report_generator_api/views.py:37 | every iteration order of such a set is that one element |

## Left out

- Network clients: the Yandex Direct and Metrika requests in `YDCampaigns.get` and `YMGoals.get`, their JSON config reading and response cache. Only the helpers `mappings_statuses` and `update_headers_with_csrf` are modelled.
- Object storage: `share_file_from_bucket` is the parameter `share`, and cookie loading from the bucket is not modelled.
- `get_cookies_selenium.py` (browser automation), `load.py` (CSV loading), `image_processing_api` (a wrapper over code not shown), the auth and account views and URL routing.
- The statistics serializers are not part of this model. Metric indices in 1..3 are a precondition of `Statistics.BuildMetricVector` and `Statistics.StatisticsStore.SubmitJob`. Index 0 would write slot 2 through negative indexing, and indices above 3 would raise.
- `ProviderStatistic.post` on invalid input and `GetSegmentData.get` (its 400 responses) are not modelled.
- Statistics.GetPaths: models `get_path` with the corrected walk, a fresh list per node. As written, every call shares the default `array=[]` (statistics_pp/views.py:195), so every entry of `paths` is that one list holding every walk, and it persists across requests; Statistics.TwoCallsSharingDefault states that behaviour for two walks.
- `distinct('parent_id')` in `get_path`: `Statistics.GetPaths` takes the selected node ids as given, so the choice of one node per parent is not modelled.
- Database referential actions (`DO_NOTHING` foreign keys) are not modelled. Deleted group sets and groups leave their children in the tables, unreachable from the campaign.
- Generic `except Exception` 500 answers for database failures, and the body text of the framework's own 404 (modelled as `message == None`).
- DRF input coercion: whitespace trimming of CharFields, integer and date parsing (payload fields are already typed), required-field messages, and `DictField` key stringification.
- `Reports.post`, `CreateReportData.get` apart from its previous-report list, the form helpers other than `previous_report_form`, and the handbook `post` views are not modelled. Of the handbook views only the serializers and the soft-delete methods are covered.
- Catalog.CatalogStore.DeleteReport, DeleteProduct, DeleteCampaign, DeleteActionHandbook and DeleteGoalHandbook: they answer an unknown or already deleted id with 404, the corrected behaviour. The code as written answers 500 (see Findings).
- CampaignItems.ItemStore.CreateOrUpdateCampaignGroupItems: after a failed save the key sequences are only stated to be no lower than before; how many values the failed inserts consumed is not stated.
- Catalog.PreviousReports: the order in which the query returns report rows is the parameter `ids`, because the queryset has no `order_by`.
- ReportViews.ErrorFormatter: the result is stated up to the order of the distinct per-field strings, because that order comes from iterating a Python `set`.
- ReportViews.PreviousReportForm: the name is stated for paths whose file name has no embedded '.xlsx' (see ReportViews.PreviousReportName). `replace` can also join two halves into a new '.xlsx'.

## Findings

| source | as written | input that shows it | evidently intended | confidence | as-written member | corrected member |
|---|---|---|---|---|---|---|
| statistics_pp/views.py:195 | `parent_placeholder` defaults `array=[]`, one list shared by every call that omits it | paths for two nodes in one `get_path`: the second result has the first walk's ids appended, and both results are the same list | a fresh list per top-level call, each result the root-to-node path of its own node | not executed | Statistics.TwoCallsSharingDefault | Statistics.AncestorPath |
| products_report_generator_api/views.py:267-278 | the soft-delete views call `get_object_or_404` inside `try … except Exception`, and Http404 is an Exception | DELETE the same product twice: the second answer is 500 'Ошибка удаления продукта: No Product matches the given query.' | 404 for an unknown or already deleted id (as `Campaigns.post` gets by re-raising Http404) | not executed | Catalog.SoftDeleteAsWritten | Catalog.Table.SoftDelete |
