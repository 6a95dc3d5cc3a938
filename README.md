# ThResultSetModel and the list directives of Treeherder, in Dafny

This project models the client-side synchronisation engine of Treeherder's job view:
`ThResultSetModel` in `webapp/app/js/services/models/resultsets.js`. It also models the list
and string logic of three directives in `webapp/app/js/directives/main.js`.

The engine keeps two things in step:

- **The display model.** `resultSets` is a list of result sets. Each result set holds a list
  of platforms, each platform holds a list of groups, and each group holds a list of jobs.
- **A layered index over that model.** `rsMap` maps result-set id → platform key → group
  name → job key. `jobMap` maps each job key to its job and the group the job was filed under.

The engine also keeps:

- two running minima: the oldest push timestamp and the oldest job id;
- the offset of the next page of result sets;
- two queues filled by live `job` notifications: job ids, and result-set ids.

Files:

- `js_values.dfy` (module `JsValues`): the JavaScript semantics the code relies on. That is
  the job-record values, `String(x)` as a property key, `parseInt`, `indexOf` and
  `Array.prototype.join`.
- `display.dfy` (module `Display`): the display objects as classes, because the engine
  pushes into their lists in place. It also holds the pure helpers `getJobMapKey`,
  `getPlatformKey` and `rsCompare`, and the sort.
- `index.dfy` (module `Index`): the index entries as values that refer to the display
  objects. It defines what `mapResultSets` files for a batch, as functions, and the invariant
  `IndexOk`, which says every index element names an object that sits in the list of the
  element above it. It also has the lemmas that keep `IndexOk` true while the lists grow.
- `mapping.dfy` (module `Mapping`): the four nested loops of `mapResultSets` as methods with
  loop invariants. Each is proved against the matching `Index` function.
- `engine.dfy` (module `Engine`): the engine as the class `ResultSetModel`, whose methods
  update its fields in place. `Valid()` says four things:
  - the index agrees with the display lists;
  - `resultSets` is sorted newest first;
  - the result-set queue holds no duplicates;
  - the ghost `lists` records the display lists as they are.
- `directives.dfy` (module `Directives`): the `numbersOnly` parser, `move_options` of
  `thMultiSelect`, and the clamp and split of `thTruncatedList`.

Fetches, the socket and the timer are not called. Each is modelled as follows:

- What a fetch returns is an argument to `PrependResultSets`, `AppendResultSets` or
  `UpdateJobs`.
- What the engine would request is returned as a value: a `ResultSetsRequest`, the `id__in`
  string of the job fetch, or the `revisions_uri`.
- A live notification is a call to `OnJobEvent`.
- A timer tick is a call to `ProcessUpdateQueues`.

Quirks of the code that the model keeps as written:

- **Platform key built from two different fields.**
  - getOrCreatePlatform looks a platform up under `getPlatformKey(platform, option)`. A new
    platform it creates is given `option: platform_opt` (resultsets.js lines 149 and 157).
  - updateJobs looks the platform up under `getPlatformKey(platform, platform_opt)` (lines
    280 and 290).
  - When `option` and `platform_opt` differ, the job is filed under the `option` key. If no
    platform is filed under that key yet, getOrCreatePlatform pushes a new display platform,
    even when the result set already shows one filed under the `platform_opt` key (lines
    149-162).
  - updateJobs then throws a TypeError only when three things hold: the job opens a new
    payload row, its result set is indexed, and nothing is filed under
    `getPlatformKey(platform, platform_opt)`. Otherwise it carries on.
    `Engine.ResultSetModel.PayloadStep` and `UpdateJobs` state exactly when this happens.
- **Two comparisons at one boundary.** The notification handler accepts a result set pushed
  at the oldest timestamp (`>=`, line 476), but prependResultSets drops it (`>`, line 394).
  `Engine.BoundaryResultSetDropped` exhibits such a result set.
- **Zero read as "unset".** `!oldest` treats an oldest marker of 0 as unset (line 73), the
  same as `null`. The model represents `null` as 0. `Index.OldestForgetsZero` shows that a
  zero timestamp is then forgotten.
- **A documented step with no code.** The comment of processUpdateQueues (lines 211-213) says
  that jobs fetched with a result set are removed from the job queue. No code does this:
  `ProcessUpdateQueues` hands both queues on whole.
- **Timestamp checked before the index.** A job notification is first checked for staleness
  against the oldest timestamp, and only then for whether its result set is indexed (lines
  476-478). So a job of an indexed result set whose notification carries an older timestamp
  is dropped. The model follows this order (`Engine.RouteJobEvent`).

## Model

| member | source | states |
|---|---|---|
| Display.JobKey | webapp/app/js/services/models/resultsets.js:39-42 | a job key is `"key"` followed by the id |
| Display.JobKeyInjective | webapp/app/js/services/models/resultsets.js:39-42 | two job ids share a jobMap key if and only if they are equal |
| Display.PlatformKeyOfStrings | webapp/app/js/services/models/resultsets.js:44-50 | for a string name, the key is the name when the option is `undefined`/`null`, and otherwise the name followed by the option with no separator |
| Display.PlatformKeyNotInjective | webapp/app/js/services/models/resultsets.js:44-50 | distinct (name, option) pairs can share a key ("linux"+"64" and "linux6"+"4"; an empty option and a missing one) |
| Display.RsCompare | webapp/app/js/services/models/resultsets.js:131-139 | returns -1, 1 or 0 exactly when the first result set is newer than, older than, or as old as the second |
| Display.RsCompareConsistent | webapp/app/js/services/models/resultsets.js:131-139 | the comparator is antisymmetric and transitive, so it is a valid sort order |
| Display.Sort | webapp/app/js/services/models/resultsets.js:121 | the sorted list is ordered by non-increasing push timestamp and has the same length |
| Display.SortPermutes | webapp/app/js/services/models/resultsets.js:121 | sorting is a permutation: the multiset of result sets is unchanged |
| Display.SortKeeps | webapp/app/js/services/models/resultsets.js:121 | a result set is in the sorted list if and only if it was in the list |
| Display.SortStable | webapp/app/js/services/models/resultsets.js:121 | the sort is stable: for every timestamp, the result sets pushed at it appear in the sorted list in their order in the input |
| Display.SortKeepsTiedPair | webapp/app/js/services/models/resultsets.js:121 | two result sets with equal timestamps stay in the order they came in |
| JsValues.IndexOf | webapp/app/js/services/models/resultsets.js:485 | `indexOf` gives -1 exactly when the value is absent, and otherwise the first position holding it |
| JsValues.ParseIntRoundTrip | webapp/app/js/directives/main.js:202 | `parseInt(String(n))` gives back `n` for every integer |
| JsValues.IntToStringInjective | webapp/app/js/services/models/resultsets.js:69 | two result-set ids share an rsMap key if and only if they are equal |
| JsValues.SplitJoin | webapp/app/js/services/models/resultsets.js:244 | joining pieces that hold no separator, then splitting at it, gives the pieces back |
| Index.OldestStep | webapp/app/js/services/models/resultsets.js:73-75 | one update of an oldest marker keeps the old marker or takes the new value |
| Index.OldestIsMinimum | webapp/app/js/services/models/resultsets.js:73-75 | with positive values the marker is the minimum of the old marker and the values seen, and is unset only when nothing was seen |
| Index.OldestForgetsZero | webapp/app/js/services/models/resultsets.js:73 | a zero timestamp is read as unset, so the next value replaces it even when larger |
| Index.BatchIndexOk | webapp/app/js/services/models/resultsets.js:58-119 | every result-set, platform, group and job element filed for a batch sits in the list of the element above it, and every jobMap element points at the group whose list holds its job |
| Index.BatchFiled | webapp/app/js/services/models/resultsets.js:58-119 | after filing a batch, every result set of it is in rsMap, and every job in every group of every platform of it is in jobMap |
| Index.GroupsIndexShadows | webapp/app/js/services/models/resultsets.js:90-98 | two groups whose names give one key share one group element, the later group's, so the earlier group is listed but not reachable from the index |
| Index.EntriesMapShadows | webapp/app/js/services/models/resultsets.js:103-110 | two jobs of one group with one id share one jobMap element, the later job's |
| Index.EntriesMapDistinct | webapp/app/js/services/models/resultsets.js:103-110 | when job ids are distinct, each job's jobMap element is that job with its own group |
| Index.IndexOkGrown | webapp/app/js/services/models/resultsets.js:162 | the index invariant survives any step that only appends to display lists and drops no displayed result set |
| Index.MappedBatchOk | webapp/app/js/services/models/resultsets.js:58-119 | filing a batch over a valid index keeps the whole index valid |
| Index.WithPlatform | webapp/app/js/services/models/resultsets.js:147-172 | the index after get-or-create-platform keeps every result-set, platform and group element with its object and every job key of a group element (`Extends`), and is unchanged when the key was present; otherwise it holds a new element with no groups under the key |
| Index.WithGroup | webapp/app/js/services/models/resultsets.js:181-206 | the same, for a group element under its name |
| Index.WithJob | webapp/app/js/services/models/resultsets.js:370-373 | the index keeps every element and job key (`Extends`) and files the given job element under its key in its group element |
| Index.WithPlatformFrame | webapp/app/js/services/models/resultsets.js:147-172 | get-or-create-platform changes at most the platform element under its key: every other result-set element and every other platform element of the result set stay as they were |
| Index.WithGroupFrame | webapp/app/js/services/models/resultsets.js:181-206 | get-or-create-group changes at most the group element under its key; every other element at each level above it stays as it was |
| Index.WithJobFrame | webapp/app/js/services/models/resultsets.js:370-373 | filing a job element changes at most the job element under its key: the other job elements of the group element, and every other element above it, stay as they were |
| Index.GetOrCreateOnce | webapp/app/js/services/models/resultsets.js:147-206 | get-or-create is idempotent: a second call finds what the first made, so at most one platform and one group are created per key |
| Index.WithPlatformOk | webapp/app/js/services/models/resultsets.js:162-169 | creating a platform element keeps the index invariant when the platform was pushed onto its result set's list |
| Index.WithGroupOk | webapp/app/js/services/models/resultsets.js:193-200 | creating a group element under its name keeps the invariant when the group was pushed onto its platform's list |
| Index.WithJobOk | webapp/app/js/services/models/resultsets.js:370-382 | filing a job in its group element and in jobMap keeps the invariant when the job was pushed onto that group's list |
| Mapping.IndexJobs | webapp/app/js/services/models/resultsets.js:101-116 | the jobs loop files every job of the group under its key, in the group element and in jobMap, and moves the oldest job id over the group's ids |
| Mapping.IndexGroups | webapp/app/js/services/models/resultsets.js:90-117 | the groups loop files every group of the platform under its name, with its jobs, and adds all their jobs to jobMap |
| Mapping.IndexPlatforms | webapp/app/js/services/models/resultsets.js:78-118 | the platforms loop files every platform of the result set under its platform key, with its groups and jobs |
| Mapping.IndexBatch | webapp/app/js/services/models/resultsets.js:60-119 | the result-set loop files every result set under `String(id)` with everything under it, and moves both oldest markers over the batch |
| Engine.GroupFoundKeys | webapp/app/js/services/models/resultsets.js:181-206 | getOrCreateGroup adds no result-set list, and at most the platform and the group it returns |
| Engine.JobFiledFound | webapp/app/js/services/models/resultsets.js:367-382 | a newly filed job is in jobMap and in its group element under its key, and is the last job of its group's list |
| Engine.NewerReversed | webapp/app/js/services/models/resultsets.js:392-401 | the result sets prepend adds come from the batch and are strictly newer than the marker |
| Engine.NewerReversedMembers | webapp/app/js/services/models/resultsets.js:392-401 | a result set is added if and only if it is in the batch and strictly newer than the marker |
| Engine.NewerReversedCounts | webapp/app/js/services/models/resultsets.js:392-401 | each added result set is added as often as it occurs in the batch |
| Engine.NewerReversedAll | webapp/app/js/services/models/resultsets.js:392-401 | when the whole batch is newer, it is added in reverse order |
| Engine.BoundaryResultSetDropped | webapp/app/js/services/models/resultsets.js:394 | a notification for a result set pushed exactly at the oldest timestamp queues its id (`RouteJobEvent`), yet prepending that result set adds nothing |
| Engine.OldestKept | webapp/app/js/services/models/resultsets.js:73-75 | a set marker does not move for values all above it, so prepending never moves a set oldest timestamp |
| Engine.MappedBatchFiled | webapp/app/js/services/models/resultsets.js:58-121 | after mapping, the list is the old list plus the batch as a multiset, every result set of the batch is filed under its id, and the marker is the batch's running minimum |
| Engine.PrependFiled | webapp/app/js/services/models/resultsets.js:389-406 | after prepend, the display list holds exactly the old result sets and the batch's newer ones; those are all filed, and a set oldest timestamp is unchanged |
| Engine.Payload | webapp/app/js/services/models/resultsets.js:276-308 | each payload row lists positions of that row's jobs in increasing order, and its first job's result set is indexed |
| Engine.PayloadKeys | webapp/app/js/services/models/resultsets.js:276-305 | a platform row is in the payload if and only if one of its jobs has an indexed result set |
| Engine.PayloadMembers | webapp/app/js/services/models/resultsets.js:276-308 | a job is in its row if and only if it comes at or after the first job of that row whose result set is indexed |
| Engine.RouteJobEvent | webapp/app/js/services/models/resultsets.js:472-499 | another branch, or a timestamp below the oldest, leaves both queues as they are; an indexed result set queues the job id (no dedup); otherwise the result-set id is appended if it is absent and the queues are left as they are if it is present, so a duplicate-free queue stays duplicate-free |
| Engine.JobIdsParamRoundTrip | webapp/app/js/services/models/resultsets.js:243-244 | the `id__in` parameter `jobFetchList.join()`, split at commas, gives back each queued job id in order |
| Engine.ResultSetModel.constructor | webapp/app/js/services/models/resultsets.js:419-433 | the model starts valid, with the given settings and an empty index, list and queues |
| Engine.ResultSetModel.Init | webapp/app/js/services/models/resultsets.js:419-433 | init empties the index, list and queues, resets the markers and offset, sets the repo, and keeps the old interval when the new one is falsy |
| Engine.ResultSetModel.ResetRevisions | webapp/app/js/services/models/resultsets.js:60-63 | every result set of the batch gets an empty revisions list, and no platform list changes |
| Engine.ResultSetModel.IndexAndSort | webapp/app/js/services/models/resultsets.js:58-121 | the batch is filed, both markers move to the running minima, and the list is sorted; the result is `Mapped` |
| Engine.ResultSetModel.MapResultSets | webapp/app/js/services/models/resultsets.js:58-125 | mapResultSets keeps `Valid()`, empties the batch's revisions, files the batch with everything under it, moves the markers, and leaves the list sorted as a permutation of the old one |
| Engine.ResultSetModel.CollectNewer | webapp/app/js/services/models/resultsets.js:392-401 | the backwards loop pushes exactly the batch's result sets newer than the marker, last first, onto both lists |
| Engine.ResultSetModel.PrependResultSets | webapp/app/js/services/models/resultsets.js:389-406 | prepend maps exactly the newer result sets, added last first, keeps `Valid()`, clears `prepending` and leaves the offset and queues alone |
| Engine.ResultSetModel.AppendResultSets | webapp/app/js/services/models/resultsets.js:408-415 | append adds and maps the whole batch, moves the offset by its length, clears `appending` and keeps `Valid()` |
| Engine.ResultSetModel.PayloadStep | webapp/app/js/services/models/resultsets.js:267-308 | one job extends a valid payload to a valid payload one job longer; it throws a TypeError exactly when the row is new, the result set is indexed and the platform under `platform_opt` is missing |
| Engine.ResultSetModel.UpdateJobs | webapp/app/js/services/models/resultsets.js:257-312 | every fetched job is filed by updateJob in order; the jobsLoaded payload is valid for all jobs, or the TypeError is reported for the last job handled; every job handled whose result set is indexed is in jobMap; no jobMap element is replaced; the index keeps every result-set, platform and group element with its object and every job key of a group element (`Extends`); the jobs' fields are the old ones with the handled records folded in (`FoldFields`); the list, markers and queues are unchanged |
| Engine.ResultSetModel.FileFetched | webapp/app/js/services/models/resultsets.js:265-309 | one turn of the updateJobs loop files the job and extends the payload, or throws the TypeError; the index keeps every element and job key (`Extends`); the jobs' fields change as `FileFields` says for that record, and no other job object changes its fields |
| Engine.ResultSetModel.FileJob | webapp/app/js/services/models/resultsets.js:267 | a job object made from one fetched record is handed to updateJob; afterwards the jobs' fields are as `FileFields` says, no jobMap element is replaced, the index keeps every element and job key (`Extends`), and only the loaded job under the record's key can have changed its fields |
| Engine.FileFields | webapp/app/js/services/models/resultsets.js:348-387 | the fields by job key after updateJob: unchanged for an unindexed result set; otherwise the job's key is added or kept, each field of the record has the record's value, each old field the record lacks keeps its value, a new job has exactly the record, and every other key keeps its fields |
| Engine.FoldFieldsKeys | webapp/app/js/services/models/resultsets.js:265-267 | after updateJobs, the jobs are the loaded ones and one per fetched record whose result set is indexed |
| Engine.FoldFieldsFrame | webapp/app/js/services/models/resultsets.js:265-267 | a loaded job that no handled record names keeps its fields |
| Engine.FoldFieldsLast | webapp/app/js/services/models/resultsets.js:265-267 | a job holds every field of the last handled record with its id, with that record's values |
| Engine.ResultSetModel.GetOrCreatePlatform | webapp/app/js/services/models/resultsets.js:147-172 | the platform element under `getPlatformKey(platform, option)` is found, or created with name `platform`, option `platform_opt` and no groups, and pushed onto the result set's list; the invariant holds |
| Engine.ResultSetModel.GetOrCreateGroup | webapp/app/js/services/models/resultsets.js:181-206 | the group element under `job_group_name` is found, or created with the job's group name and symbol and pushed onto the platform's list; only these are added |
| Engine.ResultSetModel.AddGroupElement | webapp/app/js/services/models/resultsets.js:184-203 | a new group is pushed onto the platform's list and filed under its name, and the invariant holds |
| Engine.ResultSetModel.UpdateJob | webapp/app/js/services/models/resultsets.js:348-387 | an unindexed result set changes nothing; a known job key only merges the new fields into the loaded job; otherwise the job is filed once, in its group element, in jobMap and at the end of its group's list; no jobMap element is replaced; the jobs' fields change as `FileFields` says, and no job object except the extended one changes its fields |
| Engine.ResultSetModel.AddNewJob | webapp/app/js/services/models/resultsets.js:364-383 | the adding branch of updateJob files the job at all levels, adds no other job, and changes the fields of no job object |
| Engine.ResultSetModel.ExtendJob | webapp/app/js/services/models/resultsets.js:362 | `_.extend` merges the new fields over the loaded job's, the new ones winning; no other job object changes, and the jobs' fields change under that job's key only |
| Engine.ResultSetModel.PushJob | webapp/app/js/services/models/resultsets.js:375 | the job is appended to the group's list |
| Engine.ResultSetModel.PushPlatform | webapp/app/js/services/models/resultsets.js:155-162 | a fresh platform with the given name and option and no groups is appended to the result set's list |
| Engine.ResultSetModel.PushGroup | webapp/app/js/services/models/resultsets.js:186-193 | a fresh group with the given name and symbol and no jobs is appended to the platform's list |
| Engine.ResultSetModel.OnJobEvent | webapp/app/js/services/models/resultsets.js:472-499 | the `job` handler updates the queues as `RouteJobEvent` says and keeps `Valid()` |
| Engine.ResultSetModel.ProcessUpdateQueues | webapp/app/js/services/models/resultsets.js:218-253 | both queues are handed on and left empty; a result-set request and a job fetch are issued only for non-empty queues, and the request lists the queued result sets |
| Engine.ResultSetModel.FetchNewResultSets | webapp/app/js/services/models/resultsets.js:541-546 | sets `prepending` and requests the listed result sets from offset 0 |
| Engine.ResultSetModel.FetchResultSets | webapp/app/js/services/models/resultsets.js:552-557 | sets `appending` and requests `count` result sets from the current offset |
| Engine.ResultSetModel.LoadRevisions | webapp/app/js/services/models/resultsets.js:502-512 | an unindexed id throws a TypeError; otherwise the revisions URI is requested if and only if no revisions are loaded |
| Engine.ResultSetModel.RevisionsLoaded | webapp/app/js/services/models/resultsets.js:507-508 | the fetched revisions are appended to the result set's list and the invariant holds |
| Directives.DigitsOnly | webapp/app/js/directives/main.js:143 | the output is no longer than the input and holds only `0`-`9` |
| Directives.DigitsOnlyConcat | webapp/app/js/directives/main.js:143 | stripping works piecewise over concatenation, so the digits keep their order |
| Directives.DigitsOnlyCounts | webapp/app/js/directives/main.js:143 | every digit keeps its multiplicity and every other character is removed |
| Directives.DigitsOnlyFixedPoint | webapp/app/js/directives/main.js:143-144 | the input is left unchanged if and only if it is all digits |
| Directives.DigitsOnlyIdempotent | webapp/app/js/directives/main.js:143 | stripping twice is stripping once |
| Directives.NumbersOnlyParser | webapp/app/js/directives/main.js:138-150 | `undefined`/`null` gives `''`; otherwise the digits of the input, with the view reset to them if and only if the input was not all digits |
| Directives.NumbersOnlyReparse | webapp/app/js/directives/main.js:144-149 | the parser run again on its own output returns it unchanged and does not reset the view |
| Directives.MoveOne | webapp/app/js/directives/main.js:173-176 | an absent item changes neither list; a present item's first occurrence leaves `from` and goes to the end of `to`; the two lists together keep their contents |
| Directives.MoveAllConserves | webapp/app/js/directives/main.js:170-178 | moving keeps the combined multiset and the total length of the two lists, and only appends to `to` |
| Directives.MoveAllSelected | webapp/app/js/directives/main.js:170-178 | when all selected items are in `from`, `to` gains exactly them in order, and `from` loses exactly them |
| Directives.MultiSelect.constructor | webapp/app/js/directives/main.js:165-168 | the link keeps the bound lists and empties both selections |
| Directives.MultiSelect.MoveOptions | webapp/app/js/directives/main.js:170-178 | the splice-and-push loop computes `MoveAll` |
| Directives.MultiSelect.MoveLeft | webapp/app/js/directives/main.js:179-181 | the right selection moves from the right list to the left list |
| Directives.MultiSelect.MoveRight | webapp/app/js/directives/main.js:182-184 | the left selection moves from the left list to the right list |
| Directives.ParseVisible | webapp/app/js/directives/main.js:202-207 | a TypeError is thrown exactly when `parseInt` gives NaN or a negative number; otherwise the parsed number |
| Directives.ParseVisibleOfNumber | webapp/app/js/directives/main.js:202-207 | an attribute written as an integer is accepted exactly when the integer is not negative |
| Directives.Split | webapp/app/js/directives/main.js:212-213 | head and remainder concatenate back to the list, and the head has `min(visible, length)` elements |
| Directives.Render | webapp/app/js/directives/main.js:213-223 | the text is the head joined by `", "`; the "others" link appears exactly when something is hidden, titled with the hidden elements and captioned `" and N others"` with N the number hidden |
| Directives.TruncatedList.Link | webapp/app/js/directives/main.js:201-207 | linking fails exactly when the count does not parse to a non-negative number, and otherwise keeps the parsed count |
| Directives.TruncatedList.OnElements | webapp/app/js/directives/main.js:209-225 | a falsy list is ignored; otherwise the count is clamped to the list's length and written back, and the view is rendered from it; the count never grows |

## Left out

- Socket wiring (`connect`, `subscribe`) and the `setInterval` timer (resultsets.js lines 435, 453-457): transport and scheduling. A notification is a call to `OnJobEvent` and a tick is a call to `ProcessUpdateQueues`.
- Every call of init registers another `job` socket handler and another `setInterval` (lines 435 and 472), and none is removed. After a second init, one notification runs two handlers and queues its job id twice. The model has one handler: `Init` does not register anything.
- HTTP fetches (`getResultSets`, `ThJobModel.get_list`, `thResultSets.get`) and their error callbacks: their results arrive asynchronously. The requests are returned as values and the responses are passed to the methods that handle them.
- `$rootScope.$broadcast` (`jobsLoaded`, `jobUpdated`, `revisionsLoaded`) and `$log`: side-channel notifications. The `jobsLoaded` payload is returned by `UpdateJobs`; the other events are not recorded.
- `thAggregateIds.getPlatformRowId` and `getResultsetTableId`: their source is not part of this model. They are the function parameters `rowId` and `tableId`, and `$rootScope.repoName` is the parameter `repo`.
- The `parent` links of result-set, platform and group elements: nothing reads them. The `parent` of a job element is kept, but as the `Group` display object (the group's list). In the source it is the group map element `grpMapElement` (line 372), which holds that list as `grp_obj`.
- Property names inherited from `Object.prototype` (`"constructor"`, `"toString"`, ...) are not modelled. In the source, `rsMapElement.platforms[key]` and `plMapElement.groups[name]` read such a name as a truthy function (lines 150-151 and 183-184), so no element is created and updateJob fails on it. Dafny maps hold only the keys put into them, so the model creates the element.
- The getters `getResultSetsArray`, `getResultSetsMap`, `getJobMap` and `loadingStatus`: they only hand out the fields.
- JavaScript numbers are integers here. Floating-point ids or timestamps, and NaN in comparisons, are not modelled. JavaScript `null` for the oldest markers is 0, which `!x`, `>` and `>=` treat the same way.
- Index.IndexOk: every index element names an object in the list of the element above it, and every jobMap element names a job in its parent's list. It does not claim the converse, that every listed object has an index element, because the source breaks it: a later group or job with the same key replaces the earlier one in the index (`Index.GroupsIndexShadows`, `Index.EntriesMapShadows`), and the earlier one stays listed. Nor does it claim that a job sits in only one group's list: the lists hold whatever objects a batch delivers, and the source relies on each JSON record being a separate object, which the batch parameters do not enforce.
- Engine.ResultSetModel.Valid: it carries `IndexOk`, so the same two claims are left out of it.
- The job objects a fetch delivers are created by the model, one per fetched record (`FileJob`), so aliasing between fetched objects is not modelled.
- Engine.ResultSetModel.ExtendJob: `_.extend` copies every property, but only the field record is merged. The id is a constant of the job object, and jobs under one key have equal ids (`Display.JobKeyInjective`).
- The sort of line 121 is modelled as the stable sort ECMAScript has required since its 2019 edition. An older engine with an unstable sort could order result sets with equal timestamps differently.
- Engine.ResultSetModel.MapResultSets: the revisions of the batch are emptied in a first pass, before indexing. Nothing reads them while indexing, so the result is the same.
- Engine.ResultSetModel.AppendResultSets: `appending` is cleared in the same step as the list update rather than after mapping. Mapping does not read the flag.
- Engine.ResultSetModel.UpdateJobs: it returns the payload instead of broadcasting it. Once the TypeError is thrown, it stops, as the JavaScript loop does.
- The DOM-only directives of main.js (`ngRightClick`, `focusMe`, `selectOnClick`, `preventDefaultOnLeftClick`, `thFilterByBuildername`, `thNotificationBox`, `thFaviconLink`), and the jQuery rendering and tooltip of `thTruncatedList`, which is reduced to the strings it shows.
- `webapp/app/js/directives/top_nav_bar.js`, `webapp/app/plugins/pinboard.js` and `webapp/app/js/directives/log_viewer_steps.js` are not part of this model: they are presentation wiring.
- The elements of a `thTruncatedList` list are `JsValue`s. The `toString` of arbitrary objects inside `join` is not modelled.
- Directives.MultiSelect.MoveLeft, Directives.MultiSelect.MoveRight: the two lists are the parent scope's arrays, bound two-way (`leftList: "="`, `rightList: "="`, main.js lines 161-163), and `splice` and `push` change them in place. The model keeps them as `seq` fields, so it does not capture a parent scope that sees the change through the same array, nor `leftList` and `rightList` bound to one array.
