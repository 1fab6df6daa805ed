# Zoo auditing core, modelled in Dafny

Zoo is a service catalogue. Its auditing component runs checks against each repository. It records one Issue row per repository and issue kind, moves that row through a small status machine (NEW, REOPENED, FIXED, NOT_FOUND, WONTFIX), soft-deletes rows whose check no longer reports, and sends a Slack message to every owning service with a Slack channel when a status changes. The audit pages read those rows:

- the overview, with its filters, the services list and the issues grouped by kind;
- the per-project report, with active issues by category and deprecated issues last;
- the bulk "open git issues" request;
- the manual WONTFIX override.

The repository utilities harvest OpenAPI definitions from a checked-out repository. A Redis cache keyed by a content fingerprint means an unchanged file is never parsed twice.

The model has seven modules:

- `Wrappers` (`wrappers.dfy`): `Option` and `Result`.
- `Json` (`json.dfy`): JSON values, Python truthiness, and `filter(None, …)`.
- `Strings` (`strings.dfy`): Python's string order, stable `sorted(…, key=…)`, substring tests, and `str.split` / `str.join`.
- `Groups` (`groups.dfy`): filling a dict of lists by key, as `defaultdict(list)` does.
- `Auditing` (`auditing.dfy`): the runner contract. It covers check contexts and results, `check_repository`, `determine_issue_status`, `save_check_result`, `run_checks_and_save_results` with its sweep, and `notify_status_change`. The persisted rows live in the class `IssueStore`, whose methods update its table in place.
- `AuditViews` (`views.dfy`): `zoo/auditing/views.py`.
- `RepoUtils` (`repo_utils.dfy`): `openapi_definition`, `_parse_file` and `get_scm_module` from `zoo/repos/utils.py`. The Redis connection is the class `Redis`, whose `Set` updates its store in place.

Database tables are read as sequences of rows in table order. The kind registry is a total function from `kind_key` to its kind. The clock is a `now` parameter. Each loop in the source is a method with a loop, proved equal to a recursive specification function; the properties are then proved as lemmas about those functions.

`zoo/auditing/runner.py` is not part of this model. The behaviour of `Auditing` follows its tests, `test/auditing/test_runner.py`, and the cited lines are those tests. Where the tests are silent, the model follows the component's design:

- only a status change triggers a notification;
- services without a Slack channel are skipped;
- a check that raises contributes no results, even if it had yielded some first;
- `save_check_result` never clears the `deleted` flag.

## Model

| member | source | states |
|---|---|---|
| Auditing.MakeResult | test/auditing/test_runner.py:27-33 | `context.Result(key, is_found, details)` carries exactly the given key, finding and details; details default to none |
| Auditing.NewCheckContext | test/auditing/test_runner.py:12-17 | the context copies the repository's owner, name and project type, and the path it was given |
| Auditing.DetermineIssueStatus | test/auditing/test_runner.py:235-251 | for each status, the exact condition (on is_found and the current status) under which it is the result: NEW only from NOT_FOUND/NEW when found, REOPENED from FIXED/REOPENED when found, WONTFIX sticky when found, FIXED from any status but NOT_FOUND when not found, NOT_FOUND stays |
| Auditing.StatusTableIsExact | test/auditing/test_runner.py:235-251 | the function agrees with every row of the ten-row table, and every (is_found, status) pair has its row |
| Auditing.StatusIsIdempotent | test/auditing/test_runner.py:50-64 | applying the same finding twice gives the same status as applying it once |
| Auditing.Conclusive | test/auditing/test_runner.py:144-168 | the results passed on are exactly those whose is_found is not None, and never more than were emitted |
| Auditing.Collected | test/auditing/test_runner.py:152-168 | every result the runner yields is conclusive |
| Auditing.KeepConclusive | test/auditing/test_runner.py:152-168 | the runner's inner loop keeps exactly `Conclusive(rs)`, in order |
| Auditing.CheckRepository | test/auditing/test_runner.py:152-182 | `check_repository` yields the checks' conclusive results in check order, then emission order, and logs one `auditing.check.error` event per raising check, with repo id, check name and module |
| Auditing.CollectedAppend | test/auditing/test_runner.py:152-168 | the runner's output for two lists of checks run one after the other is the concatenation of their outputs |
| Auditing.ErrorsLoggedAppend | test/auditing/test_runner.py:171-182 | the error log of two lists of checks is the concatenation of their logs |
| Auditing.RaisingCheckContributesNothing | test/auditing/test_runner.py:171-176 | inserting a raising check anywhere leaves the yielded results unchanged |
| Auditing.RaisingCheckLogsOnce | test/auditing/test_runner.py:171-182 | inserting a raising check adds exactly one error event, naming it, at its position |
| Auditing.CollectedMembers | test/auditing/test_runner.py:152-168 | a result is yielded iff some non-raising check emitted it and it is conclusive |
| Auditing.SavedDetails | test/auditing/test_runner.py:83-123 | stored details are `{}` when not found, the supplied mapping when found with details, `{}` when found without |
| Auditing.SaveInEffect | test/auditing/test_runner.py:40-123 | a save creates the row if missing and touches no other row. The saved row has the recomputed status, the new details, `last_check == now`, and its repository and kind key. An existing row keeps its pk, deleted flag and comment |
| Auditing.SaveInCount | test/auditing/test_runner.py:40-47 | a save adds one row for a new key and none for an existing one |
| Auditing.FirstSaveStatus | test/auditing/test_runner.py:36-47 | a first save creates a row with status NEW if found and NOT_FOUND otherwise, details as supplied (or `{}`), not deleted, with the next pk |
| Auditing.SaveIsIdempotent | test/auditing/test_runner.py:50-80 | saving the same result again changes only `last_check` |
| Auditing.CoffeeScenario | test/auditing/test_runner.py:36-123 | a not-found, found, not-found, found sequence of saves for one key goes NOT_FOUND, NEW, FIXED, REOPENED, and details follow the found results |
| Auditing.NotifiedOwners | test/auditing/test_runner.py:279-298 | the notified services are exactly those owning the repository that have a Slack channel, in table order |
| Auditing.DeliveryErrors | test/auditing/test_runner.py:271-276 | an error event is logged iff some message's delivery raised that error, at most one per message |
| Auditing.NotifyStatusChange | test/auditing/test_runner.py:254-303 | every owner is sent one message in turn, whatever happened to earlier sends; each failed send is logged once |
| Auditing.OneMessagePerOwner | test/auditing/test_runner.py:254-298 | there is one message per owner, in order. Each goes to that owner's channel and carries the kind's title, the repository name and a link to `audit_report` for ("services", owner slug, name slug) |
| Auditing.AllFailuresLogged | test/auditing/test_runner.py:300-303 | when every send raises, one error per send is logged |
| Auditing.SaveAndNotifyOne | test/auditing/test_runner.py:185-205 | saving one result and notifying leaves the table exactly as `save_check_result` leaves it |
| Auditing.SaveAndNotify | test/auditing/test_runner.py:185-205 | saving a list of results with notifications leaves the table as saving them one by one does |
| Auditing.Swept | test/auditing/test_runner.py:207-219 | the sweep keeps every row and changes only the deleted flag. A row ends deleted iff it already was, or it belongs to the repository and its key was not produced by the run |
| Auditing.RunAllSavesCollected | test/auditing/test_runner.py:185-205 | consuming the checks one by one saves exactly the runner's output, in its order |
| Auditing.SaveResultsFrame | test/auditing/test_runner.py:185-205 | saving results adds rows only for their keys in this repository, changes no other row, and keeps the table well keyed |
| Auditing.RunOutcomeFrame | test/auditing/test_runner.py:207-219 | a run adds rows only for produced keys and leaves other repositories' rows untouched. Every row of this repository whose key was not produced ends deleted with all its other fields, status included, unchanged |
| Auditing.IssueStore.SaveCheckResult | test/auditing/test_runner.py:40-123 | get-or-create then update: the new table is `SaveIn` of the old one; it returns the saved row and whether its status differs from the prior status (NOT_FOUND for a new row) |
| Auditing.IssueStore.SaveAndNotifyResult | test/auditing/test_runner.py:185-205 | saves one result and notifies the owners exactly when its status changed |
| Auditing.IssueStore.SaveCheckOutput | test/auditing/test_runner.py:185-205 | saves one check's conclusive results in emission order, notifying after each status change |
| Auditing.RunOutcomeCheckErrors | test/auditing/test_runner.py:222-232 | the check errors in a run's log are exactly `ErrorsLogged`: one `auditing.check.error` per raising check, with the repository id, the check's name and its module, in check order; notifications add none |
| Auditing.IssueStore.RunChecksAndSaveResults | test/auditing/test_runner.py:185-232 | consumes the runner lazily, then soft-deletes this repository's rows whose keys the run did not produce. The table, messages and log are those of `RunOutcome` |
| AuditViews.AvailableNamespaces | zoo/auditing/views.py:22-24 | the namespaces offered are exactly those of some issue's kind |
| AuditViews.AvailableOwners | zoo/auditing/views.py:26-28 | the owners offered are exactly those of some service |
| AuditViews.AvailableStatus | zoo/auditing/views.py:30-32 | the statuses offered are exactly the non-None statuses of some service |
| AuditViews.AvailableFilters | zoo/auditing/views.py:34-40 | every filter offered is of type owner, namespace or status |
| AuditViews.NamesOfType | zoo/auditing/views.py:225-233 | the names collected for a type are exactly the names of the applied filters of that type |
| AuditViews.PartitionFilters | zoo/auditing/views.py:225-233 | each of the three sets holds exactly the names of the applied filters of its type |
| AuditViews.Tagged | zoo/auditing/views.py:105-109 | one `{"name", "type"}` filter per name, in order |
| AuditViews.AppliedFilters | zoo/auditing/views.py:105-109 | one applied filter per owner, namespace and status given |
| AuditViews.PartitionOfApplied | zoo/auditing/views.py:105-109 | partitioning the applied filters the overview sends back recovers the owner, namespace and status filters |
| AuditViews.PartitionOfAvailable | zoo/auditing/views.py:34-40 | partitioning the available filters, in any order, recovers the available owners, namespaces and statuses |
| AuditViews.GetServices | zoo/auditing/views.py:42-56 | the services listed are exactly those with a repository that pass each non-empty filter, in table order |
| AuditViews.GetServicesAppend | zoo/auditing/views.py:42-56 | selection is a filter: it distributes over concatenation of the services table |
| AuditViews.IssuesOf | zoo/auditing/views.py:66 | `repository.issues.all()` is exactly the rows of that repository |
| AuditViews.ListingMembers | zoo/auditing/views.py:66-85 | a service contributes an entry for an issue iff the issue's namespace passes the namespace filter |
| AuditViews.RowsMembers | zoo/auditing/views.py:65-85 | an entry appears iff a selected service owns the issue's repository and its namespace passes |
| AuditViews.EntriesFor | zoo/auditing/views.py:87 | each item of the ordered dict is its key with the kind's title, description, effort, severity and the key's entries |
| AuditViews.OverviewIsGroupedByKind | zoo/auditing/views.py:58-87 | `get_issues` keys are sorted and distinct, are exactly the kind keys of the listed entries, and each key carries exactly its entries in append order |
| AuditViews.EmptyNamespaceFilterSkipsNothing | zoo/auditing/views.py:62-63 | with no namespace filter, every issue of a selected service is listed |
| AuditViews.GroupingStep | zoo/auditing/views.py:70-85 | updating the kind's entry and appending the service keeps the dict equal to the one filled from the longer entry list |
| AuditViews.AddEntry | zoo/auditing/views.py:70-85 | one append keeps the `defaultdict` grouping the entries seen so far by kind |
| AuditViews.AddService | zoo/auditing/views.py:66-85 | the inner loop appends exactly the service's listed entries and keeps the grouping |
| AuditViews.AddServices | zoo/auditing/views.py:65-85 | the outer loop appends exactly `Rows` and keeps the grouping |
| AuditViews.SortedItems | zoo/auditing/views.py:87 | the items are built from the dict in the order of the given keys |
| AuditViews.SortedEntriesAreEntriesFor | zoo/auditing/views.py:87 | sorting the filled dict's items gives the entries for the sorted kind keys |
| AuditViews.GetIssues | zoo/auditing/views.py:58-87 | the loop computes `Overview`, whose properties `OverviewIsGroupedByKind` states |
| AuditViews.RedirectFor | zoo/auditing/views.py:217-221 | the redirect is `audit_overview` iff the request names no owner, otherwise `owned_audit_overview` for that owner |
| AuditViews.BulkTasks | zoo/auditing/views.py:222 | one `(pk, user, redirect)` task per pk, in request order |
| AuditViews.Summaries | zoo/auditing/views.py:237-240 | one `{"id", "name", "owner"}` summary per service, in order |
| AuditViews.OpenBulkGitIssues | zoo/auditing/views.py:212-246 | queues one task per pk with the right redirect, and answers with the services and overview for the applied filters partitioned by type |
| AuditViews.ProjectModel | zoo/auditing/views.py:118-137 | a model exists iff the project type is "services" or "libraries", naming Service or Library and its table |
| AuditViews.WithSlugs | zoo/auditing/views.py:143-146 | the matches are exactly the rows with both slugs |
| AuditViews.GetProject | zoo/auditing/views.py:139-149 | `Model.DoesNotExist` (a 404) iff no row has the slugs; `MultipleObjectsReturned` (uncaught, a 500) iff several rows have them; exactly one matching row is returned as the success |
| AuditViews.ActiveIssues | zoo/auditing/views.py:156-162 | the active issues are exactly those not deleted and not FIXED, NOT_FOUND or WONTFIX |
| AuditViews.DeletedIssues | zoo/auditing/views.py:171 | the deprecated issues are exactly the deleted ones |
| AuditViews.SetItem | zoo/auditing/views.py:174 | `d[k] = v` on an ordered dict: an existing key keeps its place, a new key goes last, and `(k, v)` is then an item. With distinct keys, replacing an existing key changes that one pair and leaves every other pair where and as it was |
| AuditViews.ReportAsWritten | zoo/auditing/views.py:132-176 | as written, the report succeeds only for a project that has a repository |
| AuditViews.ReportNotFound | zoo/auditing/views.py:134-149 | an unknown project type is a `Project.DoesNotExist` 404; an unknown slug pair is a 404 naming the model |
| AuditViews.ActiveGroupMembers | zoo/auditing/views.py:155-163 | each category holds exactly the active issues of that category |
| AuditViews.ActiveGroupsSorted | zoo/auditing/views.py:166-169 | each category's issues are sorted by kind key and are a permutation of that category's active issues |
| AuditViews.ActiveCategoriesSorted | zoo/auditing/views.py:166-169 | categories are sorted and distinct, and every active issue's category is among them |
| AuditViews.SortedMembers | zoo/auditing/views.py:167 | sorting a category's issues by kind key keeps exactly its issues |
| AuditViews.DeprecatedBucketIsLast | zoo/auditing/views.py:171-174 | with no deleted issues the report is the active groups. Otherwise "Deprecated Issues" goes last, or replaces a category of that name in place, holding exactly the deleted issues of the repository |
| AuditViews.DeprecatedGroupReplacedInPlace | zoo/auditing/views.py:171-174 | when a category is itself named "Deprecated Issues", its group is replaced by the deleted issues at the same position and every other group is kept as it was |
| AuditViews.RepositoryLessReportCrashes | zoo/auditing/views.py:171 | a project without a repository makes the code as written fail with `AttributeError`; the guarded report succeeds with no issues |
| AuditViews.GuardedReport | zoo/auditing/views.py:155-176 | the guarded report gives no issues for a repository-less project and otherwise agrees with the code as written |
| AuditViews.SortGroups | zoo/auditing/views.py:166-169 | builds the ordered dict from the category dict, each category's issues sorted by kind key |
| AuditViews.SortedGroupsAreCategoryGroups | zoo/auditing/views.py:153-169 | sorting the filled category dict gives the active groups of the sorted categories |
| AuditViews.GetContextData | zoo/auditing/views.py:132-176 | the view computes `Report`, with the repository guard extended to the deleted-issues query |
| AuditViews.WontfixIn | zoo/auditing/views.py:266-271 | the override keeps every key and every other row unchanged |
| AuditViews.WontfixIsSticky | zoo/auditing/views.py:264-273 | after the override, a found result keeps WONTFIX and a not-found result gives FIXED; the comment survives both |
| AuditViews.WontfixIssue | zoo/auditing/views.py:264-273 | `Issue.DoesNotExist` iff no row has the pk; `MultipleObjectsReturned` iff several; a missing `comment` field raises `MultiValueDictKeyError`, which the view does not catch (a 500); a unique pk with a comment succeeds. On failure nothing changes. On success only that row changes (WONTFIX and the comment) and the redirect is the audit report |
| Groups.GroupBy | zoo/auditing/views.py:153-163 | `defaultdict(list)` filled by appending: key order of first occurrence, and each key holds its members in order |
| Strings.SortBy | zoo/auditing/views.py:167 | `sorted(value, key=…)` is ordered by the key and a permutation of its input |
| Strings.SortByStable | zoo/auditing/views.py:167 | the sort is stable, like Python's `sorted`: the elements sharing a key come out in their input order |
| Strings.SortStrings | zoo/auditing/views.py:87 | `sorted(keys)` is ordered and a permutation of its input |
| Strings.SortedDistinct | zoo/auditing/views.py:87 | the sorted keys of a dict filled from a list are ordered, distinct, and exactly the list's elements |
| Strings.OccursInAt | zoo/repos/utils.py:112 | Python's `d in s` holds iff some slice of `s` equals `d` |
| Strings.JoinSplit | zoo/repos/utils.py:32 | `".".join(s.split("."))` gives back `s` |
| Json.TruthyOnly | zoo/repos/utils.py:159 | `list(filter(None, specs))` keeps exactly the truthy specs, in order |
| Json.TruthyOnlyAppend | zoo/repos/utils.py:159 | filtering distributes over concatenation |
| RepoUtils.Redis.Get | zoo/repos/utils.py:121 | `get` returns a value iff the key is stored, and then the stored value |
| RepoUtils.Redis.Set | zoo/repos/utils.py:142-148 | `set(key, value, ex=…)` stores the value and its expiry under the key and changes nothing else |
| RepoUtils.ExcludedIsSubstring | zoo/repos/utils.py:112-116 | a path is excluded iff one of k8s, test, .gitlab, .github occurs anywhere in it |
| RepoUtils.LatestDirectoryIsExcluded | zoo/repos/utils.py:112 | the substring test excludes `docs/latest/openapi.yaml`, because "latest" contains "test" |
| RepoUtils.Fingerprint | zoo/repos/utils.py:118 | the fingerprint is the extension, a dash, then the content's MD5 hex digest |
| RepoUtils.FingerprintsSeparateExtensions | zoo/repos/utils.py:110-118 | files scanned under different extensions never share a cache key |
| RepoUtils.FingerprintDeterminesHash | zoo/repos/utils.py:118 | equal fingerprints under one extension mean equal content digests |
| RepoUtils.Glob | zoo/repos/utils.py:111 | the glob for an extension yields exactly the files whose path ends in `.ext` |
| RepoUtils.ParseFile | zoo/repos/utils.py:63-81 | `_parse_file` returns the specification. One of the ten listed exceptions gives None. Any other exception propagates |
| RepoUtils.Definition | zoo/repos/utils.py:84-159 | a listed download error returns `[]` without touching the cache; any other download error propagates; every spec returned is truthy |
| RepoUtils.CacheHitParsesNothing | zoo/repos/utils.py:121-137 | a cache hit never parses and never writes. The invalid marker adds nothing; otherwise the cached JSON is loaded and appended |
| RepoUtils.CacheMissParsesAndStores | zoo/repos/utils.py:139-148 | a miss parses the file and appends the result. It stores the dumped spec (or the invalid marker for a falsy one) for about a year, and changes no other key |
| RepoUtils.ScanOrder | zoo/repos/utils.py:110-111 | the scan runs the json glob, then yml, then yaml |
| RepoUtils.AllExcludedScansNothing | zoo/repos/utils.py:110-116 | when every file is excluded the result is `[]`, the cache is unchanged and nothing is parsed |
| RepoUtils.ScanOne | zoo/repos/utils.py:112-153 | one file computes `ScanFile`: an excluded path is skipped, a hit appends the loaded cached document unless it is the marker, a miss parses the file and stores its JSON (or the marker) with the fingerprint's expiry |
| RepoUtils.ScanAll | zoo/repos/utils.py:110-153 | the json, yml and yaml globs in turn compute `ScanExtensions`, with an exception ending the whole scan |
| RepoUtils.ScanPaths | zoo/repos/utils.py:111-153 | the loop over one glob computes `ScanFiles`, updating the Redis store in place and stopping at the first exception |
| RepoUtils.OpenapiDefinition | zoo/repos/utils.py:84-159 | the whole call computes `Definition`: its result, the cache it leaves and the paths it parsed |
| RepoUtils.ScanFilesStable | zoo/repos/utils.py:139-148 | a scan writes only keys that missed, so every non-empty cached entry survives unchanged |
| RepoUtils.RescanIsCached | zoo/repos/utils.py:128-130 | a second call on the same files with the cache the first left parses nothing, writes nothing, and returns the same specs (given that `loads(dumps(spec)) == spec`) |
| RepoUtils.ScmModule | zoo/repos/utils.py:27-33 | for a provider name (non-empty, no leading dot, as every `Provider` value is), the lookup fails with `TypeError` iff the parent package is empty (no dot, or a single leading dot); otherwise it names `<parent package>.<provider>` |
| RepoUtils.ScmModuleIsSibling | zoo/repos/utils.py:27-33 | for `package.leaf` with a non-empty package the provider module is `package.provider`, a sibling of `zoo.repos.utils` |
| RepoUtils.ScmModuleNeedsPackage | zoo/repos/utils.py:27-33 | a top-level module name, with or without a leading dot, has an empty package, so the relative import raises `TypeError` |

## Left out

- Slack message text: a message is its channel, title, repository name and report link, not the formatted string.
- Structured logging: only the `auditing.check.error` and `auditing.update_issue.slack_error` events are modelled; the debug and info events of `openapi_definition` are not.
- `full_clean()` validation on save (runner and `wontfix_issue`) is not modelled. The model has no invalid statuses or detail shapes.
- Whether a soft-deleted row should come back to life when its key is produced again is left open by the component's design. The model keeps `deleted` as is.
- Concurrency: runs, saves and page views are sequential; no two runs interleave.
- Django plumbing: request parsing, `is_ajax`, JSON responses, templates, `reverse`/`build_absolute_uri` (a route value stands in for the URL), the `force` re-pull in `AuditReport.get`, `IssuePatch` and `open_git_issue`.
- The Celery task queue: `bulk_create_git_issues.delay` is modelled as the list of tasks it receives.
- `AuditViews.AvailableFilters`: the source returns a list, all owners first, then all namespaces, then all statuses, each group in the unspecified iteration order of a Python set. The model returns a set, so it keeps neither the order within a group nor the owner-namespace-status order of the groups; `PartitionOfAvailable` holds for any listing order.
- `RepoUtils.Redis.Set`: the expiry is recorded with the value but never enforced; entries do not expire in the model.
- `RepoUtils.ParseFile`: prance, the YAML parser, JSON `dumps`/`loads` and MD5 are parameters (`Toolkit`). Exceptions are compared by class name; subclass matching is not modelled.
- `RepoUtils.Glob`: `Path.glob("**/*.ext")` is the checkout's file list filtered by suffix, in the list's order; the filesystem's walk order is not modelled.
- `RepoUtils.OpenapiDefinition`: the download (`download_repository`, the temporary directory and `shutil.rmtree`) is a `Checkout` value, and reading a file is its `content`. Decoding errors of `read_text` are not modelled. The leaked temporary directory when an exception escapes the scan is not modelled.
- `RepoUtils.ScmModule`: `importlib.import_module` is modelled as the module name it resolves; loading the module is not modelled. Providers that are empty or start with a dot, which relative imports resolve differently and no `Provider` value is, are excluded by its precondition.
- JSON numbers are integers; floating point is not modelled.

## Findings

| source | as written | input that shows it | evidently intended | confidence | as-written member | corrected member |
|---|---|---|---|---|---|---|
| zoo/auditing/views.py:171 | `project.repository.issues.filter(deleted=True)` runs even when `project.repository` is None, which the loop at line 155 guards against | a Service with slugs ("acme", "shop") and no repository, requested as `/services/acme/shop` | a project without a repository gets a report with no issues | not executed | AuditViews.ReportAsWritten | AuditViews.GuardedReport |
