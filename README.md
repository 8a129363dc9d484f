# CloudTruth maintenance scripts, modelled in Dafny

This project models the rules inside a handful of CloudTruth maintenance and
test scripts. Each remote answer is an input: a map from URL to record, or a
given list of records. Each request the scripts would send is appended to a
trace, and each `exit` becomes a failure value.

| module | file | script under it |
|---|---|---|
| `Wrappers` | `wrappers.dfy` | `Option` and `Result` |
| `Text` | `text.dfy` | substring search, `rstrip`, ASCII `upper`, integer rendering |
| `ProjectTree` | `project_tree.dfy` | `repro/common/helpers.py` |
| `ProjectRefs` | `project_refs.dfy` | `get-project-refs.py` |
| `TrailingSlash` | `trailing_slash.dfy` | `python/cloudtruth_testing/test_trailing_slash_updates.py` |
| `TestingBase` | `testing_base.dfy` | `python/cloudtruth_testing/base.py` |
| `DeleteIntegrations` | `delete_integrations.dfy` | `delete_integrations.py` |

## What each module models

- **Project tree (`ProjectTree`).**
  - `get_project_tree_projects` threads one accumulator list through its
    recursion. Here that is the method `CollectDependents`, proved equal to a
    pure pre-order walk, `WalkUrl`/`Children`.
  - A child that is not in the fetch map is a failure: `make_request` would
    exit on it.
  - Termination rests on a rank function that strictly decreases from a
    project to each dependent (`Ranked`). A dependents graph without one has
    a cycle, and the script itself would not terminate on it.
  - `delete_project` becomes `DeleteProject`. It produces the delete plan
    for the reversed tree list: with `force`, a parameter deletion comes just
    before each project.
- **Parameter references (`ProjectRefs`).**
  - JSON is the datatype `Json`; object fields keep document order.
  - `extract` becomes the mutually recursive `Extract`/`ScanFields`/`ScanItems`.
    These carry the per-call `environment` variable, which is `None` while
    unassigned.
  - Python treats `environment` as a local of the nested function, because
    that function assigns it. Reading it before `environment_name` is seen in
    the same object therefore raises, and the model returns
    `Failure(EnvironmentUnbound)`.
  - `main` is the method `GetProjectRefs`. It yields the requests sent, the
    lines printed, and whether the run ended in an uncaught error.
- **Trailing-slash test (`TrailingSlash`).**
  - `get_endpoint_path` takes the parsed path and query as inputs.
  - `test_update` is the method `TestUpdate`. It yields the read, update,
    re-read trace and the report.
  - The four updates of `main` are the method `RunSchedule`.
- **Testing base (`TestingBase`).**
  - The resolution part of `load_api_config` is the method `LoadApiConfig`.
    It reassigns the key and URL step by step, and is proved equal to the
    specification `ResolveApiConfig`.
  - `get_id_by_name`, `ensure_template_exists` and `ensure_project_exists` are
    methods over the listings they read. `ensure_template_exists` also
    returns its request trace.
- **Integration deletion (`DeleteIntegrations`).**
  - `main` is the method `DeleteIntegrationsMain`, with helper methods for
    the services loop, the integrations loop, and the pull and push deletes.
  - It is proved equal to the specification `DeleteRun`, which yields the
    request trace and an `Outcome` for the way the run ends.
  - An option not given on the command line is the empty string.

## Model

| member | source | states |
|---|---|---|
| ProjectTree.GetObjectByName | repro/common/helpers.py:68-75 | None exactly when no object has the name; otherwise the object at the first position whose name is equal |
| ProjectTree.GetAllTopLevelProjects | repro/common/helpers.py:144-152 | the loop builds exactly the filtered list `TopLevel` of the listing |
| ProjectTree.TopLevelExactly | repro/common/helpers.py:109-121 | a project is kept iff it is listed and has no non-empty `depends_on`; every parentless project keeps its multiplicity and every project with a parent is dropped |
| ProjectTree.CreateBodiesLinkParent | repro/common/helpers.py:88-96 | the project body sends the name and `depends_on` = the parent's url or ""; the environment body the same with `parent` (lines 186-194); a created project has a parent iff one with a non-empty url was given |
| ProjectTree.TreeProjects | repro/common/helpers.py:123-129 | None iff the project is None; a successful walk starts with the given project |
| ProjectTree.ChildStep | repro/common/helpers.py:130-140 | one iteration over a dependents URL: a missing child fails; otherwise the child is appended before its own subtree, and a failure inside the subtree ends the walk |
| ProjectTree.CollectDependents | repro/common/helpers.py:130-142 | the accumulator after the in-place recursion is the given list followed by the pre-order walk of the dependents, or the walk's failure |
| ProjectTree.GetProjectTreeProjects | repro/common/helpers.py:123-142 | equals the pure walk `TreeProjects` |
| ProjectTree.TreeIsPreOrder | repro/common/helpers.py:123-140 | the list starts with the root; every later element is a dependent of an earlier one; every dependent of an element is listed after it |
| ProjectTree.LeafTree | repro/common/helpers.py:109-114 | the list is the project alone iff its `dependents` list is empty |
| ProjectTree.SharedChildListedTwice | repro/common/helpers.py:132-140 | a child shared by two parents appears twice: there is no de-duplication |
| ProjectTree.DescendantsLater | repro/common/helpers.py:130-140 | every descendant of an element, reached by any dependents path, is listed after that element |
| ProjectTree.DeletionPlanShape | repro/common/helpers.py:103-107 | the plan walks the list in reverse; with force each project's parameter deletion comes just before it and objects sit at odd slots; without force there are only object deletions |
| ProjectTree.DeleteProject | repro/common/helpers.py:100-107 | a failed walk is the failure; otherwise the deletion plan of the walked tree |
| ProjectTree.DescendantsDeletedFirst | repro/common/helpers.py:100-107 | every descendant of a deleted project is deleted at an earlier step |
| ProjectTree.RootDeletedLast | repro/common/helpers.py:100-107 | the last step deletes the given root |
| ProjectRefs.Extract | get-project-refs.py:28-41 | the recursive walk: objects in field order, lists in item order, containers always descended into |
| ProjectRefs.ScanMatchesReference | get-project-refs.py:30-37 | the forward scan with its running environment equals a reference that takes, for each value, the last `environment_name` scalar earlier in the same object, and fails where there is none |
| ProjectRefs.EnvironmentFromEarlierSibling | get-project-refs.py:26-37 | extraction from an object is that per-field reference, starting unbound |
| ProjectRefs.OuterEnvironmentNotInherited | get-project-refs.py:33-37 | an outer object's environment does not flow into a nested object: the nested value fails as unbound |
| ProjectRefs.InnerEnvironmentNotExported | get-project-refs.py:33-37 | an environment set inside a nested object does not flow back out |
| ProjectRefs.ExtractReportsLeaves | get-project-refs.py:31-37 | on success the reported values are exactly the non-null scalars under the key, in document order, each with a scalar environment |
| ProjectRefs.EnvironmentKeyNeverReported | get-project-refs.py:33-35 | searching for `environment_name` itself never reports anything, since that branch is taken first |
| ProjectRefs.ListHitsInDocumentOrder | get-project-refs.py:25-44 | the hits of a concatenated list are the hits of the first part followed by those of the second |
| ProjectRefs.FormatHitsShape | get-project-refs.py:37 | one line per hit; each starts with `project, ` and ends with `, ` and the value as Python prints it |
| ProjectRefs.ExtractValues | get-project-refs.py:24-44 | succeeds iff the walk does; one line per keyed non-null scalar, in order, each `project, …, value` |
| ProjectRefs.PrintMatches | get-project-refs.py:73-75 | the loop prints `matched value: ` before each value that contains the match string, in order |
| ProjectRefs.MatchedLinesContain | get-project-refs.py:73-75 | every printed line is a value containing the match string; when all do, all are printed |
| ProjectRefs.ContainingValuesPrinted | get-project-refs.py:73-75 | conversely, every value that contains the match string is printed |
| ProjectRefs.MatchedLinesConcat | get-project-refs.py:73-75 | the lines printed for two runs of values are those of the first followed by those of the second: values are printed in their order |
| ProjectRefs.VisitProject | get-project-refs.py:64-75 | one project: skipped when its name equals the match string; a non-200 parameters response prints nothing; a failed extraction ends the run |
| ProjectRefs.GetProjectRefs | get-project-refs.py:47-75 | the loop's requests, printed lines and crash flag equal `RefsRun` |
| ProjectRefs.PrintedLinesMatch | get-project-refs.py:72-75 | every line printed over all projects is a matched value |
| ProjectRefs.ContainingLinePrinted | get-project-refs.py:64-75 | conversely, a value containing the match string, extracted from a visited project (name not the match string, 200 response, successful extraction) that no earlier project crashed before, is printed in the run |
| ProjectRefs.MatcherProjectSkipped | get-project-refs.py:64-70 | every parameters request is for a listed project whose name differs from the match string |
| ProjectRefs.ProjectNameMatchPrintsAll | get-project-refs.py:72-75 | when the match string occurs in the project name, every extracted line of that project is printed |
| ProjectRefs.ProjectsRunConcat | get-project-refs.py:64-75 | the run over concatenated project lists is the run over the first followed by the run over the second |
| TrailingSlash.QuerySuffix | python/cloudtruth_testing/test_trailing_slash_updates.py:34-35 | empty iff the query is; otherwise `?` followed by the query |
| TrailingSlash.GetEndpointPath | python/cloudtruth_testing/test_trailing_slash_updates.py:28-35 | without `/v1/`, the whole path; otherwise the path after the first occurrence of `/v1/`; then the query suffix |
| TrailingSlash.EndpointIsPathTail | python/cloudtruth_testing/test_trailing_slash_updates.py:31-35 | the endpoint is always a tail of the path plus the query suffix |
| TrailingSlash.QueryMarkedIffPresent | python/cloudtruth_testing/test_trailing_slash_updates.py:34-35 | for a path without `?`, the endpoint contains `?` iff the query is non-empty |
| TrailingSlash.TemplateEndpointExample | python/cloudtruth_testing/test_trailing_slash_updates.py:31-34 | `/api/v1/t/` with no query gives `t/` |
| TrailingSlash.TemplateBody | python/cloudtruth_testing/base.py:66-70 | the body is read only from a 200 response |
| TrailingSlash.PayloadFor | python/cloudtruth_testing/test_trailing_slash_updates.py:38-40 | the payload starts with the new `body`; it has a `name` key iff the method is PUT, and that key holds the template's name |
| TrailingSlash.TestUpdate | python/cloudtruth_testing/test_trailing_slash_updates.py:37-71 | PATCH sends exactly `{body}` and PUT `{body, name}`; a dry run only reads; otherwise read, update, re-read; success iff 2xx; body check iff the re-read body equals the new body |
| TrailingSlash.ScheduleOrder | python/cloudtruth_testing/test_trailing_slash_updates.py:87-102 | PATCH no-slash, PATCH slash, PUT no-slash, PUT slash; the no-slash URL is the slash URL with trailing `/` removed |
| TrailingSlash.ScheduleBodiesDistinct | python/cloudtruth_testing/test_trailing_slash_updates.py:93-102 | the four new bodies are pairwise different |
| TrailingSlash.DryRunSendsNoUpdate | python/cloudtruth_testing/test_trailing_slash_updates.py:45-49 | a dry run sends one read per case and no update |
| TrailingSlash.ScheduleCallsLayout | python/cloudtruth_testing/test_trailing_slash_updates.py:93-102 | without dry run each case contributes its own three calls, in schedule order |
| TrailingSlash.RunCases | python/cloudtruth_testing/test_trailing_slash_updates.py:93-102 | the calls of the cases in order; each report says dry run iff the run is dry, and success and body check per case |
| TrailingSlash.RunSchedule | python/cloudtruth_testing/test_trailing_slash_updates.py:73-102 | the four updates of `main` against the template URL, in schedule order |
| TestingBase.Or | python/cloudtruth_testing/base.py:39-40 | `a or b`: a when it is truthy, else b |
| TestingBase.LoadApiConfig | python/cloudtruth_testing/base.py:32-46 | the step-by-step reassignments equal `ResolveApiConfig` |
| TestingBase.SourceProfileOnlyWhenNeeded | python/cloudtruth_testing/base.py:37-40 | with a usable key and URL the source profile is not consulted |
| TestingBase.NoChaining | python/cloudtruth_testing/base.py:37-40 | changing any profile other than the requested one and its source leaves the result unchanged: one level, no chaining |
| TestingBase.NullKeyRejected | python/cloudtruth_testing/base.py:39-43 | a present `"null"` key is kept by the fallback and then rejected |
| TestingBase.UnknownProfileRejected | python/cloudtruth_testing/base.py:32-34 | an unknown profile is an empty one and fails for its missing key |
| TestingBase.FallbackFillsOnlyFalsy | python/cloudtruth_testing/base.py:39 | a truthy key of the profile is the key returned |
| TestingBase.ApiUrlShape | python/cloudtruth_testing/base.py:44-46 | the URL is the base (or the default) with every trailing `/` removed, then `/api/v1` |
| TestingBase.DefaultApiUrl | python/cloudtruth_testing/base.py:44-46 | a missing or `"null"` URL gives `https://api.cloudtruth.io/api/v1` |
| TestingBase.FindIdFirstMatch | python/cloudtruth_testing/base.py:61-64 | None iff no item has the name; otherwise the id of the first item with that exact name |
| TestingBase.GetIdByName | python/cloudtruth_testing/base.py:55-64 | a non-200 listing exits; otherwise the first-match loop returns `FindId` |
| TestingBase.EnsureTemplateExists | python/cloudtruth_testing/base.py:75-94 | a found id is returned with no POST; otherwise POST `{name, body: "initial body"}`; a non-2xx create, a failed re-listing or a still-missing id exit; the result is a non-empty listed id |
| TestingBase.EnsureProjectExists | python/cloudtruth_testing/base.py:96-102 | succeeds iff the listing is 200 and holds the name with a non-empty id, which is the first match; otherwise the failing listing or "not found" |
| DeleteIntegrations.Tag | delete_integrations.py:139-145 | each listed result becomes an integration record with the service path, in listing order |
| DeleteIntegrations.TagResults | delete_integrations.py:139-145 | the append loop over one listing's results builds exactly `Tag` |
| DeleteIntegrations.ListIntegrations | delete_integrations.py:120-147 | the services loop equals `ListPhase`: the chosen service, or all three; an HTTP error ends it |
| DeleteIntegrations.ListingRequestsInOrder | delete_integrations.py:123-137 | only the named service is queried, else azure (as `azure/key_vault`), aws and github in that order |
| DeleteIntegrations.ListFailureIsListing | delete_integrations.py:134-147 | the services loop stops only on a failed listing |
| DeleteIntegrations.ValidationBeforeAnyRequest | delete_integrations.py:95-108 | no request is sent iff the key is missing or the service is invalid; otherwise the first request reads the current user from the stage's base URL |
| DeleteIntegrations.DeniedRoleStops | delete_integrations.py:106-116 | an upper-cased VIEWER or CONTRIB role exits after the user lookup, before any listing |
| DeleteIntegrations.NothingDeletedBeforeIntegrationsLoop | delete_integrations.py:92-156 | every exit before the integrations loop, the dry run included, has sent no delete |
| DeleteIntegrations.DryRunDeletesNothing | delete_integrations.py:149-156 | a dry run deletes nothing and reports a non-zero count when it lists |
| DeleteIntegrations.DeleteIntegrationPull | delete_integrations.py:71-80 | an `ExternalValues` pull sends nothing; any other pull one delete, whose error is ignored |
| DeleteIntegrations.DeleteIntegrationPush | delete_integrations.py:83-90 | every push sends one delete, whose error is ignored |
| DeleteIntegrations.KeptPullsExactly | delete_integrations.py:71-80 | the kept pulls are exactly the listed pulls not named `ExternalValues`, each with its listed multiplicity; an `ExternalValues` pull is never kept |
| DeleteIntegrations.PullDeletesSkipExternalValues | delete_integrations.py:180-182 | the pull deletes are one per kept pull, in listing order, each for that pull's URL |
| DeleteIntegrations.PushDeletesAll | delete_integrations.py:183-185 | one delete per push, in order |
| DeleteIntegrations.DeletePulls | delete_integrations.py:180-182 | the loop over pulls sends `PullDeletes` |
| DeleteIntegrations.DeletePushes | delete_integrations.py:183-185 | the loop over pushes sends `PushDeletes` |
| DeleteIntegrations.DeleteIntegration | delete_integrations.py:158-192 | one iteration equals `IntegrationStep` |
| DeleteIntegrations.IntegrationDeleteOrder | delete_integrations.py:158-192 | exactly: the two listings, then one delete per kept pull in order, then one per push in order, then the integration; it completes iff that last delete is not an HTTP error |
| DeleteIntegrations.KeptPullDeleted | delete_integrations.py:180-182 | every listed pull not named `ExternalValues` of a forced integration is deleted, inside the pull region of its trace |
| DeleteIntegrations.ActionsNeedForce | delete_integrations.py:176-178 | without force an integration with any pull or push aborts with no delete |
| DeleteIntegrations.DeleteAbortSticks | delete_integrations.py:158-192 | once an integration fails to complete, later integrations are not touched |
| DeleteIntegrations.FirstWithActionsAborts | delete_integrations.py:158-178 | without force the first integration with actions aborts the run, and exactly the integrations before it stay deleted |
| DeleteIntegrations.WithoutForceOnlyIntegrations | delete_integrations.py:158-192 | without force every delete sent is of a listed integration |
| DeleteIntegrations.DeleteAll | delete_integrations.py:158-192 | the integrations loop equals `DeletePhase` |
| DeleteIntegrations.DeleteIntegrationsMain | delete_integrations.py:92-192 | the whole run, step by step, equals `DeleteRun` |
| Text.Find | python/cloudtruth_testing/test_trailing_slash_updates.py:32 | `str.find`: -1 iff there is no occurrence, else the first one |
| Text.RStrip | python/cloudtruth_testing/base.py:46 | `rstrip(c)`: the longest prefix not ending in c, with only c removed |
| Text.Contains | get-project-refs.py:74 | `pat in s`: holds iff the pattern occurs at some position of the string |
| Text.Upper | delete_integrations.py:114 | `upper()` character by character |

## Left out

- HTTP transport: requests, headers, timeouts, connection failures, and the
  parsing of `.json()` bodies. Every response is an input, and a body that is
  not JSON is not modelled. `make_request`'s exit on a failed GET during the
  tree walk is modelled, as the walk's failure; its exit on a failed DELETE
  inside `delete_object` is not, so every planned deletion is listed.
- Config discovery and parsing: `get_profile_data`, `find_config_file` and
  YAML loading. The profiles map is an input.
- `urlparse`: `get_endpoint_path` receives the path and the query already
  split.
- `repro/ct_org_repro_init.py`, `python/main.py` and
  `python/cloudtruth_testing/logger.py`. These are drivers and logging with
  no rule of their own.
- Randomness: `random_body` is the parameter `randBody`.
- Console output: logging, `rich` and `tabulate` tables. Only the printed
  lines of `get-project-refs.py` are kept, because its filter decides them.
- `delete_project_parameters` and `delete_parameter`: both fail as written,
  so only their position in the delete plan is modelled.
- Cyclic dependents graphs: the walk requires a rank function, because the
  script does not terminate on a cycle.
- Python dict details: a profile or an item that is not a dict, a missing
  `dependents`, `id` or `results` key, and duplicate JSON keys.
- JSON floats: `Json` has only null, booleans, integers, strings, arrays and
  objects.
- `upper()` is ASCII only.
- Composition in the trailing-slash script: `main` calls `load_api_config`,
  `ensure_project_exists` and `ensure_template_exists` in turn. The model has
  each of them and `RunSchedule`, but does not chain them into one method.
- Pulls and pushes listings: their status is not modelled. The script prints
  a failed listing's error and uses the `results` of the response anyway.
- DeleteIntegrations.DeleteIntegrationsMain: a `role` that is absent from the
  user response is the outcome `RoleMissing`. In the script, `.upper()` on
  `None` raises.
- ProjectRefs.ExtractValues: its contract fixes each line's project prefix
  and value suffix. The environment in the middle of the line is fixed by
  `ScanMatchesReference` on the hits, not restated on the line.
