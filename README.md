# Jira Cloud component provider — a Dafny model

This project models the decision logic of a small infrastructure-as-code
provider for Jira Cloud that manages project *components*:

- **Name-to-ID resolution.** The remote API cannot fetch a component by
  name. So the resource's Read and Update, and the data source's Read, list
  the project's components and scan them for the first entry whose name
  equals the requested one exactly. "Not found" is decided by the found
  entry's ID being empty. The scan is written once, as the loop method
  `Resolution.FindComponentByName`. It is proved equal to the recursive
  `Resolution.FirstNamed`, and all three handlers call it.
- **Lifecycle handlers.** These are the resource's Create, Read, Update and
  Delete and the data source's Read. Each is a method that appends
  diagnostics step by step and issues remote calls in order. Each is proved
  equal to a specification function (`CreateOutcome`, `ReadOutcome`,
  `UpdateOutcome`, `DeleteOutcome`, `LookupOutcome`).
  - The Jira client is a value of type `Jira.Client`: one total function per
    remote call, from the call's arguments to a success value or an error
    text. Every property therefore holds for every answer the service could
    give.
  - Each handler returns three things: the diagnostics it added, the state
    record it wrote (`None` when it wrote none), and the trace of client
    calls it issued.
  - The trace is kept by each handler: it appends the call's `Jira.Call`
    entry right before it applies the matching client function. The model
    does not force that pairing by construction.
- **Provider configuration.** `Provider.Configure` works on tri-state
  settings (null, unknown, known). It checks for unknown settings, then
  resolves the effective values (an explicit value beats the environment),
  then checks for missing values, and builds a client only when no error was
  added. It is proved equal to `Provider.ConfigureOutcome`. The three
  environment variables are an input record.

Modules: `Framework` (string values and diagnostics), `Jira` (client records
and the call trace), `Resolution`, `ComponentResource`,
`ComponentDataSource` and `Provider`, one file each.

Some behaviour of the code is easy to misread; the model follows the code as written:

- Create writes the assignee type that the create response echoes. It does
  not write a fixed `PROJECT_DEFAULT`. The default is applied to the plan
  and so to the request (`CreateSendsDefaultAssignee`). The state holds
  `PROJECT_DEFAULT` only if the service echoes it.
- Read and Update build their state record without Project and
  AssigneeType. The framework's zero string value is *null*, not the empty
  string, so these two fields are `Null` in the model.
  `ReadAfterRefreshUsesEmptyKey` shows a consequence: the Read after such a
  state fetches the project with the empty key.
- The error labels are the code's own ("Failed to read ABC project",
  "Failed to find component", "Failed to read component", "Failed to update
  component", "Failed to create component", "Delete Not Implemented").
- Create does not reject an empty project or name. It sends whatever the
  plan holds, so the model has no precondition there.
- Update resolves the component by the planned name, not by the name in
  the prior state. Renaming a component therefore always ends in "Failed to
  find component" unless a component with the new name already exists
  (`UpdateRenameNotFound`).

## Model

| member | source | states |
|---|---|---|
| `Resolution.FirstNamed` | internal/provider/component_resource.go:239-245 | the resolved entry is the zero component or a listed component, and any non-zero result carries the requested name |
| `Resolution.FindComponentByName` | internal/provider/component_resource.go:162-168 | the loop that breaks on the first exact name match returns exactly the first-match result, the zero component when nothing matches |
| `Resolution.FirstNamedIsFirstMatch` | internal/provider/component_resource.go:239-245 | the chosen entry is the one at the least index whose name matches exactly |
| `Resolution.FirstNamedWithoutMatch` | internal/provider/component_resource.go:239-247 | with no matching name the scan yields the zero component, whose ID is empty |
| `Resolution.LaterEntriesIgnored` | internal/provider/component_data_source.go:105-111 | entries after a match, duplicates included, never change which entry is chosen |
| `Resolution.NotResolvedIff` | internal/provider/component_resource.go:239-253 | the result has an empty ID iff no entry has the name or the first matching entry has an empty ID |
| `Resolution.MatchIsCaseSensitive` | internal/provider/component_resource.go:241 | a component named "Foo" is not found by a lookup for "foo" |
| `Resolution.SecondOfTwoFound` | internal/provider/component_data_source.go:105-111 | of two components named Comp1 and Comp2, a lookup of Comp2 yields the second |
| `ComponentResource.PlannedAssigneeType` | internal/provider/component_resource.go:84-89 | an unset (null) assignee_type is planned as PROJECT_DEFAULT, a member of the documented enumeration; any other configured value is kept as it is |
| `ComponentResource.CreateOutcome` | internal/provider/component_resource.go:100-140 | Create issues exactly one call, the create with the plan's five fields; state is written iff no error was added |
| `ComponentResource.ReadOutcome` | internal/provider/component_resource.go:219-277 | Read always starts with the project fetch; state is written iff no error was added, and at most one error is added |
| `ComponentResource.UpdateOutcome` | internal/provider/component_resource.go:142-217 | Update always starts with the project fetch; state is written iff no error was added, and at most one error is added |
| `ComponentResource.DeleteOutcome` | internal/provider/component_resource.go:279-281 | Delete issues no call and adds exactly the one "Delete Not Implemented" error |
| `ComponentResource.Create` | internal/provider/component_resource.go:100-140 | the handler's diagnostics, state and call trace are those of CreateOutcome |
| `ComponentResource.Read` | internal/provider/component_resource.go:219-277 | the handler, with its first-match loop, has the diagnostics, state and call trace of ReadOutcome |
| `ComponentResource.Update` | internal/provider/component_resource.go:142-217 | the handler, with its first-match loop and low-level PUT, has the diagnostics, state and call trace of UpdateOutcome |
| `ComponentResource.Delete` | internal/provider/component_resource.go:279-281 | for every client and state the handler matches DeleteOutcome: no call, one error, no state |
| `ComponentResource.ReadProjectErrorAborts` | internal/provider/component_resource.go:229-237 | a project-fetch error stops Read after that single call, with "Failed to read <key> project" and no state |
| `ComponentResource.ReadNotFound` | internal/provider/component_resource.go:247-253 | no matching name, or a first match with an empty ID, gives "Failed to find component", no component fetch, no state |
| `ComponentResource.ReadFetchesFirstMatch` | internal/provider/component_resource.go:239-269 | Read fetches by the ID of the first listed match and, iff that fetch succeeds, writes its name, description and lead with null project and assignee type |
| `ComponentResource.ReadSuccessFields` | internal/provider/component_resource.go:265-269 | after a successful Read, name, description and lead are the fetched component's and project and assignee type are null |
| `ComponentResource.UpdatePutsPlanToResolvedEndpoint` | internal/provider/component_resource.go:178-187 | the request built is a PUT of the plan's five fields, unchanged, to rest/api/3/component/<ID of the first match> |
| `ComponentResource.UpdateStateFromResponse` | internal/provider/component_resource.go:197-212 | after a successful Update, the state is name, description and lead of the response to the PUT actually sent, with project and assignee type null |
| `ComponentResource.UpdateSendFailures` | internal/provider/component_resource.go:186-206 | an error building the request or in Do gives one "Failed to update component" error and no state |
| `ComponentResource.UpdateResolutionFailures` | internal/provider/component_resource.go:152-176 | when resolution fails, Update issues only the project fetch, writes no state and reports what Read reports |
| `ComponentResource.UpdateRenameNotFound` | internal/provider/component_resource.go:162-176 | Update resolves by the planned name: with the prior name still resolvable (Read of the prior state fetches it) and no component carrying the new name, a rename yields only "Failed to find component", no state and only the project fetch |
| `ComponentResource.CreateCopiesResponse` | internal/provider/component_resource.go:118-134 | a successful create writes all five fields from the response; a client error gives "Failed to create component" and no state |
| `ComponentResource.CreateSendsDefaultAssignee` | internal/provider/component_resource.go:84-116 | with assignee_type unset, the create request carries PROJECT_DEFAULT |
| `ComponentResource.CreateThenRead` | internal/provider/component_resource.go:255-269 | if the service lists the created component's name and ID first among those of its name, and the fetch by that ID returns the same name, description and lead, Read after Create writes the same name, description and lead |
| `ComponentResource.ReadAfterRefreshUsesEmptyKey` | internal/provider/component_resource.go:265-269 | a state written by Read has a null project, so the next Read fetches the project with the empty key |
| `ComponentDataSource.LookupOutcome` | internal/provider/component_data_source.go:86-144 | the lookup always starts with the project fetch; output is written iff no error was added, and at most one error is added |
| `ComponentDataSource.Read` | internal/provider/component_data_source.go:86-144 | the handler, with its first-match loop, has the diagnostics, output and call trace of LookupOutcome |
| `ComponentDataSource.FetchErrorsAbort` | internal/provider/component_data_source.go:95-129 | a project-fetch or component-fetch error stops the lookup with its own error and no output |
| `ComponentDataSource.LookupNotFound` | internal/provider/component_data_source.go:113-119 | no matching name, or a first match with an empty ID, gives "Failed to find component", no component fetch, no output |
| `ComponentDataSource.LookupOutput` | internal/provider/component_data_source.go:131-136 | after a successful lookup, project is the fetched project's key and name, description and lead are those of the first match's fetch |
| `ComponentDataSource.SameResolutionAsResource` | internal/provider/component_data_source.go:95-129 | for the same project and name, the lookup issues the same calls and reports the same errors as the resource's Read |
| `ComponentDataSource.LookupSecondOfTwo` | internal/provider/component_data_source.go:105-136 | looking up Comp2 under ABC, where Comp1 and Comp2 are listed, outputs the second component's detail |
| `Provider.ConfigureOutcome` | internal/provider/provider.go:63-175 | a client is handed out iff no error was added, and the same client goes to DataSourceData and ResourceData |
| `Provider.Configure` | internal/provider/provider.go:63-175 | the handler's diagnostics, client construction and handed-out clients are those of ConfigureOutcome |
| `Provider.EachUnknownReported` | internal/provider/provider.go:72-102 | each unknown setting adds its own attribute error, and only unknown settings add one |
| `Provider.UnknownAbortsBeforeEnvironment` | internal/provider/provider.go:72-110 | any unknown setting fails with exactly the unknown errors, builds no client, and the outcome is the same for every environment |
| `Provider.ExplicitOverridesEnvironment` | internal/provider/provider.go:108-122 | a non-null configured value wins over the environment variable; a null one falls back to it |
| `Provider.ExplicitEmptyHostIsMissing` | internal/provider/provider.go:112-132 | an explicitly empty host does not fall back to JIRA_URL: the first error is "Missing Jira Cloud host" and no client is built |
| `Provider.ExplicitEmptyUserEmailIsMissing` | internal/provider/provider.go:116-150 | an explicitly empty user email does not fall back to JIRA_USER_EMAIL: the last error is "Missing Jira Cloud user email" and no client is built |
| `Provider.ExplicitEmptyApiTokenIsMissing` | internal/provider/provider.go:120-141 | an explicitly empty API token does not fall back to JIRA_TOKEN: "Missing Jira Cloud API token" is reported and no client is built |
| `Provider.AllMissingInOrder` | internal/provider/provider.go:124-150 | with nothing configured and nothing in the environment, all three missing errors are added, in the order host, api_token, user_email |
| `Provider.MissingErrorsExact` | internal/provider/provider.go:124-150 | a missing error appears iff its field is empty, and it is attached to that field's attribute |
| `Provider.MissingErrorsAccumulate` | internal/provider/provider.go:124-156 | with no unknown setting and some effective value empty, Configure's diagnostics are exactly the missing errors of the effective values, all checks run, in the order host, api_token, user_email, and no client is requested |
| `Provider.ClientOnlyWithoutErrors` | internal/provider/provider.go:152-174 | a client is requested iff no unknown or missing error was added, and with the effective host, user email and token; the client built goes to both consumers |
| `Provider.EnvironmentAloneSuffices` | internal/provider/provider.go:108-174 | all three settings from the environment alone give no error and hand the built client to both consumers |

## Left out

- The framework's decoding and encoding of state: `req.Plan.Get`, `req.State.Get`, `req.Config.Get` and `resp.State.Set`. The handlers start from the decoded record, and writing state is assumed to add no diagnostics.
- `ImportState`: hands the import ID to the framework for an `id` attribute, which the schema does not declare, so nothing is bound; this is framework behaviour and is not modelled.
- `Metadata` and the schema declarations, apart from the `assignee_type` default (`PlannedAssigneeType`). The framework's application of that default is modelled only as the function from configured to planned value.
- The assignee-type enumeration is documented in the schema but not enforced by the code. The model does not enforce it either.
- The resource's and data source's own `Configure`: a Go type assertion on the provider data.
- The go-jira client (HTTP transport, basic authentication, JSON encoding, URL resolution in `NewRequest`). Each call is an arbitrary function from its arguments to a result, and the client's identity after construction is an opaque handle.
- `os.Getenv`: the three variables are an input, "" when unset.
- `tflog.Trace` logging and `context.Background()`: no effect on outcomes.
- The `%q` escaping of `String()` in the "Failed to find component" detail. The model wraps the name in double quotes without escaping characters inside it.
- Warning diagnostics: every diagnostic these handlers add is an error, so "has an error" is modelled as "has a diagnostic".
- Concurrency: the host runs handlers for different resource instances concurrently, and no handler shares mutable state.
