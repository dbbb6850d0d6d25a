/**
 The `component` resource: Create, Read, Update and Delete of one Jira
 project component. Each handler is a short pipeline of remote calls that
 stops at the first failure with one error diagnostic, and writes its state
 record only when every call succeeded. Each is a method proved equal to a
 specification function (CreateOutcome, ReadOutcome, UpdateOutcome,
 DeleteOutcome); the lemmas below state what those functions promise.
 */
module ComponentResource {
  import opened Framework
  import opened Jira
  import opened Resolution

  /** The resource's state record. */
  datatype ResourceModel = ResourceModel(
    project: TfString,
    name: TfString,
    description: TfString,
    assigneeType: TfString,
    lead: TfString)

  /** The schema's default for an unspecified `assignee_type`. */
  const DefaultAssigneeType := "PROJECT_DEFAULT"

  /** The values the schema documents for `assignee_type` (documented, not enforced). */
  const AssigneeTypes: set<string> := {"PROJECT_DEFAULT", "COMPONENT_LEAD", "PROJECT_LEAD", "UNASSIGNED"}

  /** The planned `assignee_type`: the configured value, or the schema default when it is null. */
  function PlannedAssigneeType(configured: TfString): (planned: TfString)
    ensures configured.Null? ==> planned == Known("PROJECT_DEFAULT") && planned.value in AssigneeTypes
    ensures !configured.Null? ==> planned == configured
  {
    if configured.Null? then Known(DefaultAssigneeType) else configured
  }

  /** The payload built from a plan: each of the five fields' string value, unchanged. */
  function OptionsFrom(plan: ResourceModel): ComponentOptions {
    ComponentOptions(
      plan.name.ValueString(),
      plan.description.ValueString(),
      plan.lead.ValueString(),
      plan.project.ValueString(),
      plan.assigneeType.ValueString())
  }

  /** The endpoint of the update PUT for the component with identifier `id`. */
  function ComponentEndpoint(id: string): string {
    "rest/api/3/component/" + id
  }

  /** After Create: all five fields from the create response. */
  function CreatedState(c: Component): ResourceModel {
    ResourceModel(Known(c.project), Known(c.name), Known(c.description), Known(c.assigneeType), Known(c.leadAccountId))
  }

  /** After Read or Update: name, description and lead from the response; project and assignee type left null. */
  function RefreshedState(c: Component): ResourceModel {
    ResourceModel(Null, Known(c.name), Known(c.description), Null, Known(c.leadAccountId))
  }

  function CreateFailed(name: string, e: string): Diagnostic {
    Error("Failed to create component",
      "An unexpected error occurred while creating a new component named " + name + "... " + "Jira Cloud client error: " + e)
  }

  const RequestFailedText :=
    "An unexpected error occurred while preparing a low level request to Jira API to update an existing project component... "

  function RequestFailed(e: string): Diagnostic {
    Error("Failed to update component", RequestFailedText + "Error: " + e)
  }

  function UpdateFailed(e: string): Diagnostic {
    Error("Failed to update component",
      "An unexpected error occurred while updating an existing project component... " + "Error: " + e)
  }

  const DeleteRejected := Error("Delete Not Implemented", "This resource does not support deletion.")

  // ----- specification functions -----

  function CreateOutcome(client: Client, plan: ResourceModel): (r: Outcome<ResourceModel>)
    ensures StateOnlyOnSuccess(r)
    ensures r.calls == [CreateComponent(OptionsFrom(plan))]
  {
    var options := OptionsFrom(plan);
    match client.createComponent(options)
    case Err(e) => Failed(CreateFailed(plan.name.ValueString(), e), [CreateComponent(options)])
    case Ok(c) => Outcome([], Some(CreatedState(c)), [CreateComponent(options)])
  }

  /**
   Whether the resolve steps Read and Update share fail for `model`: the
   project fetch fails, or the scan of its components yields no component
   with a non-empty ID.
   */
  predicate ResolutionFails(client: Client, model: ResourceModel) {
    var fetched := client.getProject(model.project.ValueString());
    fetched.Err? || !Resolved(FirstNamed(fetched.value.components, model.name.ValueString()))
  }

  function ReadOutcome(client: Client, prior: ResourceModel): (r: Outcome<ResourceModel>)
    ensures StateOnlyOnSuccess(r)
    ensures |r.calls| >= 1 && r.calls[0] == GetProject(prior.project.ValueString())
  {
    var key := prior.project.ValueString();
    var name := prior.name.ValueString();
    match client.getProject(key)
    case Err(e) => Failed(ProjectReadFailed(key, e), [GetProject(key)])
    case Ok(project) =>
      var simple := FirstNamed(project.components, name);
      if !Resolved(simple) then Failed(ComponentNotFound(prior.name), [GetProject(key)])
      else
        var calls := [GetProject(key), GetComponent(simple.id)];
        match client.getComponent(simple.id)
        case Err(e) => Failed(ComponentReadFailed(name, e), calls)
        case Ok(enriched) => Outcome([], Some(RefreshedState(enriched)), calls)
  }

  function UpdateOutcome(client: Client, plan: ResourceModel): (r: Outcome<ResourceModel>)
    ensures StateOnlyOnSuccess(r)
    ensures |r.calls| >= 1 && r.calls[0] == GetProject(plan.project.ValueString())
  {
    var key := plan.project.ValueString();
    match client.getProject(key)
    case Err(e) => Failed(ProjectReadFailed(key, e), [GetProject(key)])
    case Ok(project) =>
      var simple := FirstNamed(project.components, plan.name.ValueString());
      if !Resolved(simple) then Failed(ComponentNotFound(plan.name), [GetProject(key)])
      else
        var request := Request("PUT", ComponentEndpoint(simple.id), OptionsFrom(plan));
        match client.newRequest(request)
        case Some(e) => Failed(RequestFailed(e), [GetProject(key), NewRequest(request)])
        case None =>
          var calls := [GetProject(key), NewRequest(request), Do(request)];
          match client.send(request)
          case Err(e) => Failed(UpdateFailed(e), calls)
          case Ok(updated) => Outcome([], Some(RefreshedState(updated)), calls)
  }

  function DeleteOutcome(prior: ResourceModel): (r: Outcome<ResourceModel>)
    ensures StateOnlyOnSuccess(r)
    ensures r.calls == [] && r.diagnostics == [DeleteRejected]
  {
    Failed(DeleteRejected, [])
  }

  // ----- the handlers -----

  method Create(client: Client, plan: ResourceModel)
    returns (diagnostics: seq<Diagnostic>, state: Option<ResourceModel>, calls: seq<Call>)
    ensures Outcome(diagnostics, state, calls) == CreateOutcome(client, plan)
  {
    diagnostics, state, calls := [], None, [];
    var options := OptionsFrom(plan);
    calls := calls + [CreateComponent(options)];
    var created := client.createComponent(options);
    if created.Err? {
      diagnostics := diagnostics + [CreateFailed(plan.name.ValueString(), created.error)];
      return;
    }
    var newComponent := created.value;
    state := Some(CreatedState(newComponent));
  }

  method Read(client: Client, prior: ResourceModel)
    returns (diagnostics: seq<Diagnostic>, state: Option<ResourceModel>, calls: seq<Call>)
    ensures Outcome(diagnostics, state, calls) == ReadOutcome(client, prior)
  {
    diagnostics, state, calls := [], None, [];
    var key := prior.project.ValueString();
    calls := calls + [GetProject(key)];
    var fetched := client.getProject(key);
    if fetched.Err? {
      diagnostics := diagnostics + [ProjectReadFailed(key, fetched.error)];
      return;
    }
    var project := fetched.value;
    var simple := FindComponentByName(project.components, prior.name.ValueString());
    if simple.id == "" {
      diagnostics := diagnostics + [ComponentNotFound(prior.name)];
      return;
    }
    calls := calls + [GetComponent(simple.id)];
    var enriched := client.getComponent(simple.id);
    if enriched.Err? {
      diagnostics := diagnostics + [ComponentReadFailed(prior.name.ValueString(), enriched.error)];
      return;
    }
    state := Some(RefreshedState(enriched.value));
  }

  method Update(client: Client, plan: ResourceModel)
    returns (diagnostics: seq<Diagnostic>, state: Option<ResourceModel>, calls: seq<Call>)
    ensures Outcome(diagnostics, state, calls) == UpdateOutcome(client, plan)
  {
    diagnostics, state, calls := [], None, [];
    var key := plan.project.ValueString();
    calls := calls + [GetProject(key)];
    var fetched := client.getProject(key);
    if fetched.Err? {
      diagnostics := diagnostics + [ProjectReadFailed(key, fetched.error)];
      return;
    }
    var project := fetched.value;
    var simple := FindComponentByName(project.components, plan.name.ValueString());
    if simple.id == "" {
      diagnostics := diagnostics + [ComponentNotFound(plan.name)];
      return;
    }
    var options := OptionsFrom(plan);
    var request := Request("PUT", ComponentEndpoint(simple.id), options);
    calls := calls + [NewRequest(request)];
    var buildError := client.newRequest(request);
    if buildError.Some? {
      diagnostics := diagnostics + [RequestFailed(buildError.value)];
      return;
    }
    calls := calls + [Do(request)];
    var response := client.send(request);
    if response.Err? {
      diagnostics := diagnostics + [UpdateFailed(response.error)];
      return;
    }
    state := Some(RefreshedState(response.value));
  }

  method Delete(client: Client, prior: ResourceModel)
    returns (diagnostics: seq<Diagnostic>, state: Option<ResourceModel>, calls: seq<Call>)
    ensures Outcome(diagnostics, state, calls) == DeleteOutcome(prior)
  {
    diagnostics, state, calls := [DeleteRejected], None, [];
  }

  // ----- properties -----

  /** A project-fetch error stops Read before the scan and any component fetch; nothing is written. */
  lemma ReadProjectErrorAborts(client: Client, prior: ResourceModel)
    requires client.getProject(prior.project.ValueString()).Err?
    ensures var r := ReadOutcome(client, prior);
      && r.state == None
      && r.calls == [GetProject(prior.project.ValueString())]
      && r.diagnostics == [ProjectReadFailed(prior.project.ValueString(), client.getProject(prior.project.ValueString()).error)]
  {
  }

  /**
   When no component has the name, or the first that has it carries an empty
   ID, Read reports `Failed to find component`, fetches no component and
   writes nothing.
   */
  lemma ReadNotFound(client: Client, prior: ResourceModel, project: Project)
    requires client.getProject(prior.project.ValueString()) == Ok(project)
    requires
      || (forall j :: 0 <= j < |project.components| ==> project.components[j].name != prior.name.ValueString())
      || (exists i :: 0 <= i < |project.components| && project.components[i].name == prior.name.ValueString()
            && project.components[i].id == ""
            && forall j :: 0 <= j < i ==> project.components[j].name != prior.name.ValueString())
    ensures var r := ReadOutcome(client, prior);
      && r.state == None
      && r.calls == [GetProject(prior.project.ValueString())]
      && r.diagnostics == [ComponentNotFound(prior.name)]
  {
    NotResolvedIff(project.components, prior.name.ValueString());
  }

  /**
   Read fetches by the ID of the first listed component with the requested
   name, and on success writes name, description and lead from that fetch,
   leaving project and assignee type null.
   */
  lemma ReadFetchesFirstMatch(client: Client, prior: ResourceModel, project: Project, i: nat)
    requires client.getProject(prior.project.ValueString()) == Ok(project)
    requires i < |project.components| && project.components[i].name == prior.name.ValueString()
    requires forall j :: 0 <= j < i ==> project.components[j].name != prior.name.ValueString()
    requires project.components[i].id != ""
    ensures var r := ReadOutcome(client, prior);
      && r.calls == [GetProject(prior.project.ValueString()), GetComponent(project.components[i].id)]
      && (r.state.Some? <==> client.getComponent(project.components[i].id).Ok?)
      && (r.state.Some? ==>
            var c := client.getComponent(project.components[i].id).value;
            r.state.value == ResourceModel(Null, Known(c.name), Known(c.description), Null, Known(c.leadAccountId)))
  {
    FirstNamedIsFirstMatch(project.components, prior.name.ValueString(), i);
  }

  /** A successful Read leaves project and assignee type null and takes the other three fields from the fetched component. */
  lemma ReadSuccessFields(client: Client, prior: ResourceModel)
    requires ReadOutcome(client, prior).state.Some?
    ensures var r := ReadOutcome(client, prior);
      && |r.calls| == 2 && r.calls[1].GetComponent?
      && var c := client.getComponent(r.calls[1].id).value;
      && r.state.value.project == Null && r.state.value.assigneeType == Null
      && r.state.value.name == Known(c.name)
      && r.state.value.description == Known(c.description)
      && r.state.value.lead == Known(c.leadAccountId)
  {
  }

  /**
   Update PUTs the plan's five fields unchanged to the endpoint of the
   resolved component, the first listed one with the planned name.
   */
  lemma UpdatePutsPlanToResolvedEndpoint(client: Client, plan: ResourceModel, project: Project, i: nat)
    requires client.getProject(plan.project.ValueString()) == Ok(project)
    requires i < |project.components| && project.components[i].name == plan.name.ValueString()
    requires forall j :: 0 <= j < i ==> project.components[j].name != plan.name.ValueString()
    requires project.components[i].id != ""
    ensures var r := UpdateOutcome(client, plan);
      && |r.calls| >= 2
      && r.calls[1] == NewRequest(Request("PUT", "rest/api/3/component/" + project.components[i].id,
                                          ComponentOptions(plan.name.ValueString(), plan.description.ValueString(),
                                                           plan.lead.ValueString(), plan.project.ValueString(),
                                                           plan.assigneeType.ValueString())))
  {
    FirstNamedIsFirstMatch(project.components, plan.name.ValueString(), i);
  }

  /**
   A successful Update writes name, description and lead exactly as the
   response echoes them, whatever the plan asked for, and leaves project and
   assignee type null.
   */
  lemma UpdateStateFromResponse(client: Client, plan: ResourceModel)
    requires UpdateOutcome(client, plan).state.Some?
    ensures var r := UpdateOutcome(client, plan);
      && |r.calls| == 3 && r.calls[2].Do? && r.calls[1] == NewRequest(r.calls[2].request)
      && r.calls[2].request.httpMethod == "PUT"
      && r.calls[2].request.body == OptionsFrom(plan)
      && var c := client.send(r.calls[2].request).value;
      && r.state.value == ResourceModel(Null, Known(c.name), Known(c.description), Null, Known(c.leadAccountId))
  {
  }

  /** A failing request build or a failing `Do` leaves Update's state unset with one `Failed to update component`. */
  lemma UpdateSendFailures(client: Client, plan: ResourceModel)
    requires UpdateOutcome(client, plan).calls != [GetProject(plan.project.ValueString())]
    ensures var r := UpdateOutcome(client, plan);
      && |r.calls| >= 2 && r.calls[1].NewRequest?
      && var request := r.calls[1].request;
      && (client.newRequest(request).Some? ==>
            r.state == None && r.diagnostics == [RequestFailed(client.newRequest(request).value)] && |r.calls| == 2)
      && (client.newRequest(request).None? && client.send(request).Err? ==>
            r.state == None && r.diagnostics == [UpdateFailed(client.send(request).error)] && |r.calls| == 3)
  {
  }

  /** Resolution failures leave Update's state unset and issue no request, exactly as for Read. */
  lemma UpdateResolutionFailures(client: Client, plan: ResourceModel)
    requires ResolutionFails(client, plan)
    ensures var r := UpdateOutcome(client, plan);
      && r.state == None
      && r.calls == [GetProject(plan.project.ValueString())]
      && r.diagnostics == ReadOutcome(client, plan).diagnostics
  {
  }

  /**
   Update resolves by the planned name, not the prior one: when the prior
   name still resolves (Read of the prior state fetches that component) but
   no listed component carries the new name, a rename fails with
   `Failed to find component` and sends nothing.
   */
  lemma UpdateRenameNotFound(client: Client, prior: ResourceModel, plan: ResourceModel, project: Project, i: nat)
    requires plan.project == prior.project
    requires client.getProject(plan.project.ValueString()) == Ok(project)
    requires i < |project.components| && project.components[i].name == prior.name.ValueString()
    requires forall j :: 0 <= j < i ==> project.components[j].name != prior.name.ValueString()
    requires project.components[i].id != ""
    requires forall j :: 0 <= j < |project.components| ==> project.components[j].name != plan.name.ValueString()
    ensures ReadOutcome(client, prior).calls
      == [GetProject(prior.project.ValueString()), GetComponent(project.components[i].id)]
    ensures UpdateOutcome(client, plan)
      == Outcome([ComponentNotFound(plan.name)], None, [GetProject(plan.project.ValueString())])
  {
    FirstNamedIsFirstMatch(project.components, prior.name.ValueString(), i);
    FirstNamedWithoutMatch(project.components, plan.name.ValueString());
  }

  /**
   Create sends the plan's five fields and, on success, copies all five
   fields of the response into state; on a client error it reports
   `Failed to create component` and writes nothing.
   */
  lemma CreateCopiesResponse(client: Client, plan: ResourceModel)
    ensures var r := CreateOutcome(client, plan);
      var answer := client.createComponent(OptionsFrom(plan));
      && (answer.Ok? ==>
            var c := answer.value;
            r.diagnostics == [] &&
            r.state == Some(ResourceModel(Known(c.project), Known(c.name), Known(c.description),
                                          Known(c.assigneeType), Known(c.leadAccountId))))
      && (answer.Err? ==>
            r.state == None && |r.diagnostics| == 1 && r.diagnostics[0].summary == "Failed to create component")
  {
  }

  /** With `assignee_type` left unset, the create request carries `PROJECT_DEFAULT`. */
  lemma CreateSendsDefaultAssignee(client: Client, plan: ResourceModel, configured: TfString)
    requires configured.Null? && plan.assigneeType == PlannedAssigneeType(configured)
    ensures CreateOutcome(client, plan).calls[0].options.assigneeType == "PROJECT_DEFAULT"
  {
  }

  /**
   Create then Read: if the service lists the created component's name and
   ID first among those of its name, under the project it reported, and a
   fetch by that ID returns the same name, description and lead, Read writes
   the same name, description and lead as Create.
   */
  lemma CreateThenRead(client: Client, plan: ResourceModel, project: Project, i: nat)
    requires client.createComponent(OptionsFrom(plan)).Ok?
    requires var c := client.createComponent(OptionsFrom(plan)).value;
      && c.id != ""
      && client.getProject(c.project) == Ok(project)
      && i < |project.components|
      && project.components[i].name == c.name && project.components[i].id == c.id
      && (forall j :: 0 <= j < i ==> project.components[j].name != c.name)
      && client.getComponent(c.id).Ok?
      && var fetched := client.getComponent(c.id).value;
      && fetched.name == c.name && fetched.description == c.description
      && fetched.leadAccountId == c.leadAccountId
    ensures var created := CreateOutcome(client, plan).state.value;
      var read := ReadOutcome(client, created).state;
      && read.Some?
      && read.value.name == created.name
      && read.value.description == created.description
      && read.value.lead == created.lead
  {
    var c := client.createComponent(OptionsFrom(plan)).value;
    FirstNamedIsFirstMatch(project.components, c.name, i);
  }

  /**
   A state written by Read or Update has a null project, so the Read that
   follows looks the project up by the empty key instead of the
   component's project.
   */
  lemma ReadAfterRefreshUsesEmptyKey(client: Client, c: Component)
    ensures ReadOutcome(client, RefreshedState(c)).calls[0] == GetProject("")
  {
  }
}
