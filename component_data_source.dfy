/**
 The `component` data source: a read-only lookup of a component by project
 key and name, by the same resolve-then-enrich steps as the resource's Read.
 Unlike the resource, its output echoes the project's key as the service
 reports it.
 */
module ComponentDataSource {
  import opened Framework
  import opened Jira
  import opened Resolution
  import ComponentResource

  /** The data source's configuration and output record. */
  datatype DataSourceModel = DataSourceModel(
    project: TfString,
    name: TfString,
    description: TfString,
    lead: TfString)

  /** The output record: the fetched project's key, and name, description and lead of the fetched component. */
  function Projection(project: Project, enriched: Component): DataSourceModel {
    DataSourceModel(Known(project.key), Known(enriched.name), Known(enriched.description), Known(enriched.leadAccountId))
  }

  function LookupOutcome(client: Client, config: DataSourceModel): (r: Outcome<DataSourceModel>)
    ensures StateOnlyOnSuccess(r)
    ensures |r.calls| >= 1 && r.calls[0] == GetProject(config.project.ValueString())
  {
    var key := config.project.ValueString();
    var name := config.name.ValueString();
    match client.getProject(key)
    case Err(e) => Failed(ProjectReadFailed(key, e), [GetProject(key)])
    case Ok(project) =>
      var simple := FirstNamed(project.components, name);
      if !Resolved(simple) then Failed(ComponentNotFound(config.name), [GetProject(key)])
      else
        var calls := [GetProject(key), GetComponent(simple.id)];
        match client.getComponent(simple.id)
        case Err(e) => Failed(ComponentReadFailed(name, e), calls)
        case Ok(enriched) => Outcome([], Some(Projection(project, enriched)), calls)
  }

  /** The data source's Read handler. */
  method Read(client: Client, config: DataSourceModel)
    returns (diagnostics: seq<Diagnostic>, state: Option<DataSourceModel>, calls: seq<Call>)
    ensures Outcome(diagnostics, state, calls) == LookupOutcome(client, config)
  {
    diagnostics, state, calls := [], None, [];
    var key := config.project.ValueString();
    calls := calls + [GetProject(key)];
    var fetched := client.getProject(key);
    if fetched.Err? {
      diagnostics := diagnostics + [ProjectReadFailed(key, fetched.error)];
      return;
    }
    var project := fetched.value;
    var simple := FindComponentByName(project.components, config.name.ValueString());
    if simple.id == "" {
      diagnostics := diagnostics + [ComponentNotFound(config.name)];
      return;
    }
    calls := calls + [GetComponent(simple.id)];
    var enriched := client.getComponent(simple.id);
    if enriched.Err? {
      diagnostics := diagnostics + [ComponentReadFailed(config.name.ValueString(), enriched.error)];
      return;
    }
    state := Some(Projection(project, enriched.value));
  }

  /**
   A project-fetch error or a component-fetch error aborts the lookup with
   its own error and writes nothing.
   */
  lemma FetchErrorsAbort(client: Client, config: DataSourceModel)
    ensures var key := config.project.ValueString();
      var r := LookupOutcome(client, config);
      && (client.getProject(key).Err? ==>
            r.state == None && r.calls == [GetProject(key)]
            && r.diagnostics == [ProjectReadFailed(key, client.getProject(key).error)])
      && (|r.calls| == 2 && client.getComponent(r.calls[1].id).Err? ==>
            r.state == None
            && r.diagnostics == [ComponentReadFailed(config.name.ValueString(), client.getComponent(r.calls[1].id).error)])
  {
  }

  /**
   No component with the name, or a first match with an empty ID, gives
   `Failed to find component`, no component fetch and no output.
   */
  lemma LookupNotFound(client: Client, config: DataSourceModel, project: Project)
    requires client.getProject(config.project.ValueString()) == Ok(project)
    requires
      || (forall j :: 0 <= j < |project.components| ==> project.components[j].name != config.name.ValueString())
      || (exists i :: 0 <= i < |project.components| && project.components[i].name == config.name.ValueString()
            && project.components[i].id == ""
            && forall j :: 0 <= j < i ==> project.components[j].name != config.name.ValueString())
    ensures var r := LookupOutcome(client, config);
      && r.state == None
      && r.calls == [GetProject(config.project.ValueString())]
      && r.diagnostics == [ComponentNotFound(config.name)]
  {
    NotResolvedIff(project.components, config.name.ValueString());
  }

  /**
   The lookup fetches the first listed component with the requested name;
   on success the output's project is the fetched project's key (not the
   configured string), and name, description and lead come from that fetch.
   */
  lemma LookupOutput(client: Client, config: DataSourceModel, project: Project, i: nat)
    requires client.getProject(config.project.ValueString()) == Ok(project)
    requires i < |project.components| && project.components[i].name == config.name.ValueString()
    requires forall j :: 0 <= j < i ==> project.components[j].name != config.name.ValueString()
    requires project.components[i].id != ""
    requires client.getComponent(project.components[i].id).Ok?
    ensures var r := LookupOutcome(client, config);
      var c := client.getComponent(project.components[i].id).value;
      && r.calls == [GetProject(config.project.ValueString()), GetComponent(project.components[i].id)]
      && r.diagnostics == []
      && r.state == Some(DataSourceModel(Known(project.key), Known(c.name), Known(c.description), Known(c.leadAccountId)))
  {
    FirstNamedIsFirstMatch(project.components, config.name.ValueString(), i);
  }

  /** The data source resolves exactly as the resource's Read: same calls, same failures. */
  lemma SameResolutionAsResource(client: Client, config: DataSourceModel, lifecycle: ComponentResource.ResourceModel)
    requires lifecycle.project == config.project && lifecycle.name == config.name
    ensures LookupOutcome(client, config).calls == ComponentResource.ReadOutcome(client, lifecycle).calls
    ensures LookupOutcome(client, config).diagnostics == ComponentResource.ReadOutcome(client, lifecycle).diagnostics
  {
  }

  /** Two components differing only by name: looking up "Comp2" under "ABC" outputs the second's detail. */
  lemma LookupSecondOfTwo(client: Client, first: Component, second: Component, detail: Component)
    requires first.name == "Comp1" && second.name == "Comp2" && second.id != ""
    requires client.getProject("ABC") == Ok(Project("ABC", [first, second]))
    requires client.getComponent(second.id) == Ok(detail)
    ensures LookupOutcome(client, DataSourceModel(Known("ABC"), Known("Comp2"), Null, Null)).state
      == Some(DataSourceModel(Known("ABC"), Known(detail.name), Known(detail.description), Known(detail.leadAccountId)))
  {
    SecondOfTwoFound(first, second);
  }
}
