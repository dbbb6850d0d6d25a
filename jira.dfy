/**
 The Jira Cloud client as the handlers see it: the records it exchanges, the
 remote calls it offers, and the trace of the calls one handler issues.
 The client itself (HTTP transport, authentication, JSON) is not modelled:
 each remote call is an arbitrary total function from its arguments to a
 success value or an error text, so every proof holds whatever the service
 answers.
 */
module Jira {
  import opened Framework

  /** A project component as the remote API returns it (`Lead` reduced to its account ID). */
  datatype Component = Component(
    id: string,
    name: string,
    description: string,
    leadAccountId: string,
    assigneeType: string,
    project: string)

  /** The zero value of the client's component struct: every field empty. */
  const ZeroComponent := Component("", "", "", "", "", "")

  /** A project with the components it embeds, in the order the service lists them. */
  datatype Project = Project(key: string, components: seq<Component>)

  /** The payload of a component create, also sent as the body of the update PUT. */
  datatype ComponentOptions = ComponentOptions(
    name: string,
    description: string,
    leadAccountId: string,
    project: string,
    assigneeType: string)

  /** A low-level request: HTTP method, endpoint relative to the base URL, and body. */
  datatype Request = Request(httpMethod: string, endpoint: string, body: ComponentOptions)

  /**
   The remote calls the handlers use, each as the answer the service (or the
   client library) would give for the given arguments.
   */
  datatype Client = Client(
    getProject: string -> Result<Project>,
    getComponent: string -> Result<Component>,
    createComponent: ComponentOptions -> Result<Component>,
    newRequest: Request -> Option<string>,   // the error building the request reports, if any
    send: Request -> Result<Component>)      // `Do`: send the request, decode the component returned

  /** One call issued to the client. */
  datatype Call =
    | GetProject(key: string)
    | GetComponent(id: string)
    | CreateComponent(options: ComponentOptions)
    | NewRequest(request: Request)
    | Do(request: Request)

  /**
   What one handler invocation leaves behind: the diagnostics appended to its
   response, the state record it wrote (None when it wrote none), and the
   calls it issued to the client, in order.
   */
  datatype Outcome<M> = Outcome(diagnostics: seq<Diagnostic>, state: Option<M>, calls: seq<Call>)

  /** A failed invocation: one error diagnostic and no state written. */
  function Failed<M>(d: Diagnostic, calls: seq<Call>): Outcome<M> {
    Outcome([d], None, calls)
  }

  /**
   The shape every handler outcome has: state is written exactly when no
   error was added, and at most one error is ever added.
   */
  predicate StateOnlyOnSuccess<M>(o: Outcome<M>) {
    && (o.state.Some? <==> o.diagnostics == [])
    && |o.diagnostics| <= 1
  }
}
