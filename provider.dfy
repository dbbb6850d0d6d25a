/**
 Provider configuration: resolving `host`, `user_email` and `api_token`
 from the provider block, falling back to the JIRA_URL, JIRA_USER_EMAIL and
 JIRA_TOKEN environment variables, validating them, and handing one client
 to both the data sources and the resources.
 */
module Provider {
  import opened Framework

  /** The provider block: each setting null, unknown or a known string. */
  datatype ProviderConfig = ProviderConfig(host: TfString, userEmail: TfString, apiToken: TfString)

  /** The values of JIRA_URL, JIRA_USER_EMAIL and JIRA_TOKEN ("" when unset). */
  datatype Environment = Environment(jiraUrl: string, jiraUserEmail: string, jiraToken: string)

  /** The basic-auth transport the client is built over. */
  datatype BasicAuthTransport = BasicAuthTransport(username: string, apiToken: string)

  /** The arguments of the client construction: base URL and transport. */
  datatype ClientRequest = ClientRequest(host: string, transport: BasicAuthTransport)

  /** The identity of the client the library's constructor returned. */
  datatype ClientHandle = ClientHandle(ref: nat)

  /** The client library's constructor, as the answer it gives for a base URL and transport. */
  type ClientFactory = (string, BasicAuthTransport) -> Result<ClientHandle>

  /**
   What Configure leaves behind: its diagnostics, the construction it asked
   for (None when it never reached it), and the client it put in
   DataSourceData and in ResourceData.
   */
  datatype ConfigureResponse = ConfigureResponse(
    diagnostics: seq<Diagnostic>,
    clientRequest: Option<ClientRequest>,
    dataSourceData: Option<ClientHandle>,
    resourceData: Option<ClientHandle>)

  const UnknownHost := AttributeError("host", "Unknown Jira Cloud host",
    "The provider cannot create the Jira Cloud API client without a JIRA Cloud host url")
  const UnknownUserEmail := AttributeError("user_email", "Unknown Jira Cloud user email",
    "The provider cannot create the Jira Cloud API client without a JIRA Cloud user email")
  const UnknownApiToken := AttributeError("api_token", "Unknown Jira Cloud API token",
    "The provider cannot create the Jira Cloud API client without a JIRA Cloud API token")

  const MissingHostText := "The provider cannot create the Jira Cloud API client without a JIRA Cloud host url."
  const MissingHostHint := "Set the `host` attribute in the provider configuration or set the `JIRA_URL` environment variable."
  const MissingApiTokenText := "The provider cannot create the Jira Cloud API client without a JIRA Cloud API token"
  const MissingApiTokenHint :=
    "Set the `api_token` attribute in the provider configuration or set the `JIRA_TOKEN` environment variable."
  const MissingUserEmailText := "The provider cannot create the Jira Cloud API client without a JIRA Cloud user email"
  const MissingUserEmailHint :=
    "Set the `user_email` attribute in the provider configuration or set the `JIRA_USER_EMAIL` environment variable."

  const MissingHost := AttributeError("host", "Missing Jira Cloud host", MissingHostText + MissingHostHint)
  const MissingApiToken := AttributeError("api_token", "Missing Jira Cloud API token", MissingApiTokenText + MissingApiTokenHint)
  const MissingUserEmail := AttributeError("user_email", "Missing Jira Cloud user email", MissingUserEmailText + MissingUserEmailHint)

  const ClientFailedText := "An unexpected error occurred while creating the Jira Cloud API client"

  function ClientFailed(e: string): Diagnostic {
    Error("Failed to create Jira Cloud API client", ClientFailedText + "Jira Cloud client error: " + e)
  }

  // ----- specification -----

  /** One error per unknown setting, in the order host, user_email, api_token. */
  function UnknownErrors(config: ProviderConfig): seq<Diagnostic> {
    (if config.host.Unknown? then [UnknownHost] else [])
    + (if config.userEmail.Unknown? then [UnknownUserEmail] else [])
    + (if config.apiToken.Unknown? then [UnknownApiToken] else [])
  }

  /** A setting's effective value: the configured string unless it is null, else the environment's. */
  function Effective(setting: TfString, fallback: string): string {
    if setting.Null? then fallback else setting.ValueString()
  }

  /** One error per empty effective value, in the order host, api_token, user_email. */
  function MissingErrors(host: string, userEmail: string, apiToken: string): seq<Diagnostic> {
    (if host == "" then [MissingHost] else [])
    + (if apiToken == "" then [MissingApiToken] else [])
    + (if userEmail == "" then [MissingUserEmail] else [])
  }

  function ConfigureOutcome(config: ProviderConfig, env: Environment, newClient: ClientFactory): (r: ConfigureResponse)
    ensures r.dataSourceData == r.resourceData
    ensures r.dataSourceData.Some? <==> r.diagnostics == []
  {
    var unknown := UnknownErrors(config);
    if unknown != [] then ConfigureResponse(unknown, None, None, None)
    else
      var host := Effective(config.host, env.jiraUrl);
      var userEmail := Effective(config.userEmail, env.jiraUserEmail);
      var apiToken := Effective(config.apiToken, env.jiraToken);
      var missing := MissingErrors(host, userEmail, apiToken);
      if missing != [] then ConfigureResponse(missing, None, None, None)
      else
        var request := ClientRequest(host, BasicAuthTransport(userEmail, apiToken));
        match newClient(host, request.transport)
        case Err(e) => ConfigureResponse([ClientFailed(e)], Some(request), None, None)
        case Ok(client) => ConfigureResponse([], Some(request), Some(client), Some(client))
  }

  // ----- the handler -----

  method Configure(config: ProviderConfig, env: Environment, newClient: ClientFactory)
    returns (diagnostics: seq<Diagnostic>, clientRequest: Option<ClientRequest>,
             dataSourceData: Option<ClientHandle>, resourceData: Option<ClientHandle>)
    ensures ConfigureResponse(diagnostics, clientRequest, dataSourceData, resourceData)
      == ConfigureOutcome(config, env, newClient)
  {
    diagnostics, clientRequest, dataSourceData, resourceData := [], None, None, None;

    if config.host.Unknown? {
      diagnostics := diagnostics + [UnknownHost];
    }
    if config.userEmail.Unknown? {
      diagnostics := diagnostics + [UnknownUserEmail];
    }
    if config.apiToken.Unknown? {
      diagnostics := diagnostics + [UnknownApiToken];
    }
    if HasError(diagnostics) {
      return;
    }

    var host := env.jiraUrl;
    var userEmail := env.jiraUserEmail;
    var apiToken := env.jiraToken;
    if !config.host.Null? {
      host := config.host.ValueString();
    }
    if !config.userEmail.Null? {
      userEmail := config.userEmail.ValueString();
    }
    if !config.apiToken.Null? {
      apiToken := config.apiToken.ValueString();
    }

    if host == "" {
      diagnostics := diagnostics + [MissingHost];
    }
    if apiToken == "" {
      diagnostics := diagnostics + [MissingApiToken];
    }
    if userEmail == "" {
      diagnostics := diagnostics + [MissingUserEmail];
    }
    if HasError(diagnostics) {
      return;
    }

    var transport := BasicAuthTransport(userEmail, apiToken);
    clientRequest := Some(ClientRequest(host, transport));
    var built := newClient(host, transport);
    if built.Err? {
      diagnostics := diagnostics + [ClientFailed(built.error)];
      return;
    }
    dataSourceData := Some(built.value);
    resourceData := Some(built.value);
  }

  // ----- properties -----

  /** Each unknown setting adds its own attribute error, and only unknown settings add one. */
  lemma EachUnknownReported(config: ProviderConfig)
    ensures config.host.Unknown? <==> UnknownHost in UnknownErrors(config)
    ensures config.userEmail.Unknown? <==> UnknownUserEmail in UnknownErrors(config)
    ensures config.apiToken.Unknown? <==> UnknownApiToken in UnknownErrors(config)
    ensures forall d :: d in UnknownErrors(config) ==> d.attribute.Some?
  {
  }

  /**
   Any unknown setting fails Configure with exactly the unknown-setting
   errors, before the environment is consulted: the outcome is the same for
   every environment, and no client is built.
   */
  lemma UnknownAbortsBeforeEnvironment(config: ProviderConfig, env: Environment, other: Environment, newClient: ClientFactory)
    requires config.host.Unknown? || config.userEmail.Unknown? || config.apiToken.Unknown?
    ensures ConfigureOutcome(config, env, newClient) == ConfigureOutcome(config, other, newClient)
    ensures ConfigureOutcome(config, env, newClient) == ConfigureResponse(UnknownErrors(config), None, None, None)
  {
  }

  /** A non-null configured value wins over the environment; a null one falls back to it. */
  lemma ExplicitOverridesEnvironment(setting: TfString, fallback: string)
    ensures setting.Known? ==> Effective(setting, fallback) == setting.value
    ensures setting.Null? ==> Effective(setting, fallback) == fallback
  {
  }

  /**
   An explicitly configured empty host does not fall back to JIRA_URL: it
   yields "Missing Jira Cloud host" and no client, whatever the environment.
   */
  lemma ExplicitEmptyHostIsMissing(config: ProviderConfig, env: Environment, newClient: ClientFactory)
    requires config.host == Known("") && !config.userEmail.Unknown? && !config.apiToken.Unknown?
    ensures var r := ConfigureOutcome(config, env, newClient);
      && |r.diagnostics| >= 1 && r.diagnostics[0] == MissingHost
      && r.clientRequest == None && r.dataSourceData == None
  {
  }

  /** The same for an explicitly empty user email: no fallback to JIRA_USER_EMAIL. */
  lemma ExplicitEmptyUserEmailIsMissing(config: ProviderConfig, env: Environment, newClient: ClientFactory)
    requires config.userEmail == Known("") && !config.host.Unknown? && !config.apiToken.Unknown?
    ensures var r := ConfigureOutcome(config, env, newClient);
      && MissingUserEmail in r.diagnostics && r.diagnostics[|r.diagnostics| - 1] == MissingUserEmail
      && r.clientRequest == None && r.dataSourceData == None
  {
  }

  /** And for an explicitly empty API token: no fallback to JIRA_TOKEN. */
  lemma ExplicitEmptyApiTokenIsMissing(config: ProviderConfig, env: Environment, newClient: ClientFactory)
    requires config.apiToken == Known("") && !config.host.Unknown? && !config.userEmail.Unknown?
    ensures var r := ConfigureOutcome(config, env, newClient);
      && MissingApiToken in r.diagnostics
      && r.clientRequest == None && r.dataSourceData == None
  {
  }

  /**
   All three missing-value checks run: with every setting null and every
   variable unset, the errors are host, api_token, user_email, in that order.
   */
  lemma AllMissingInOrder(newClient: ClientFactory)
    ensures ConfigureOutcome(ProviderConfig(Null, Null, Null), Environment("", "", ""), newClient).diagnostics
      == [MissingHost, MissingApiToken, MissingUserEmail]
  {
  }

  /** Each missing-value error stands for exactly its empty field, and is attached to that attribute. */
  lemma MissingErrorsExact(host: string, userEmail: string, apiToken: string)
    ensures host == "" <==> MissingHost in MissingErrors(host, userEmail, apiToken)
    ensures apiToken == "" <==> MissingApiToken in MissingErrors(host, userEmail, apiToken)
    ensures userEmail == "" <==> MissingUserEmail in MissingErrors(host, userEmail, apiToken)
    ensures MissingHost.attribute == Some("host") && MissingApiToken.attribute == Some("api_token")
      && MissingUserEmail.attribute == Some("user_email")
  {
  }

  /**
   All missing-value checks run and their errors accumulate: with no unknown
   setting and some effective value empty, Configure reports exactly the
   missing errors of the effective values, in the order host, api_token,
   user_email, and asks for no client.
   */
  lemma MissingErrorsAccumulate(config: ProviderConfig, env: Environment, newClient: ClientFactory)
    requires UnknownErrors(config) == []
    requires var host := Effective(config.host, env.jiraUrl);
      var userEmail := Effective(config.userEmail, env.jiraUserEmail);
      var apiToken := Effective(config.apiToken, env.jiraToken);
      host == "" || userEmail == "" || apiToken == ""
    ensures var host := Effective(config.host, env.jiraUrl);
      var userEmail := Effective(config.userEmail, env.jiraUserEmail);
      var apiToken := Effective(config.apiToken, env.jiraToken);
      var r := ConfigureOutcome(config, env, newClient);
      && r.diagnostics
         == (if host == "" then [MissingHost] else [])
          + (if apiToken == "" then [MissingApiToken] else [])
          + (if userEmail == "" then [MissingUserEmail] else [])
      && r.clientRequest == None && r.dataSourceData == None && r.resourceData == None
  {
  }

  /**
   A client is asked for only when no error was added, and it is asked for
   with the effective host, user email and token; the client built is the
   one handed to both data sources and resources.
   */
  lemma ClientOnlyWithoutErrors(config: ProviderConfig, env: Environment, newClient: ClientFactory)
    ensures var r := ConfigureOutcome(config, env, newClient);
      && (r.clientRequest.Some? <==>
            && UnknownErrors(config) == []
            && MissingErrors(Effective(config.host, env.jiraUrl), Effective(config.userEmail, env.jiraUserEmail),
                             Effective(config.apiToken, env.jiraToken)) == [])
      && (r.clientRequest.Some? ==>
            r.clientRequest.value == ClientRequest(Effective(config.host, env.jiraUrl),
              BasicAuthTransport(Effective(config.userEmail, env.jiraUserEmail), Effective(config.apiToken, env.jiraToken))))
      && (r.dataSourceData.Some? ==>
            r.resourceData == r.dataSourceData
            && newClient(r.clientRequest.value.host, r.clientRequest.value.transport) == Ok(r.dataSourceData.value))
  {
  }

  /** All three settings from the environment alone suffice, when the client library accepts them. */
  lemma EnvironmentAloneSuffices(env: Environment, newClient: ClientFactory, handle: ClientHandle)
    requires env.jiraUrl != "" && env.jiraUserEmail != "" && env.jiraToken != ""
    requires newClient(env.jiraUrl, BasicAuthTransport(env.jiraUserEmail, env.jiraToken)) == Ok(handle)
    ensures ConfigureOutcome(ProviderConfig(Null, Null, Null), env, newClient)
      == ConfigureResponse([], Some(ClientRequest(env.jiraUrl, BasicAuthTransport(env.jiraUserEmail, env.jiraToken))),
                           Some(handle), Some(handle))
  {
  }
}
