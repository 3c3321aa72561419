/**
 * The provider itself: resolves the control-plane address and API key,
 * connects once, and hands the client to every data source and resource.
 */
module Provider {
  import opened Wrappers
  import opened Terraform

  /** `pipeCDProviderModel`: the provider block's `host` and `api_key`. */
  datatype ProviderConfig = ProviderConfig(host: TfString, apiKey: TfString)

  /** An established API client; only its identity matters here. */
  datatype Client = Client(handle: nat)

  /** The address and key a connection is dialled with. */
  datatype DialRequest = DialRequest(host: string, apiKey: string)

  /** `ConfigureResponse`: diagnostics and the client handed to data sources and resources. */
  datatype ConfigureResponse = ConfigureResponse(
    diagnostics: seq<Diagnostic>,
    dataSourceData: Option<Client>,
    resourceData: Option<Client>)

  const UnknownHost := AttributeError("host", "Unknown PipeCD API Host")
  const UnknownApiKey := AttributeError("api_key", "Unknown PipeCD API Key")
  const MissingHost := AttributeError("host", "Missing PipeCD API Host")
  const MissingApiKey := AttributeError("api_key", "Missing PipeCD API Key")

  const DialFailedDetail := "An unexpected error occurred when creating the PipeCD API client. "
    + "If the error is not clear, please contact the provider developers.\n\n"
    + "PipeCD Client Error: "

  function DialFailed(msg: string): Diagnostic {
    Error("Unable to Create PipeCD API Client", DialFailedDetail + msg)
  }

  /** The errors for configuration values not known yet, host first. */
  function UnknownErrors(c: ProviderConfig): seq<Diagnostic> {
    (if c.host.Unknown? then [UnknownHost] else []) + (if c.apiKey.Unknown? then [UnknownApiKey] else [])
  }

  /** A setting's final value: the configured one unless it is null, else the environment's. */
  function Resolve(configured: TfString, env: string): string {
    if configured.Null? then env else configured.ValueString()
  }

  /** The errors for settings that resolved to "", host first. */
  function MissingErrors(host: string, apiKey: string): seq<Diagnostic> {
    (if host == "" then [MissingHost] else []) + (if apiKey == "" then [MissingApiKey] else [])
  }

  /** The data sources the provider registers, by constructor. */
  datatype DataSourceFactory = NewApplicationDataSource | NewPipedDataSource

  /** The resources the provider registers, by constructor. */
  datatype ResourceFactory = NewApplicationResource | NewPipedResource

  /** `DataSources`: each data source is registered, exactly once. */
  function DataSources(): (r: seq<DataSourceFactory>)
    ensures |r| == 2 && r[0] != r[1]
  {
    [NewApplicationDataSource, NewPipedDataSource]
  }

  /** Every data source the provider implements is in `DataSources()`. */
  lemma DataSourcesComplete(f: DataSourceFactory)
    ensures f in DataSources()
  {
    match f
    case NewApplicationDataSource => assert DataSources()[0] == f;
    case NewPipedDataSource => assert DataSources()[1] == f;
  }

  /** `Resources`: each resource is registered, exactly once. */
  function Resources(): (r: seq<ResourceFactory>)
    ensures |r| == 2 && r[0] != r[1]
  {
    [NewApplicationResource, NewPipedResource]
  }

  /** Every resource the provider implements is in `Resources()`. */
  lemma ResourcesComplete(f: ResourceFactory)
    ensures f in Resources()
  {
    match f
    case NewApplicationResource => assert Resources()[0] == f;
    case NewPipedResource => assert Resources()[1] == f;
  }

  /** `PipeCDProvider`: the version it was built with and its client, nil until connected. */
  class PipeCDProvider {
    const version: string
    var client: Option<Client>

    /** `New(version)`: a provider with no client yet. */
    constructor (version: string)
      ensures this.version == version && client == None
    {
      this.version := version;
      client := None;
    }

    /**
     * `Configure`: given the provider block, the `PIPECD_HOST` and
     * `PIPECD_API_KEY` environment values ("" when unset) and the outcome of
     * dialling, decide the errors, whether to dial, and the client published.
     * Unknown values stop it before the environment is read; a null value
     * falls back to the environment, an explicit one (even "") wins; an empty
     * result is an error; a client that already exists is reused without
     * dialling. `dialed` is the connection attempted, if any.
     */
    method Configure(config: ProviderConfig, envHost: string, envApiKey: string, dial: Result<Client>)
      returns (resp: ConfigureResponse, dialed: Option<DialRequest>)
      modifies this`client
      ensures UnknownErrors(config) != [] ==>
        && resp == ConfigureResponse(UnknownErrors(config), None, None)
        && dialed == None && client == old(client)
      ensures
        var host, apiKey := Resolve(config.host, envHost), Resolve(config.apiKey, envApiKey);
        && (UnknownErrors(config) == [] && MissingErrors(host, apiKey) != [] ==>
              && resp == ConfigureResponse(MissingErrors(host, apiKey), None, None)
              && dialed == None && client == old(client))
        && (UnknownErrors(config) == [] && MissingErrors(host, apiKey) == [] && old(client).Some? ==>
              && resp == ConfigureResponse([], old(client), old(client))
              && dialed == None && client == old(client))
        && (UnknownErrors(config) == [] && MissingErrors(host, apiKey) == [] && old(client).None? ==>
              && dialed == Some(DialRequest(host, apiKey))
              && (dial.Failure? ==> resp == ConfigureResponse([DialFailed(dial.error)], None, None) && client == None)
              && (dial.Success? ==> resp == ConfigureResponse([], Some(dial.value), Some(dial.value)) && client == Some(dial.value)))
      ensures old(client).Some? ==> client == old(client)
      ensures resp.diagnostics == [] <==> resp.dataSourceData.Some?
      ensures resp.dataSourceData == resp.resourceData
    {
      dialed := None;
      var diagnostics: seq<Diagnostic> := [];
      if config.host.Unknown? {
        diagnostics := diagnostics + [UnknownHost];
      }
      if config.apiKey.Unknown? {
        diagnostics := diagnostics + [UnknownApiKey];
      }
      assert diagnostics == UnknownErrors(config);
      if diagnostics != [] {
        resp := ConfigureResponse(diagnostics, None, None);
        return;
      }

      var host := envHost;
      var apiKey := envApiKey;
      if !config.host.Null? {
        host := config.host.ValueString();
      }
      if !config.apiKey.Null? {
        apiKey := config.apiKey.ValueString();
      }
      assert host == Resolve(config.host, envHost) && apiKey == Resolve(config.apiKey, envApiKey);

      if host == "" {
        diagnostics := diagnostics + [MissingHost];
      }
      if apiKey == "" {
        diagnostics := diagnostics + [MissingApiKey];
      }
      assert diagnostics == MissingErrors(host, apiKey);
      if diagnostics != [] {
        resp := ConfigureResponse(diagnostics, None, None);
        return;
      }

      if client.None? {
        dialed := Some(DialRequest(host, apiKey));
        if dial.Failure? {
          resp := ConfigureResponse([DialFailed(dial.error)], None, None);
          return;
        }
        client := Some(dial.value);
      }
      resp := ConfigureResponse([], client, client);
    }
  }
}
