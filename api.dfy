/**
 * The PipeCD control-plane API as the provider sees it: the records it
 * fetches, the requests it sends, and the enumeration of application kinds.
 * The server itself is not modelled; each call's outcome is an input.
 */
module Api {
  import opened Terraform

  datatype GitRepository = GitRepository(id: string, remote: string, branch: string)

  datatype GitPath = GitPath(repo: GitRepository, path: string, configFilename: string, url: string)

  /** `model.Application`, restricted to the fields the provider reads or sends. */
  datatype Application = Application(
    id: string,
    name: string,
    pipedId: string,
    projectId: string,
    kind: int,
    platformProvider: string,
    deployTargetsByPlugin: map<string, seq<string>>,
    description: string,
    gitPath: GitPath)

  datatype PlatformProvider = PlatformProvider(name: string, providerType: string)

  datatype PipedPlugin = PipedPlugin(name: string, deployTargets: seq<string>)

  /** `model.Piped`, restricted to the fields the provider reads or sends. */
  datatype Piped = Piped(
    id: string,
    name: string,
    desc: string,
    projectId: string,
    repositories: seq<GitRepository>,
    platformProviders: seq<PlatformProvider>,
    plugins: seq<PipedPlugin>)

  datatype AddApplicationRequest = AddApplicationRequest(
    name: string,
    pipedId: string,
    gitPath: GitPath,
    kind: int,
    platformProvider: string,
    description: string)

  datatype UpdateApplicationRequest = UpdateApplicationRequest(
    applicationId: string,
    pipedId: string,
    platformProvider: string,
    gitPath: GitPath)

  datatype RegisterPipedResponse = RegisterPipedResponse(id: string, key: string)

  /** One request sent to the API, in the order the handler sends them. */
  datatype ApiCall =
    | GetApplication(applicationId: string)
    | AddApplication(add: AddApplicationRequest)
    | UpdateApplication(update: UpdateApplicationRequest)
    | DeleteApplication(applicationId: string)
    | GetPiped(pipedId: string)
    | RegisterPiped(name: string, desc: string)
    | UpdatePiped(pipedId: string, name: string, desc: string)
    | DisablePiped(pipedId: string)

  /** What one handler invocation did: the requests it sent, its write to `resp.State`, its diagnostics. */
  datatype HandlerResult<+S> = HandlerResult(calls: seq<ApiCall>, write: StateWrite<S>, diagnostics: seq<Diagnostic>)

  /**
   * The protobuf enumeration `model.ApplicationKind`: `name` is
   * `ApplicationKind_name` and `value` is `ApplicationKind_value`.
   */
  datatype KindEnum = KindEnum(name: map<int, string>, value: map<string, int>) {
    /** The two tables are inverse bijections, as generated enumerations are. */
    ghost predicate Valid() {
      && (forall k :: k in name ==> name[k] in value && value[name[k]] == k)
      && (forall s :: s in value ==> value[s] in name && name[value[s]] == s)
    }
  }

  /**
   * `model.ApplicationKind_value[s]`: a name missing from the table reads
   * as Go's zero value, 0.
   */
  function KindValueOf(e: KindEnum, s: string): (k: int)
    ensures s !in e.value ==> k == 0
    ensures e.Valid() && s in e.value ==> k in e.name && KindName(e, k) == s
  {
    if s in e.value then e.value[s] else 0
  }

  /**
   * `ApplicationKind.String()`: the enumerator's name, or its number in
   * decimal when the value is not in the table.
   */
  function KindName(e: KindEnum, k: int): string {
    if k in e.name then e.name[k] else IntToDecimal(k)
  }

  function DigitChar(d: nat): char
    requires d < 10
  {
    "0123456789"[d]
  }

  function NatToDecimal(n: nat): string
    decreases n
  {
    if n < 10 then [DigitChar(n)] else NatToDecimal(n / 10) + [DigitChar(n % 10)]
  }

  function IntToDecimal(i: int): string {
    if i < 0 then "-" + NatToDecimal(-i) else NatToDecimal(i)
  }
}
