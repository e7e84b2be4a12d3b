/** The records exchanged with the Liima REST API and the server the client talks to.
    The server is an oracle: every answer is a function of the whole sequence of calls made so
    far, the last of which is the call being answered. Nothing is assumed about its answers. */
module Api {
  import opened Wrappers

  /** One application of a deployment together with its version. */
  datatype AppVersion = AppVersion(applicationName: string, version: string)

  /** A deployment parameter sent with a new deployment. */
  datatype Parameter = Parameter(key: string, value: string)

  /** The fields of a deployment response that the client reads. */
  datatype Deployment = Deployment(
    trackingId: int,
    state: string,
    appServerName: string,
    apps: seq<AppVersion>,
    environmentName: string,
    releaseName: string,
    runtimeName: string)

  /** The body of a POST that creates a deployment; `releaseName` is a nullable pointer in Go. */
  datatype Request = Request(
    releaseName: Option<string>,
    appServerName: string,
    environmentName: string,
    apps: seq<AppVersion>,
    parameters: seq<Parameter>,
    deploymentDate: string,
    executeShakedownTest: bool)

  /** One entry of the host-name listing. */
  datatype Hostname = Hostname(
    host: string,
    appServer: string,
    appServerRelease: string,
    runtime: string,
    node: string,
    nodeRelease: string,
    environment: string,
    domain: string,
    definedOnNode: bool)

  /** A request sent to the server: a GET of a query path, a GET of the raw deployment filter,
      or a POST of a new deployment. */
  datatype Call = Get(path: string) | GetFiltered(filter: string) | Post(path: string, body: Request)

  /** The server's answers to each kind of call, as functions of the call history. */
  datatype Server = Server(
    deployments: seq<Call> -> Result<seq<Deployment>>,
    created: seq<Call> -> Result<Deployment>,
    hostnames: seq<Call> -> Result<seq<Hostname>>)

  /** The path every deployment is created at. */
  const DeploymentsPath: string := "resources/./deployments"

  /** Pairs names with versions position by position (the Go loops index the versions by the
      names' indices, so there must be at least as many versions). */
  function ZipApps(names: seq<string>, versions: seq<string>): (r: seq<AppVersion>)
    requires |names| <= |versions|
    ensures |r| == |names|
    ensures forall i :: 0 <= i < |r| ==> r[i] == AppVersion(names[i], versions[i])
  {
    seq(|names|, i requires 0 <= i < |names| => AppVersion(names[i], versions[i]))
  }

  /** Pairs keys with values position by position. */
  function ZipParameters(keys: seq<string>, values: seq<string>): (r: seq<Parameter>)
    requires |keys| <= |values|
    ensures |r| == |keys|
    ensures forall i :: 0 <= i < |r| ==> r[i] == Parameter(keys[i], values[i])
  {
    seq(|keys|, i requires 0 <= i < |keys| => Parameter(keys[i], values[i]))
  }

  function AppNames(apps: seq<AppVersion>): (r: seq<string>)
    ensures |r| == |apps| && forall i :: 0 <= i < |r| ==> r[i] == apps[i].applicationName
  {
    seq(|apps|, i requires 0 <= i < |apps| => apps[i].applicationName)
  }

  function AppVersions(apps: seq<AppVersion>): (r: seq<string>)
    ensures |r| == |apps| && forall i :: 0 <= i < |r| ==> r[i] == apps[i].version
  {
    seq(|apps|, i requires 0 <= i < |apps| => apps[i].version)
  }

  /** Unzipping a list of applications and zipping it again gives the same list back. */
  lemma ZipUnzip(apps: seq<AppVersion>)
    ensures ZipApps(AppNames(apps), AppVersions(apps)) == apps
  {
  }

  /** Zipping equally long name and version lists and unzipping gives both lists back. */
  lemma UnzipZip(names: seq<string>, versions: seq<string>)
    requires |names| == |versions|
    ensures AppNames(ZipApps(names, versions)) == names
    ensures AppVersions(ZipApps(names, versions)) == versions
  {
  }

  /** The app-server names of a list of deployments, in order. */
  function AppServerNames(ds: seq<Deployment>): (r: seq<string>)
    ensures |r| == |ds| && forall i :: 0 <= i < |r| ==> r[i] == ds[i].appServerName
  {
    seq(|ds|, i requires 0 <= i < |ds| => ds[i].appServerName)
  }
}
