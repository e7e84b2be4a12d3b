/** client/get_deployment.go: the deployment states, the query options and their query path,
    the app-server order of a deployment list and the query itself. */
module DeploymentQuery {
  import opened Wrappers
  import opened Text
  import opened QueryString
  import opened Api
  import ClientUtil
  import Sorting

  const StateSuccess: string := "success"
  const StateFailed: string := "failed"
  const StateCanceled: string := "canceled"
  const StateRejected: string := "rejected"
  const StateReadyForDeploy: string := "ready_for_deploy"
  const StatePreDeploy: string := "pre_deploy"
  const StateProgress: string := "progress"
  const StateSimulating: string := "simulating"
  const StateDelayed: string := "delayed"
  const StateScheduled: string := "scheduled"
  const StateRequested: string := "requested"

  /** Every deployment state, in declaration order. */
  function States(): (r: seq<string>)
    ensures |r| == 11
  {
    [StateSuccess, StateFailed, StateCanceled, StateRejected, StateReadyForDeploy, StatePreDeploy,
     StateProgress, StateSimulating, StateDelayed, StateScheduled, StateRequested]
  }

  /** The eleven state names are pairwise different. */
  lemma StatesDistinct()
    ensures forall i, j :: 0 <= i < j < |States()| ==> States()[i] != States()[j]
  {
    var s := States();
    forall i, j | 0 <= i < j < |s|
      ensures s[i] != s[j]
    {
      if |s[i]| == |s[j]| {
        assert s[i][0] != s[j][0];
      }
    }
  }

  /** The query options of a deployment listing; -1 means "no tracking id". */
  datatype GetOptions = GetOptions(
    appName: seq<string>,
    appServer: seq<string>,
    deploymentState: seq<string>,
    environment: seq<string>,
    trackingId: int,
    onlyLatest: bool)

  /** The option struct as its json-tagged fields, in declaration order. */
  function Fields(o: GetOptions): seq<Field>
  {
    [Field("appName", Strings(o.appName)), Field("appServerName", Strings(o.appServer)),
     Field("deploymentState", Strings(o.deploymentState)), Field("environmentName", Strings(o.environment)),
     Field("trackingId", Int(o.trackingId)), Field("onlyLatest", Bool(o.onlyLatest))]
  }

  /** The path of a listing: the deployments resource followed by the encoded options. */
  function QueryPath(o: GetOptions): string
  {
    "resources/./deployments?" + CommandURL(Fields(o), true)
  }

  /** The query parameters in order: appName, appServerName, deploymentState, environmentName
      (each only when the list is non-empty, comma-joined), trackingId (only when it is not -1)
      and onlyLatest, which is always present and always last. */
  lemma QueryParameters(o: GetOptions)
    ensures Pieces(Fields(o), true)
            == ((if o.appName != [] then ["appName" + "=" + TrimRight(Join(o.appName, ","), ',')] else [])
             + (if o.appServer != [] then ["appServerName" + "=" + TrimRight(Join(o.appServer, ","), ',')] else [])
             + (if o.deploymentState != [] then ["deploymentState" + "=" + TrimRight(Join(o.deploymentState, ","), ',')] else []))
             + ((if o.environment != [] then ["environmentName" + "=" + TrimRight(Join(o.environment, ","), ',')] else [])
             + (if o.trackingId != -1 then ["trackingId" + "=" + IntString(o.trackingId)] else [])
             + ["onlyLatest" + "=" + BoolString(o.onlyLatest)])
  {
    var fs := Fields(o);
    PiecesOfSix(fs[0], fs[1], fs[2], fs[3], fs[4], fs[5], true);
  }

  /** Deployments.Less: ordered by app-server name. */
  function AppServerLess(a: Deployment, b: Deployment): (r: bool)
    ensures a.appServerName == b.appServerName ==> !r
    ensures a.appServerName != b.appServerName ==> (r <==> !Less(b.appServerName, a.appServerName))
  {
    LessIrreflexive(a.appServerName);
    LessTrichotomy(a.appServerName, b.appServerName);
    if Less(a.appServerName, b.appServerName) then
      LessAsymmetric(a.appServerName, b.appServerName);
      true
    else false
  }

  /** The app-server order is fit for sorting. */
  lemma AppServerLessIsStrictWeakOrder()
    ensures Sorting.StrictWeakOrder(AppServerLess)
  {
    forall x: Deployment
      ensures !AppServerLess(x, x)
    {
      LessIrreflexive(x.appServerName);
    }
    forall x: Deployment, y: Deployment, z: Deployment | AppServerLess(x, y) && AppServerLess(y, z)
      ensures AppServerLess(x, z)
    {
      LessTransitive(x.appServerName, y.appServerName, z.appServerName);
    }
    forall x: Deployment, y: Deployment, z: Deployment | !AppServerLess(x, y) && !AppServerLess(y, z)
      ensures !AppServerLess(x, z)
    {
      LessTrichotomy(x.appServerName, y.appServerName);
      LessTrichotomy(y.appServerName, z.appServerName);
      if AppServerLess(x, z) {
        if x.appServerName == y.appServerName {
          LessAsymmetric(y.appServerName, z.appServerName);
        } else {
          LessTransitive(x.appServerName, z.appServerName, y.appServerName);
          LessAsymmetric(x.appServerName, y.appServerName);
        }
      }
    }
  }

  /** GetDeployment: one GET of the listing path; the answer is the server's, error or list. */
  method GetDeployment(server: Server, h0: seq<Call>, o: GetOptions) returns (r: Result<seq<Deployment>>, h: seq<Call>)
    ensures h == h0 + [Get(QueryPath(o))]
    ensures r == server.deployments(h)
  {
    var query := ClientUtil.BuildCommandURL(Fields(o));
    var url := "resources/./deployments?" + query;
    h := h0 + [Get(url)];
    r := server.deployments(h);
  }
}
