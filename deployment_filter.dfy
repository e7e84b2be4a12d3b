/** client/get_deployment_filter.go: the deployment listing by a raw JSON filter. */
module DeploymentFilter {
  import opened Wrappers
  import opened Api

  /** GetDeploymentFilter: one GET carrying the filter; a transport error is fatal with
      "Error rest call: ...", otherwise the server's list is returned. */
  method GetDeploymentFilter(server: Server, h0: seq<Call>, filter: string) returns (r: Result<seq<Deployment>>, h: seq<Call>)
    ensures h == h0 + [GetFiltered(filter)]
    ensures server.deployments(h).Err? ==> r == Err("Error rest call: " + server.deployments(h).msg)
    ensures server.deployments(h).Ok? ==> r == server.deployments(h)
  {
    h := h0 + [GetFiltered(filter)];
    var answer := server.deployments(h);
    if answer.Err? {
      return Err("Error rest call: " + answer.msg), h;
    }
    r := answer;
  }
}
