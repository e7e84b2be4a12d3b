/** cmd/deployment/promote.go: the promote command. After a confirmation it runs the promotion,
    prints the deployments grouped by state and ordered by app server, and fails when waiting
    was asked for and not every deployment ended as success or rejected. */
module PromoteCommand {
  import opened Wrappers
  import opened Text
  import opened Api
  import opened DeploymentQuery
  import Promote
  import Sorting

  /** The order of the printed report: by state, then by app-server name. It is the
      lexicographic order on the pair (state, app server). */
  function StateThenAppServerLess(a: Deployment, b: Deployment): (r: bool)
    ensures r <==> Less(a.state, b.state) || (a.state == b.state && Less(a.appServerName, b.appServerName))
  {
    LessTrichotomy(a.state, b.state);
    match Compare(a.state, b.state)
    case -1 => true
    case 1 => false
    case _ => Less(a.appServerName, b.appServerName)
  }

  /** The report order is fit for sorting. */
  lemma StateThenAppServerLessIsStrictWeakOrder()
    ensures Sorting.StrictWeakOrder(StateThenAppServerLess)
  {
    forall x: Deployment
      ensures !StateThenAppServerLess(x, x)
    {
      LessIrreflexive(x.state);
      LessIrreflexive(x.appServerName);
    }
    forall x: Deployment, y: Deployment, z: Deployment | StateThenAppServerLess(x, y) && StateThenAppServerLess(y, z)
      ensures StateThenAppServerLess(x, z)
    {
      if Less(x.state, y.state) && Less(y.state, z.state) {
        LessTransitive(x.state, y.state, z.state);
      } else if x.state == y.state && y.state == z.state {
        LessTransitive(x.appServerName, y.appServerName, z.appServerName);
      }
    }
    forall x: Deployment, y: Deployment, z: Deployment | !StateThenAppServerLess(x, y) && !StateThenAppServerLess(y, z)
      ensures !StateThenAppServerLess(x, z)
    {
      NotLessIsAtLeast(x, y);
      NotLessIsAtLeast(y, z);
      if Less(x.state, z.state) {
        LessTrichotomy(x.state, y.state);
        if Less(y.state, x.state) {
          LessTransitive(y.state, x.state, z.state);
        }
        LessAsymmetric(y.state, z.state);
      } else if x.state == z.state && Less(x.appServerName, z.appServerName) {
        if Less(y.state, x.state) {
          LessAsymmetric(z.state, y.state);
        } else if y.state == x.state {
          LessTrichotomy(x.appServerName, y.appServerName);
          if Less(y.appServerName, x.appServerName) {
            LessTransitive(y.appServerName, x.appServerName, z.appServerName);
          }
          LessAsymmetric(y.appServerName, z.appServerName);
        }
      }
    }
  }

  /** Not before in the report order means at or after in it. */
  lemma NotLessIsAtLeast(x: Deployment, y: Deployment)
    requires !StateThenAppServerLess(x, y)
    ensures Less(y.state, x.state) || (x.state == y.state && !Less(x.appServerName, y.appServerName))
  {
    LessTrichotomy(x.state, y.state);
  }

  /** A deployment counts as successful when it succeeded or was rejected. */
  predicate Succeeded(d: Deployment)
  {
    d.state == StateSuccess || d.state == StateRejected
  }

  predicate AllSucceeded(ds: seq<Deployment>)
  {
    forall k :: 0 <= k < |ds| ==> Succeeded(ds[k])
  }

  const PromoteFailed: string := "Promote failed, not all deployments are successfully"

  /** The two sorts: first by app server, then by state and app server. */
  method SortReport(deployments: seq<Deployment>) returns (report: seq<Deployment>)
    ensures multiset(report) == multiset(deployments)
    ensures Sorting.SortedBy(report, StateThenAppServerLess)
  {
    var a := new Deployment[|deployments|](k requires 0 <= k < |deployments| => deployments[k]);
    assert a[..] == deployments;
    AppServerLessIsStrictWeakOrder();
    Sorting.Sort(a, AppServerLess);
    StateThenAppServerLessIsStrictWeakOrder();
    Sorting.Sort(a, StateThenAppServerLess);
    report := a[..];
  }

  /** The success flag accumulated over the report. */
  method SuccessLoop(report: seq<Deployment>) returns (success: bool)
    ensures success <==> AllSucceeded(report)
  {
    success := true;
    for k := 0 to |report|
      invariant success <==> AllSucceeded(report[..k])
    {
      success := success && (report[k].state == StateSuccess || report[k].state == StateRejected);
    }
    assert report[..|report|] == report;
  }

  /** The report of a successful promotion: the deployments sorted by app server and then by
      state and app server, and the fatal error when waiting was asked for and some deployment
      neither succeeded nor was rejected. */
  method Report(deployments: seq<Deployment>, wait: bool) returns (report: seq<Deployment>, fatal: Option<string>)
    ensures multiset(report) == multiset(deployments)
    ensures Sorting.SortedBy(report, StateThenAppServerLess)
    ensures fatal.Some? <==> wait && !AllSucceeded(deployments)
    ensures fatal.Some? ==> fatal.value == PromoteFailed
  {
    report := SortReport(deployments);
    var success := SuccessLoop(report);
    AllSucceededIsOrderFree(report, deployments);
    if !success && wait {
      return report, Some(PromoteFailed);
    }
    fatal := None;
  }

  /** runPromote, with `confirmed` the answer to the confirmation question. Without silent mode
      or confirmation nothing happens. Otherwise a failed promotion is fatal with its error; a
      successful one yields its deployments as a report ordered by state and then app server,
      and is fatal exactly when waiting was asked for and some deployment neither succeeded nor
      was rejected. */
  method RunPromote(server: Server, h0: seq<Call>, o: Promote.PromoteOptions, confirmed: bool)
    returns (report: seq<Deployment>, fatal: Option<string>, h: seq<Call>)
    ensures !(o.silent || confirmed) ==> report == [] && fatal == None && h == h0
    ensures o.silent || confirmed ==>
              var out := Promote.PromoteSpec(server, h0, o);
              && h == out.history
              && (out.err.Some? ==> report == [] && fatal == Some("Error Promote Deployment: " + out.err.value))
              && (out.err.None? ==> multiset(report) == multiset(out.deployments)
                                    && Sorting.SortedBy(report, StateThenAppServerLess)
                                    && (fatal.Some? <==> o.wait && !AllSucceeded(out.deployments))
                                    && (fatal.Some? ==> fatal.value == PromoteFailed))
  {
    if !(o.silent || confirmed) {
      return [], None, h0;
    }
    var deployments, err;
    deployments, err, h := Promote.PromoteDeployments(server, h0, o);
    if err.Some? {
      return [], Some("Error Promote Deployment: " + err.value), h;
    }
    report, fatal := Report(deployments, o.wait);
  }

  /** Whether every deployment succeeded does not depend on their order. */
  lemma AllSucceededIsOrderFree(a: seq<Deployment>, b: seq<Deployment>)
    requires multiset(a) == multiset(b)
    ensures AllSucceeded(a) <==> AllSucceeded(b)
  {
    forall k | 0 <= k < |b| && AllSucceeded(a)
      ensures Succeeded(b[k])
    {
      assert b[k] in multiset(a);
      var i :| 0 <= i < |a| && a[i] == b[k];
    }
    forall k | 0 <= k < |a| && AllSucceeded(b)
      ensures Succeeded(a[k])
    {
      assert a[k] in multiset(b);
      var i :| 0 <= i < |b| && b[i] == a[k];
    }
  }
}
