/** client/create_deployment.go: validating the options of a new deployment, building its
    request (applications either named on the command line or copied from the latest deployment
    of a source environment), posting it and, on request, polling until it has finished. */
module Create {
  import opened Wrappers
  import opened Text
  import opened Api
  import opened DeploymentQuery
  import ClientUtil

  /** The options of a new deployment. */
  datatype CreateOptions = CreateOptions(
    appServer: string,
    appName: seq<string>,
    appVersion: seq<string>,
    environment: string,
    release: string,
    deploymentDate: string,
    executeShakedownTest: bool,
    key: seq<string>,
    value: seq<string>,
    wait: bool,
    maxWaitTime: int,
    fromEnvironment: string)

  /** A result together with the calls made to reach it. */
  datatype Run<T> = Run(result: T, history: seq<Call>)

  /** The messages of the checks made in every case, in order. */
  function CommonViolations(o: CreateOptions): seq<string>
  {
    ClientUtil.Failed(o.appServer != "", "want appServer")
    + ClientUtil.Failed(|o.key| == |o.value|,
             "want same count of key and value, got key " + IntString(|o.key|) + " != value " + IntString(|o.value|))
    + ClientUtil.Failed(ClientUtil.ValidateSingleChar(o.environment), "want environment with one char, got " + o.environment)
  }

  /** The messages of the checks that depend on whether a source environment is given. */
  function SourceViolations(o: CreateOptions): seq<string>
  {
    if o.fromEnvironment != "" then
      ClientUtil.Failed(ClientUtil.ValidateSingleChar(o.fromEnvironment), "want FromEnvironment with one char, got " + o.fromEnvironment)
    else
      ClientUtil.Failed(|o.appName| > 0, "want appName")
      + ClientUtil.Failed(|o.appVersion| > 0, "want appVersion")
      + ClientUtil.Failed(|o.appName| == |o.appVersion|,
               "want same count of appName and appVersion, got appName " + IntString(|o.appName|)
               + " != appVersion " + IntString(|o.appVersion|))
  }

  /** The messages of every failed check, in the order they are checked. */
  function Violations(o: CreateOptions): seq<string>
  {
    CommonViolations(o) + SourceViolations(o)
  }

  /** What valid options are: an app server, as many values as keys, a one-letter environment,
      and either a one-letter source environment or equally many (and some) names and versions. */
  predicate Valid(o: CreateOptions)
  {
    && o.appServer != ""
    && |o.key| == |o.value|
    && ClientUtil.ValidateSingleChar(o.environment)
    && (o.fromEnvironment != "" ==> ClientUtil.ValidateSingleChar(o.fromEnvironment))
    && (o.fromEnvironment == "" ==> |o.appName| > 0 && |o.appVersion| > 0 && |o.appName| == |o.appVersion|)
  }

  /** No check fails exactly when the options are valid. */
  lemma ViolationsIffInvalid(o: CreateOptions)
    ensures Violations(o) == [] <==> Valid(o)
  {
  }

  /** A missing app server is always reported, and first, also when copying from a source
      environment. */
  lemma AppServerAlwaysChecked(o: CreateOptions)
    requires o.appServer == ""
    ensures |Violations(o)| >= 1 && Violations(o)[0] == "want appServer"
  {
  }

  /** With a source environment the application lists are not checked at all. */
  lemma SourceSkipsAppChecks(o: CreateOptions, names: seq<string>, versions: seq<string>)
    requires o.fromEnvironment != ""
    ensures Violations(o.(appName := names, appVersion := versions)) == Violations(o)
  {
  }

  /** The checks made in every case. */
  method CheckCommon(errors: ClientUtil.ErrorList, o: CreateOptions)
    modifies errors
    ensures errors.messages == old(errors.messages) + CommonViolations(o)
  {
    errors.Check(o.appServer != "", "want appServer");
    errors.Check(|o.key| == |o.value|,
                 "want same count of key and value, got key " + IntString(|o.key|) + " != value " + IntString(|o.value|));
    errors.Check(ClientUtil.ValidateSingleChar(o.environment), "want environment with one char, got " + o.environment);
  }

  /** The checks of the source environment, or of the application lists without one. */
  method CheckSource(errors: ClientUtil.ErrorList, o: CreateOptions)
    modifies errors
    ensures errors.messages == old(errors.messages) + SourceViolations(o)
  {
    if o.fromEnvironment != "" {
      errors.Check(ClientUtil.ValidateSingleChar(o.fromEnvironment), "want FromEnvironment with one char, got " + o.fromEnvironment);
    } else {
      ghost var before := errors.messages;
      var countMsg := "want same count of appName and appVersion, got appName " + IntString(|o.appName|)
                      + " != appVersion " + IntString(|o.appVersion|);
      errors.Check(|o.appName| > 0, "want appName");
      errors.Check(|o.appVersion| > 0, "want appVersion");
      errors.Check(|o.appName| == |o.appVersion|, countMsg);
      Associate(before, ClientUtil.Failed(|o.appName| > 0, "want appName"), ClientUtil.Failed(|o.appVersion| > 0, "want appVersion"),
                ClientUtil.Failed(|o.appName| == |o.appVersion|, countMsg));
    }
  }

  lemma Associate(x: seq<string>, a: seq<string>, b: seq<string>, c: seq<string>)
    ensures x + a + b + c == x + (a + b + c)
  {
  }

  /** validate: runs every check into one error list; no error when nothing failed, otherwise
      all messages joined by ", ". */
  method Validate(o: CreateOptions) returns (err: Option<string>)
    ensures Violations(o) == [] ==> err == None
    ensures Violations(o) != [] ==> err == Some(Join(Violations(o), ", "))
  {
    var errors := new ClientUtil.ErrorList();
    CheckCommon(errors, o);
    assert errors.messages == CommonViolations(o);
    CheckSource(errors, o);
    ghost var v := Violations(o);
    assert errors.messages == v;
    if |errors.messages| > 0 {
      return Some(Join(errors.messages, ", "));
    }
    err := None;
  }

  /** The release of the request: nil for an empty release, the release otherwise. */
  function ReleasePointer(release: string): (r: Option<string>)
    ensures r.None? <==> release == ""
    ensures r.Some? ==> r.value == release
  {
    if release == "" then None else Some(release)
  }

  /** The request for valid options and the applications to deploy. */
  function RequestFor(o: CreateOptions, apps: seq<AppVersion>): Request
    requires |o.key| == |o.value|
  {
    Request(ReleasePointer(o.release), o.appServer, o.environment, apps, ZipParameters(o.key, o.value),
            o.deploymentDate, o.executeShakedownTest)
  }

  /** The applications loop: one (name, version) pair per name, in order. */
  method ZipAppsLoop(names: seq<string>, versions: seq<string>) returns (apps: seq<AppVersion>)
    requires |names| <= |versions|
    ensures apps == ZipApps(names, versions)
  {
    apps := [];
    for i := 0 to |names|
      invariant apps == ZipApps(names[..i], versions[..i])
    {
      apps := apps + [AppVersion(names[i], versions[i])];
    }
    assert names[..|names|] == names;
  }

  /** The parameters loop: one (key, value) pair per key, in order. */
  method ZipParametersLoop(keys: seq<string>, values: seq<string>) returns (params: seq<Parameter>)
    requires |keys| <= |values|
    ensures params == ZipParameters(keys, values)
  {
    params := [];
    for i := 0 to |keys|
      invariant params == ZipParameters(keys[..i], values[..i])
    {
      params := params + [Parameter(keys[i], values[i])];
    }
    assert keys[..|keys|] == keys;
  }

  /** The copy loop: the applications of the source deployment, one by one, in order. */
  method CopyApps(source: seq<AppVersion>) returns (apps: seq<AppVersion>)
    ensures apps == source
  {
    apps := [];
    for i := 0 to |source|
      invariant apps == source[..i]
    {
      apps := apps + [AppVersion(source[i].applicationName, source[i].version)];
    }
  }

  /** The query for the latest deployment of the app server on the source environment. */
  function SourceOptions(o: CreateOptions): GetOptions
  {
    GetOptions([], [o.appServer], [], [o.fromEnvironment], -1, true)
  }

  function NoSourceMessage(environment: string): string
  {
    "There was an error on creating the deplyoment, no deployment found from environment: " + environment
  }

  /** The applications to deploy: from the source query, or zipped from the options. */
  function AppsStep(server: Server, h: seq<Call>, o: CreateOptions): Run<Result<seq<AppVersion>>>
    requires Valid(o)
  {
    if o.fromEnvironment != "" then
      var h' := h + [Get(QueryPath(SourceOptions(o)))];
      var answer := server.deployments(h');
      if answer.Err? then Run(Err(answer.msg), h')
      else if answer.value == [] then Run(Err(NoSourceMessage(o.fromEnvironment)), h')
      else Run(Ok(answer.value[0].apps), h')
    else Run(Ok(ZipApps(o.appName, o.appVersion)), h)
  }

  /** A deployment is finished once it has failed or succeeded. */
  predicate Finished(state: string)
  {
    state == StateFailed || state == StateSuccess
  }

  /** The query for one deployment by its tracking id. */
  function TrackingOptions(trackingId: int): GetOptions
  {
    GetOptions([], [], [], [], trackingId, false)
  }

  const NoDeploymentGet: string := "There was an error on creating the deplyoment, no deployment get"
  const Timeout: string := "Timeout on deployment"

  /** The poll from attempt `i` of `maxCounts` on: query; an error, or any count but one, ends
      with an error; a finished deployment ends the poll with it; otherwise the next attempt
      follows, or the timeout error after the last one. */
  function PollSpec(server: Server, h: seq<Call>, path: string, i: int, maxCounts: int): Run<Result<Deployment>>
    requires 0 <= i < maxCounts
    decreases maxCounts - i
  {
    var h' := h + [Get(path)];
    var answer := server.deployments(h');
    if answer.Err? then Run(Err(answer.msg), h')
    else if |answer.value| != 1 then Run(Err(NoDeploymentGet), h')
    else if Finished(answer.value[0].state) then Run(Ok(answer.value[0]), h')
    else if i < maxCounts - 1 then PollSpec(server, h', path, i + 1, maxCounts)
    else Run(Err(Timeout), h')
  }

  /** `n` queries of the same path. */
  function Gets(path: string, n: nat): (r: seq<Call>)
    ensures |r| == n && forall k :: 0 <= k < n ==> r[k] == Get(path)
  {
    seq(n, _ => Get(path))
  }

  /** A poll issues at least one and at most `maxCounts - i` queries, all of the same path. */
  lemma {:induction false} PollQueries(server: Server, h: seq<Call>, path: string, i: int, maxCounts: int)
    requires 0 <= i < maxCounts
    ensures var run := PollSpec(server, h, path, i, maxCounts);
            && |h| + 1 <= |run.history| <= |h| + maxCounts - i
            && run.history == h + Gets(path, |run.history| - |h|)
    decreases maxCounts - i
  {
    var h' := h + [Get(path)];
    var answer := server.deployments(h');
    assert h' == h + Gets(path, 1);
    if answer.Ok? && |answer.value| == 1 && !Finished(answer.value[0].state) && i < maxCounts - 1 {
      PollQueries(server, h', path, i + 1, maxCounts);
      var run := PollSpec(server, h', path, i + 1, maxCounts);
      assert h' + Gets(path, |run.history| - |h'|) == h + Gets(path, |run.history| - |h|);
    }
  }

  /** A poll that returns a deployment returns a finished one, the single one of its last answer. */
  lemma {:induction false} PollOkIsFinished(server: Server, h: seq<Call>, path: string, i: int, maxCounts: int)
    requires 0 <= i < maxCounts
    ensures var run := PollSpec(server, h, path, i, maxCounts);
            run.result.Ok? ==> Finished(run.result.value.state) && server.deployments(run.history) == Ok([run.result.value])
    decreases maxCounts - i
  {
    var h' := h + [Get(path)];
    var answer := server.deployments(h');
    if answer.Ok? && |answer.value| == 1 {
      assert answer.value == [answer.value[0]];
      if !Finished(answer.value[0].state) && i < maxCounts - 1 {
        PollOkIsFinished(server, h', path, i + 1, maxCounts);
      }
    }
  }

  /** The answer of attempt `k` was a single deployment that had not finished yet. */
  predicate StillRunning(answer: Result<seq<Deployment>>)
  {
    answer.Ok? && |answer.value| == 1 && !Finished(answer.value[0].state)
  }

  /** When every attempt sees the deployment still running, the poll uses all its attempts and
      ends with the timeout error, not with the last deployment seen. */
  lemma {:induction false} PollTimesOut(server: Server, h: seq<Call>, path: string, i: int, maxCounts: int)
    requires 0 <= i < maxCounts
    requires forall k :: 1 <= k <= maxCounts - i ==> StillRunning(server.deployments(h + Gets(path, k)))
    ensures PollSpec(server, h, path, i, maxCounts) == Run(Err(Timeout), h + Gets(path, maxCounts - i))
    decreases maxCounts - i
  {
    var h' := h + [Get(path)];
    assert h' == h + Gets(path, 1);
    if i < maxCounts - 1 {
      forall k | 1 <= k <= maxCounts - (i + 1)
        ensures StillRunning(server.deployments(h' + Gets(path, k)))
      {
        assert h' + Gets(path, k) == h + Gets(path, k + 1);
      }
      PollTimesOut(server, h', path, i + 1, maxCounts);
      assert h' + Gets(path, maxCounts - (i + 1)) == h + Gets(path, maxCounts - i);
    }
  }

  /** The poll stops at the first attempt that sees the deployment finished: when attempts
      `1 .. k-1` see it still running and attempt `k`, within the budget, sees it finished, the
      poll makes exactly `k` queries and returns that deployment. */
  lemma {:induction false} PollStopsAtFirstFinished(server: Server, h: seq<Call>, path: string, i: int, maxCounts: int,
                                                    k: int, d: Deployment)
    requires 0 <= i < maxCounts && 1 <= k <= maxCounts - i
    requires forall j :: 1 <= j < k ==> StillRunning(server.deployments(h + Gets(path, j)))
    requires server.deployments(h + Gets(path, k)) == Ok([d]) && Finished(d.state)
    ensures PollSpec(server, h, path, i, maxCounts) == Run(Ok(d), h + Gets(path, k))
    decreases k
  {
    var h' := h + [Get(path)];
    assert h' == h + Gets(path, 1);
    if k == 1 {
      assert [d][0] == d;
    } else {
      assert StillRunning(server.deployments(h + Gets(path, 1)));
      forall j | 1 <= j < k - 1
        ensures StillRunning(server.deployments(h' + Gets(path, j)))
      {
        assert h' + Gets(path, j) == h + Gets(path, j + 1);
      }
      assert h' + Gets(path, k - 1) == h + Gets(path, k);
      PollStopsAtFirstFinished(server, h', path, i + 1, maxCounts, k - 1, d);
    }
  }

  /** The poll loop of CreateDeployment, from its first attempt. */
  method Poll(server: Server, h0: seq<Call>, path: string, maxCounts: int) returns (r: Result<Deployment>, h: seq<Call>)
    requires maxCounts >= 1
    ensures Run(r, h) == PollSpec(server, h0, path, 0, maxCounts)
  {
    h := h0;
    var i := 0;
    while true
      invariant 0 <= i < maxCounts
      invariant PollSpec(server, h0, path, 0, maxCounts) == PollSpec(server, h, path, i, maxCounts)
      decreases maxCounts - i
    {
      h := h + [Get(path)];
      var deployments := server.deployments(h);
      if deployments.Err? {
        return Err(deployments.msg), h;
      }
      if |deployments.value| != 1 {
        return Err(NoDeploymentGet), h;
      }
      var response := deployments.value[0];
      if Finished(response.state) {
        return Ok(response), h;
      }
      if i < maxCounts - 1 {
        i := i + 1;
      } else {
        return Err(Timeout), h;
      }
    }
  }

  /** The applications step of CreateDeployment: the query of the source environment and the
      copy of its latest deployment's applications, or the zip loop. */
  method Apps(server: Server, h0: seq<Call>, o: CreateOptions) returns (apps: Result<seq<AppVersion>>, h: seq<Call>)
    requires Valid(o)
    ensures Run(apps, h) == AppsStep(server, h0, o)
  {
    h := h0;
    if o.fromEnvironment != "" {
      var deployments;
      deployments, h := GetDeployment(server, h, SourceOptions(o));
      if deployments.Err? {
        return Err(deployments.msg), h;
      }
      if |deployments.value| == 0 {
        return Err(NoSourceMessage(o.fromEnvironment)), h;
      }
      var lastDeployment := deployments.value[0];
      var copied := CopyApps(lastDeployment.apps);
      apps := Ok(copied);
    } else {
      var zipped := ZipAppsLoop(o.appName, o.appVersion);
      apps := Ok(zipped);
    }
  }

  /** The whole creation: validation, applications, the POST and the optional poll. */
  function CreateSpec(server: Server, h0: seq<Call>, o: CreateOptions): Run<Result<Deployment>>
  {
    if Violations(o) != [] then Run(Err(Join(Violations(o), ", ")), h0)
    else
      ViolationsIffInvalid(o);
      var apps := AppsStep(server, h0, o);
      if apps.result.Err? then Run(Err(apps.result.msg), apps.history)
      else
        var h1 := apps.history + [Post(DeploymentsPath, RequestFor(o, apps.result.value))];
        var created := server.created(h1);
        if created.Err? then Run(Err(created.msg), h1)
        else if o.wait && o.maxWaitTime > 5 then
          PollSpec(server, h1, QueryPath(TrackingOptions(created.value.trackingId)), 0, o.maxWaitTime / 5)
        else Run(Ok(created.value), h1)
  }

  /** CreateDeployment. */
  method CreateDeployment(server: Server, h0: seq<Call>, o: CreateOptions) returns (r: Result<Deployment>, h: seq<Call>)
    ensures Run(r, h) == CreateSpec(server, h0, o)
  {
    var err := Validate(o);
    if err.Some? {
      return Err(err.value), h0;
    }
    ViolationsIffInvalid(o);
    var apps;
    apps, h := Apps(server, h0, o);
    if apps.Err? {
      return Err(apps.msg), h;
    }
    var params := ZipParametersLoop(o.key, o.value);
    var request := Request(ReleasePointer(o.release), o.appServer, o.environment, apps.value, params,
                           o.deploymentDate, o.executeShakedownTest);
    h := h + [Post(DeploymentsPath, request)];
    var created := server.created(h);
    if created.Err? {
      return Err(created.msg), h;
    }
    if o.wait && o.maxWaitTime > 5 {
      r, h := Poll(server, h, QueryPath(TrackingOptions(created.value.trackingId)), o.maxWaitTime / 5);
      return;
    }
    r := Ok(created.value);
  }

  /** Invalid options end the creation with all messages before any call is made. */
  lemma InvalidMakesNoCall(server: Server, h0: seq<Call>, o: CreateOptions)
    requires !Valid(o)
    ensures CreateSpec(server, h0, o) == Run(Err(Join(Violations(o), ", ")), h0)
  {
    ViolationsIffInvalid(o);
  }

  /** After the POST, the calls made are the POST itself followed, when waiting, by at most
      `maxWaitTime / 5` queries of the tracking id, and otherwise by nothing. */
  lemma {:induction false} AfterPost(server: Server, h1: seq<Call>, o: CreateOptions, created: Result<Deployment>)
    requires created == server.created(h1)
    ensures var run := if created.Err? then Run(Err(created.msg), h1)
                       else if o.wait && o.maxWaitTime > 5 then
                         PollSpec(server, h1, QueryPath(TrackingOptions(created.value.trackingId)), 0, o.maxWaitTime / 5)
                       else Run(Ok(created.value), h1);
            && |h1| <= |run.history|
            && run.history[..|h1|] == h1
            && (o.wait && o.maxWaitTime > 5 && created.Ok? ==> |run.history| <= |h1| + o.maxWaitTime / 5)
            && (!(o.wait && o.maxWaitTime > 5) ==> run.history == h1)
  {
    if created.Ok? && o.wait && o.maxWaitTime > 5 {
      var path := QueryPath(TrackingOptions(created.value.trackingId));
      PollQueries(server, h1, path, 0, o.maxWaitTime / 5);
      var run := PollSpec(server, h1, path, 0, o.maxWaitTime / 5);
      assert run.history[..|h1|] == h1;
    }
  }

  /** Without a source environment, the first call is the POST of the request made of the
      options: release (nil when empty), app server, environment, the names zipped with the
      versions, the keys zipped with the values, the date and the shakedown flag. */
  lemma PostsNamedApps(server: Server, h0: seq<Call>, o: CreateOptions)
    requires Valid(o) && o.fromEnvironment == ""
    ensures var run := CreateSpec(server, h0, o);
            && |run.history| > |h0| && run.history[..|h0|] == h0
            && run.history[|h0|]
               == Post(DeploymentsPath,
                       Request(ReleasePointer(o.release), o.appServer, o.environment, ZipApps(o.appName, o.appVersion),
                               ZipParameters(o.key, o.value), o.deploymentDate, o.executeShakedownTest))
  {
    ViolationsIffInvalid(o);
    var h1 := h0 + [Post(DeploymentsPath, RequestFor(o, ZipApps(o.appName, o.appVersion)))];
    AfterPost(server, h1, o, server.created(h1));
    var run := CreateSpec(server, h0, o);
    assert run.history[..|h1|][..|h0|] == run.history[..|h0|];
  }

  /** With a source environment, the first call queries the latest deployment of the app server
      there; no result is an error, with no further call; otherwise the POST that follows carries
      the applications of the first deployment found. */
  lemma PostsSourceApps(server: Server, h0: seq<Call>, o: CreateOptions)
    requires Valid(o) && o.fromEnvironment != ""
    ensures var run := CreateSpec(server, h0, o);
            var q := h0 + [Get(QueryPath(SourceOptions(o)))];
            var answer := server.deployments(q);
            && |run.history| > |h0| && run.history[..|h0| + 1] == q
            && (answer == Ok([]) ==> run == Run(Err(NoSourceMessage(o.fromEnvironment)), q))
            && (answer.Ok? && answer.value != [] ==>
                  |run.history| > |q| && run.history[|q|] == Post(DeploymentsPath, RequestFor(o, answer.value[0].apps)))
  {
    ViolationsIffInvalid(o);
    var q := h0 + [Get(QueryPath(SourceOptions(o)))];
    var answer := server.deployments(q);
    var run := CreateSpec(server, h0, o);
    if answer.Ok? && answer.value != [] {
      var h1 := q + [Post(DeploymentsPath, RequestFor(o, answer.value[0].apps))];
      AfterPost(server, h1, o, server.created(h1));
      assert run.history[..|h1|][..|q|] == run.history[..|q|];
      assert run.history[..|h1|][|q|] == run.history[|q|];
    }
  }

  /** Without waiting, creation makes at most two calls and returns what the POST returned. */
  lemma NoWaitReturnsPosted(server: Server, h0: seq<Call>, o: CreateOptions)
    requires Valid(o) && !(o.wait && o.maxWaitTime > 5)
    ensures var run := CreateSpec(server, h0, o);
            && |run.history| <= |h0| + 2
            && (run.result.Ok? ==> run.history[|run.history| - 1].Post? && server.created(run.history) == run.result)
  {
    ViolationsIffInvalid(o);
  }

  /** When waiting, creation makes at most two calls plus `maxWaitTime / 5` queries, and a
      deployment it returns has finished: it failed or succeeded. */
  lemma WaitReturnsFinished(server: Server, h0: seq<Call>, o: CreateOptions)
    requires Valid(o) && o.wait && o.maxWaitTime > 5
    ensures var run := CreateSpec(server, h0, o);
            && |run.history| <= |h0| + 2 + o.maxWaitTime / 5
            && (run.result.Ok? ==> Finished(run.result.value.state))
  {
    ViolationsIffInvalid(o);
    var apps := AppsStep(server, h0, o);
    if apps.result.Ok? {
      var h1 := apps.history + [Post(DeploymentsPath, RequestFor(o, apps.result.value))];
      var created := server.created(h1);
      AfterPost(server, h1, o, created);
      if created.Ok? {
        PollOkIsFinished(server, h1, QueryPath(TrackingOptions(created.value.trackingId)), 0, o.maxWaitTime / 5);
      }
    }
  }
}
