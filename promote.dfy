/** client/promote_deployments.go: copying the latest successful deployments of one environment
    to another. The source list is filtered by black lists, one deployment is created per
    survivor until the first failure, and on request the created deployments are polled until
    all have finished. The filter, the per-item creation and the validation are shared with the
    install workflow. */
module Promote {
  import opened Wrappers
  import opened Text
  import opened QueryString
  import opened Api
  import opened DeploymentQuery
  import Create
  import ClientUtil

  /** The options of a promotion. */
  datatype PromoteOptions = PromoteOptions(
    environment: string,
    deploymentDate: string,
    executeShakedownTest: bool,
    wait: bool,
    maxWaitTime: int,
    fromEnvironment: string,
    whitelistAppServer: seq<string>,
    blacklistAppServer: seq<string>,
    blacklistRuntime: seq<string>,
    silent: bool)

  /** Deployments with an error, or an error alone, and the calls made. */
  datatype Outcome = Outcome(deployments: seq<Deployment>, err: Option<string>, history: seq<Call>)

  /** The messages of the two environment checks, in order. */
  function EnvironmentViolations(environment: string, fromEnvironment: string): seq<string>
  {
    ClientUtil.Failed(ClientUtil.ValidateSingleChar(environment), "want environment with one char, got " + environment)
    + ClientUtil.Failed(ClientUtil.ValidateSingleChar(fromEnvironment), "want FromEnvironment with one char, got " + fromEnvironment)
  }

  /** validate: no error exactly when both environments are single letters; otherwise the
      failed messages joined by ", ". */
  method ValidateEnvironments(environment: string, fromEnvironment: string) returns (err: Option<string>)
    ensures err.None? <==> ClientUtil.ValidateSingleChar(environment) && ClientUtil.ValidateSingleChar(fromEnvironment)
    ensures err.Some? ==> err.value == Join(EnvironmentViolations(environment, fromEnvironment), ", ")
  {
    var errors := new ClientUtil.ErrorList();
    errors.Check(ClientUtil.ValidateSingleChar(environment), "want environment with one char, got " + environment);
    errors.Check(ClientUtil.ValidateSingleChar(fromEnvironment), "want FromEnvironment with one char, got " + fromEnvironment);
    assert errors.messages == EnvironmentViolations(environment, fromEnvironment);
    if |errors.messages| > 0 {
      return Some(Join(errors.messages, ", "));
    }
    err := None;
  }

  /** Whether a deployment of the source list is copied: its app server and its runtime are not
      black-listed (compared after trimming) and it succeeded. */
  function Survives(d: Deployment, blacklistAppServer: seq<string>, blacklistRuntime: seq<string>): (b: bool)
    ensures b <==> d.state == StateSuccess
                   && (forall i :: 0 <= i < |blacklistAppServer| ==> TrimSpace(blacklistAppServer[i]) != TrimSpace(d.appServerName))
                   && (forall i :: 0 <= i < |blacklistRuntime| ==> TrimSpace(blacklistRuntime[i]) != TrimSpace(d.runtimeName))
  {
    !ClientUtil.Contains(d.appServerName, blacklistAppServer) && d.state == StateSuccess
    && !ClientUtil.Contains(d.runtimeName, blacklistRuntime)
  }

  /** The elements of `s` that `keep` accepts, in their original order. */
  function Kept<T>(s: seq<T>, keep: T -> bool): seq<T>
    decreases |s|
  {
    if s == [] then [] else (if keep(s[0]) then [s[0]] else []) + Kept(s[1..], keep)
  }

  /** An element is kept exactly when it is in the list and accepted. */
  lemma {:induction false} KeptMembers<T>(s: seq<T>, keep: T -> bool, x: T)
    ensures x in Kept(s, keep) <==> x in s && keep(x)
    decreases |s|
  {
    if s != [] {
      KeptMembers(s[1..], keep, x);
      assert s == [s[0]] + s[1..];
    }
  }

  /** Filtering keeps the relative order: what is kept of a concatenation is what is kept of
      each part, one after the other. */
  lemma {:induction false} KeptAppend<T>(a: seq<T>, b: seq<T>, keep: T -> bool)
    ensures Kept(a + b, keep) == Kept(a, keep) + Kept(b, keep)
    decreases |a|
  {
    if a != [] {
      assert (a + b)[1..] == a[1..] + b;
      KeptAppend(a[1..], b, keep);
    } else {
      assert a + b == b;
    }
  }

  /** Removing position `i` when it is not accepted, or keeping it when it is, extends the
      filtered tail by one position. */
  lemma RemovalStep<T>(s: seq<T>, r: seq<T>, i: int, keep: T -> bool)
    requires 0 <= i < |s|
    requires r == s[..i + 1] + Kept(s[i + 1..], keep)
    ensures |r| > i && r[i] == s[i]
    ensures (if keep(r[i]) then r else r[..i] + r[i + 1..]) == s[..i] + Kept(s[i..], keep)
  {
    assert s[i..][1..] == s[i + 1..];
    var rest := Kept(s[i + 1..], keep);
    assert r[..i] == s[..i] && r[i] == s[i] && r[i + 1..] == rest;
    if keep(r[i]) {
      assert r == s[..i] + ([s[i]] + rest);
    }
  }

  /** The survival test as a function. */
  function SurvivesUnder(bla: seq<string>, blr: seq<string>): Deployment -> bool
  {
    d => Survives(d, bla, blr)
  }

  /** The surviving deployments, in their original order. */
  function Survivors(ds: seq<Deployment>, bla: seq<string>, blr: seq<string>): seq<Deployment>
  {
    Kept(ds, SurvivesUnder(bla, blr))
  }

  /** A deployment survives the filter exactly when it is in the list and passes the test. */
  lemma SurvivorsAreThePassing(ds: seq<Deployment>, bla: seq<string>, blr: seq<string>, d: Deployment)
    ensures d in Survivors(ds, bla, blr) <==> d in ds && Survives(d, bla, blr)
  {
    KeptMembers(ds, SurvivesUnder(bla, blr), d);
  }

  /** The survivors of a concatenation are the survivors of each part, in order. */
  lemma SurvivorsKeepOrder(a: seq<Deployment>, b: seq<Deployment>, bla: seq<string>, blr: seq<string>)
    ensures Survivors(a + b, bla, blr) == Survivors(a, bla, blr) + Survivors(b, bla, blr)
  {
    KeptAppend(a, b, SurvivesUnder(bla, blr));
  }

  /** The backwards removal loop: every deployment that does not survive is cut out of the
      list in place, leaving exactly the survivors in their order. */
  method RemoveExcluded(ds: seq<Deployment>, bla: seq<string>, blr: seq<string>) returns (r: seq<Deployment>)
    ensures r == Survivors(ds, bla, blr)
  {
    var keep := SurvivesUnder(bla, blr);
    r := ds;
    var i := |ds|;
    assert ds[|ds|..] == [];
    while i > 0
      invariant 0 <= i <= |ds|
      invariant r == ds[..i] + Kept(ds[i..], keep)
    {
      i := i - 1;
      RemovalStep(ds, r, i, keep);
      if !keep(r[i]) {
        r := r[..i] + r[i + 1..];
      }
    }
    assert ds[0..] == ds;
  }

  /** The creation options for one survivor: its app server, its release and its applications,
      with the target environment and date. Nothing else is set: no parameters, no waiting, no
      source environment, and the shakedown flag stays false. */
  function CreateOptionsFor(d: Deployment, environment: string, date: string): Create.CreateOptions
  {
    Create.CreateOptions(d.appServerName, AppNames(d.apps), AppVersions(d.apps), environment, d.releaseName,
                         date, false, [], [], false, 0, "")
  }

  /** The unzip loop: names and versions filled into slices made to the right length. */
  method UnzipApps(apps: seq<AppVersion>) returns (names: seq<string>, versions: seq<string>)
    ensures names == AppNames(apps) && versions == AppVersions(apps)
  {
    var appName := new string[|apps|];
    var appVersion := new string[|apps|];
    for i := 0 to |apps|
      invariant forall k :: 0 <= k < i ==> appName[k] == apps[k].applicationName && appVersion[k] == apps[k].version
    {
      appName[i] := apps[i].applicationName;
      appVersion[i] := apps[i].version;
    }
    names, versions := appName[..], appVersion[..];
  }

  /** Building the creation options of one survivor. */
  method OptionsFor(d: Deployment, environment: string, date: string) returns (c: Create.CreateOptions)
    ensures c == CreateOptionsFor(d, environment, date)
  {
    var names, versions := UnzipApps(d.apps);
    c := Create.CreateOptions(d.appServerName, names, versions, environment, d.releaseName, date, false, [], [], false, 0, "");
  }

  /** The options for a survivor are valid exactly when it has an app server and applications
      and the target environment is one letter. */
  lemma OptionsForValid(d: Deployment, environment: string, date: string)
    ensures Create.Valid(CreateOptionsFor(d, environment, date))
            <==> d.appServerName != "" && d.apps != [] && ClientUtil.ValidateSingleChar(environment)
  {
  }

  /** A survivor is re-created with exactly its applications, its release (nil when empty),
      no parameters and no shakedown test, whatever the promotion asked for. */
  lemma PromotedRequest(server: Server, h: seq<Call>, d: Deployment, environment: string, date: string)
    requires d.appServerName != "" && d.apps != [] && ClientUtil.ValidateSingleChar(environment)
    ensures var run := Create.CreateSpec(server, h, CreateOptionsFor(d, environment, date));
            |run.history| > |h|
            && run.history[|h|] == Post(DeploymentsPath, Request(Create.ReleasePointer(d.releaseName), d.appServerName,
                                                                  environment, d.apps, [], date, false))
  {
    var c := CreateOptionsFor(d, environment, date);
    Create.PostsNamedApps(server, h, c);
    ZipUnzip(d.apps);
  }

  /** One creation per deployment in order, stopping at the first error with the deployments
      created before it. */
  function CreateEach(server: Server, h: seq<Call>, ds: seq<Deployment>, environment: string, date: string): Outcome
    decreases |ds|
  {
    if ds == [] then Outcome([], None, h)
    else
      var run := Create.CreateSpec(server, h, CreateOptionsFor(ds[0], environment, date));
      if run.result.Err? then Outcome([], Some(run.result.msg), run.history)
      else
        var rest := CreateEach(server, run.history, ds[1..], environment, date);
        Outcome([run.result.value] + rest.deployments, rest.err, rest.history)
  }

  /** Without an error every deployment was created; after one, fewer were. */
  lemma {:induction false} CreateEachCount(server: Server, h: seq<Call>, ds: seq<Deployment>, environment: string, date: string)
    ensures var out := CreateEach(server, h, ds, environment, date);
            && (out.err.None? ==> |out.deployments| == |ds|)
            && (out.err.Some? ==> |out.deployments| < |ds|)
    decreases |ds|
  {
    if ds != [] {
      var run := Create.CreateSpec(server, h, CreateOptionsFor(ds[0], environment, date));
      if run.result.Ok? {
        CreateEachCount(server, run.history, ds[1..], environment, date);
      }
    }
  }

  /** Creation happens one deployment at a time, in order. For every position `j` up to the
      number created: the first `j` deployments alone are created without error, giving exactly
      the first `j` results; creating deployment `j` after them yields result `j` when there is
      one, and otherwise fails with the reported error, which ends the sequence. */
  lemma {:induction false} CreatedInOrder(server: Server, h: seq<Call>, ds: seq<Deployment>, environment: string, date: string, j: int)
    requires 0 <= j < |ds|
    requires j <= |CreateEach(server, h, ds, environment, date).deployments|
    ensures var out := CreateEach(server, h, ds, environment, date);
            var before := CreateEach(server, h, ds[..j], environment, date);
            var run := Create.CreateSpec(server, before.history, CreateOptionsFor(ds[j], environment, date));
            && before.err.None? && before.deployments == out.deployments[..j]
            && (j < |out.deployments| ==> run.result == Ok(out.deployments[j]))
            && (j == |out.deployments| ==> out.err.Some? && run == Create.Run(Err(out.err.value), out.history))
    decreases j
  {
    if j == 0 {
      CreatedFirst(server, h, ds, environment, date);
    } else {
      var run0 := Create.CreateSpec(server, h, CreateOptionsFor(ds[0], environment, date));
      CreateEachStep(server, h, ds, 0, environment, date);
      assert ds[0..] == ds;
      assert run0.result.Ok?;
      var v := run0.result.value;
      var rest := CreateEach(server, run0.history, ds[1..], environment, date);
      var out := CreateEach(server, h, ds, environment, date);
      assert out == Prefixed([v], rest);
      CreatedInOrder(server, run0.history, ds[1..], environment, date, j - 1);
      PrefixStep(server, h, ds, j, environment, date);
      assert ds[1..][j - 1] == ds[j];
      var before' := CreateEach(server, run0.history, ds[1..][..j - 1], environment, date);
      assert before'.deployments == rest.deployments[..j - 1];
      assert out.deployments == [v] + rest.deployments;
      TakeAfterHead(v, rest.deployments, j);
    }
  }

  /** Taking `j` elements of a list with a head takes `j - 1` of its tail. */
  lemma TakeAfterHead<T>(v: T, r: seq<T>, j: int)
    requires 1 <= j <= |r| + 1
    ensures ([v] + r)[..j] == [v] + r[..j - 1]
  {
  }

  /** `CreatedInOrder` at the first position: nothing comes before it. */
  lemma CreatedFirst(server: Server, h: seq<Call>, ds: seq<Deployment>, environment: string, date: string)
    requires 0 < |ds|
    ensures var out := CreateEach(server, h, ds, environment, date);
            var run := Create.CreateSpec(server, h, CreateOptionsFor(ds[0], environment, date));
            && CreateEach(server, h, ds[..0], environment, date) == Outcome([], None, h)
            && (0 < |out.deployments| ==> run.result == Ok(out.deployments[0]))
            && (0 == |out.deployments| ==> out.err.Some? && run == Create.Run(Err(out.err.value), out.history))
  {
    assert ds[..0] == [];
  }

  /** The creation of a prefix of length `j` starts with the first deployment. */
  lemma PrefixStep(server: Server, h: seq<Call>, ds: seq<Deployment>, j: int, environment: string, date: string)
    requires 1 <= j <= |ds|
    ensures var run0 := Create.CreateSpec(server, h, CreateOptionsFor(ds[0], environment, date));
            run0.result.Ok? ==>
              CreateEach(server, h, ds[..j], environment, date)
              == Prefixed([run0.result.value], CreateEach(server, run0.history, ds[1..][..j - 1], environment, date))
  {
    assert ds[..j][0] == ds[0] && ds[..j][1..] == ds[1..][..j - 1];
  }

  /** After an error, the deployments before the failing one were all created, giving exactly
      the returned list, and creating the failing one ended with the reported error and the
      final history. */
  lemma FirstErrorEndsCreation(server: Server, h: seq<Call>, ds: seq<Deployment>, environment: string, date: string)
    requires CreateEach(server, h, ds, environment, date).err.Some?
    ensures var out := CreateEach(server, h, ds, environment, date);
            var n := |out.deployments|;
            && n < |ds|
            && var before := CreateEach(server, h, ds[..n], environment, date);
               && before == Outcome(out.deployments, None, before.history)
               && Create.CreateSpec(server, before.history, CreateOptionsFor(ds[n], environment, date))
                  == Create.Run(Err(out.err.value), out.history)
  {
    CreateEachCount(server, h, ds, environment, date);
    var out := CreateEach(server, h, ds, environment, date);
    var n := |out.deployments|;
    CreatedInOrder(server, h, ds, environment, date, n);
    var before := CreateEach(server, h, ds[..n], environment, date);
    assert out.deployments[..n] == out.deployments;
    assert before == Outcome(before.deployments, before.err, before.history);
  }

  /** The results of `c` prefixed to an outcome. */
  function Prefixed(c: seq<Deployment>, out: Outcome): Outcome
  {
    Outcome(c + out.deployments, out.err, out.history)
  }

  /** Prefixing twice is prefixing the concatenation. */
  lemma PrefixedTwice(a: seq<Deployment>, b: seq<Deployment>, out: Outcome)
    ensures Prefixed(a, Prefixed(b, out)) == Prefixed(a + b, out)
  {
    assert a + (b + out.deployments) == (a + b) + out.deployments;
  }

  /** One step of the creation sequence, at position `i`. */
  lemma CreateEachStep(server: Server, h: seq<Call>, ds: seq<Deployment>, i: int, environment: string, date: string)
    requires 0 <= i < |ds|
    ensures var run := Create.CreateSpec(server, h, CreateOptionsFor(ds[i], environment, date));
            CreateEach(server, h, ds[i..], environment, date)
            == if run.result.Err? then Outcome([], Some(run.result.msg), run.history)
               else Prefixed([run.result.value], CreateEach(server, run.history, ds[i + 1..], environment, date))
  {
    assert ds[i..][1..] == ds[i + 1..];
  }

  /** The creation loop: one CreateDeployment per survivor, returning at the first error. */
  method CreateAll(server: Server, h0: seq<Call>, ds: seq<Deployment>, environment: string, date: string)
    returns (created: seq<Deployment>, err: Option<string>, h: seq<Call>)
    ensures Outcome(created, err, h) == CreateEach(server, h0, ds, environment, date)
  {
    created, h := [], h0;
    assert [] + CreateEach(server, h0, ds, environment, date).deployments == CreateEach(server, h0, ds, environment, date).deployments;
    for i := 0 to |ds|
      invariant CreateEach(server, h0, ds, environment, date) == Prefixed(created, CreateEach(server, h, ds[i..], environment, date))
    {
      CreateEachStep(server, h, ds, i, environment, date);
      var options := OptionsFor(ds[i], environment, date);
      var deployment;
      deployment, h := Create.CreateDeployment(server, h, options);
      if deployment.Err? {
        assert created + [] == created;
        return created, Some(deployment.msg), h;
      }
      PrefixedTwice(created, [deployment.value], CreateEach(server, h, ds[i + 1..], environment, date));
      created := created + [deployment.value];
    }
    err := None;
    assert created + [] == created;
  }

  /** Go's `/` on ints, which truncates toward zero. */
  function GoDiv(a: int, b: int): (q: int)
    requires b > 0
    ensures a >= 0 ==> q == a / b
    ensures a < 0 ==> q == -((-a) / b)
  {
    if a >= 0 then a / b else -((-a) / b)
  }

  const SleepTime: int := 60

  /** The number of polls after the first: max(1, maxWaitTime / 60). */
  function MaxCounts(maxWaitTime: int): (m: int)
    ensures m >= 1
    ensures m >= GoDiv(maxWaitTime, SleepTime) && (m == 1 || m == GoDiv(maxWaitTime, SleepTime))
  {
    var q := GoDiv(maxWaitTime, SleepTime);
    if q > 1 then q else 1
  }

  /** The default wait of ten minutes gives ten sleeps; anything under two minutes gives one. */
  lemma MaxCountsExamples(w: int)
    requires w < 120
    ensures MaxCounts(600) == 10 && MaxCounts(w) == 1
  {
  }

  /** All deployments have failed or succeeded. */
  predicate AllFinished(ds: seq<Deployment>)
  {
    forall k :: 0 <= k < |ds| ==> Create.Finished(ds[k].state)
  }

  /** The finished-check loop over one answer. */
  method AllFinishedLoop(ds: seq<Deployment>) returns (allfinished: bool)
    ensures allfinished <==> AllFinished(ds)
  {
    allfinished := true;
    for k := 0 to |ds|
      invariant allfinished <==> AllFinished(ds[..k])
    {
      allfinished := allfinished && Create.Finished(ds[k].state);
    }
    assert ds[..|ds|] == ds;
  }

  const NoResults: string := "There was an error on checking the deplyoments, no deployment found"
  const BatchTimeout: string := "Timeout on checking deployment results"

  /** The batch poll from attempt `i` (of attempts 0 to `maxCounts`) on: an error or an empty
      answer ends it with an error and no deployments; an all-finished answer ends it with that
      answer; otherwise the next attempt follows, or, after the last, the timeout error together
      with the last answer. */
  function BatchSpec(server: Server, h: seq<Call>, path: string, i: int, maxCounts: int): Outcome
    requires 0 <= i <= maxCounts
    decreases maxCounts - i
  {
    var h' := h + [Get(path)];
    var answer := server.deployments(h');
    if answer.Err? then Outcome([], Some(answer.msg), h')
    else if answer.value == [] then Outcome([], Some(NoResults), h')
    else if AllFinished(answer.value) then Outcome(answer.value, None, h')
    else if i < maxCounts then BatchSpec(server, h', path, i + 1, maxCounts)
    else Outcome(answer.value, Some(BatchTimeout), h')
  }

  /** The batch poll issues at least one and at most `maxCounts - i + 1` queries, all of the
      same path. */
  lemma {:induction false} BatchQueries(server: Server, h: seq<Call>, path: string, i: int, maxCounts: int)
    requires 0 <= i <= maxCounts
    ensures var out := BatchSpec(server, h, path, i, maxCounts);
            && |h| + 1 <= |out.history| <= |h| + maxCounts - i + 1
            && out.history == h + Create.Gets(path, |out.history| - |h|)
    decreases maxCounts - i
  {
    var h' := h + [Get(path)];
    var answer := server.deployments(h');
    assert h' == h + Create.Gets(path, 1);
    if answer.Ok? && answer.value != [] && !AllFinished(answer.value) && i < maxCounts {
      BatchQueries(server, h', path, i + 1, maxCounts);
      var out := BatchSpec(server, h', path, i + 1, maxCounts);
      assert h' + Create.Gets(path, |out.history| - |h'|) == h + Create.Gets(path, |out.history| - |h|);
    }
  }

  /** A batch poll without error returns a non-empty answer in which everything has finished. */
  lemma {:induction false} BatchOkIsFinished(server: Server, h: seq<Call>, path: string, i: int, maxCounts: int)
    requires 0 <= i <= maxCounts
    ensures var out := BatchSpec(server, h, path, i, maxCounts);
            out.err.None? ==> out.deployments != [] && AllFinished(out.deployments)
                              && server.deployments(out.history) == Ok(out.deployments)
    decreases maxCounts - i
  {
    var h' := h + [Get(path)];
    var answer := server.deployments(h');
    if answer.Ok? && answer.value != [] && !AllFinished(answer.value) && i < maxCounts {
      BatchOkIsFinished(server, h', path, i + 1, maxCounts);
    }
  }

  /** Some deployment of a non-empty answer is still running. */
  predicate SomeStillRunning(answer: Result<seq<Deployment>>)
  {
    answer.Ok? && answer.value != [] && !AllFinished(answer.value)
  }

  /** When every attempt sees a deployment still running, the batch poll uses all its
      attempts and returns the timeout error together with the last answer. */
  lemma {:induction false} BatchTimesOut(server: Server, h: seq<Call>, path: string, i: int, maxCounts: int)
    requires 0 <= i <= maxCounts
    requires forall k :: 1 <= k <= maxCounts - i + 1 ==> SomeStillRunning(server.deployments(h + Create.Gets(path, k)))
    ensures var last := h + Create.Gets(path, maxCounts - i + 1);
            server.deployments(last).Ok?
            && BatchSpec(server, h, path, i, maxCounts) == Outcome(server.deployments(last).value, Some(BatchTimeout), last)
    decreases maxCounts - i
  {
    var h' := h + [Get(path)];
    assert h' == h + Create.Gets(path, 1);
    if i < maxCounts {
      forall k | 1 <= k <= maxCounts - (i + 1) + 1
        ensures SomeStillRunning(server.deployments(h' + Create.Gets(path, k)))
      {
        assert h' + Create.Gets(path, k) == h + Create.Gets(path, k + 1);
      }
      BatchTimesOut(server, h', path, i + 1, maxCounts);
      assert h' + Create.Gets(path, maxCounts - (i + 1) + 1) == h + Create.Gets(path, maxCounts - i + 1);
    }
  }

  /** The batch poll stops at the first answer in which everything has finished: when answers
      `1 .. k-1` still show a running deployment and answer `k`, within the budget, is non-empty
      and all finished, the poll makes exactly `k` queries and returns answer `k` without error. */
  lemma {:induction false} BatchStopsAtFirstFinished(server: Server, h: seq<Call>, path: string, i: int, maxCounts: int, k: int)
    requires 0 <= i <= maxCounts && 1 <= k <= maxCounts - i + 1
    requires forall j :: 1 <= j < k ==> SomeStillRunning(server.deployments(h + Create.Gets(path, j)))
    requires var answer := server.deployments(h + Create.Gets(path, k));
             answer.Ok? && answer.value != [] && AllFinished(answer.value)
    ensures var last := h + Create.Gets(path, k);
            BatchSpec(server, h, path, i, maxCounts) == Outcome(server.deployments(last).value, None, last)
    decreases k
  {
    var h' := h + [Get(path)];
    assert h' == h + Create.Gets(path, 1);
    if k > 1 {
      assert SomeStillRunning(server.deployments(h + Create.Gets(path, 1)));
      forall j | 1 <= j < k - 1
        ensures SomeStillRunning(server.deployments(h' + Create.Gets(path, j)))
      {
        assert h' + Create.Gets(path, j) == h + Create.Gets(path, j + 1);
      }
      assert h' + Create.Gets(path, k - 1) == h + Create.Gets(path, k);
      BatchStopsAtFirstFinished(server, h', path, i + 1, maxCounts, k - 1);
    }
  }

  /** checkDeploymentResults: the batch poll loop. */
  method CheckDeploymentResults(server: Server, h0: seq<Call>, filter: GetOptions, maxWaitTime: int)
    returns (checked: seq<Deployment>, err: Option<string>, h: seq<Call>)
    ensures Outcome(checked, err, h) == BatchSpec(server, h0, QueryPath(filter), 0, MaxCounts(maxWaitTime))
  {
    var maxCounts := MaxCounts(maxWaitTime);
    h := h0;
    var i := 0;
    while true
      invariant 0 <= i <= maxCounts
      invariant BatchSpec(server, h0, QueryPath(filter), 0, maxCounts) == BatchSpec(server, h, QueryPath(filter), i, maxCounts)
      decreases maxCounts - i
    {
      var deployments;
      deployments, h := GetDeployment(server, h, filter);
      if deployments.Err? {
        return [], Some(deployments.msg), h;
      }
      if |deployments.value| == 0 {
        return [], Some(NoResults), h;
      }
      checked := deployments.value;
      var allfinished := AllFinishedLoop(deployments.value);
      if allfinished {
        return checked, None, h;
      }
      if i < maxCounts {
        i := i + 1;
      } else {
        return checked, Some(BatchTimeout), h;
      }
    }
  }

  /** The query for the latest deployments of the source environment, limited to the white
      list when it is not empty. */
  function SourceFilter(o: PromoteOptions): GetOptions
  {
    GetOptions([], o.whitelistAppServer, [], [o.fromEnvironment], -1, true)
  }

  /** The query for the created deployments: the target environment and their app servers. */
  function WaitFilter(o: PromoteOptions, created: seq<Deployment>): GetOptions
  {
    GetOptions([], AppServerNames(created), [], [o.environment], -1, true)
  }

  function NoSourceMessage(environment: string): string
  {
    "There was an error on creating the deplyoment, no deployment found from environment: " + environment + " "
  }

  /** The whole promotion. */
  function PromoteSpec(server: Server, h0: seq<Call>, o: PromoteOptions): Outcome
  {
    var violations := EnvironmentViolations(o.environment, o.fromEnvironment);
    if violations != [] then Outcome([], Some(Join(violations, ", ")), h0)
    else
      var h1 := h0 + [Get(QueryPath(SourceFilter(o)))];
      var answer := server.deployments(h1);
      if answer.Err? then Outcome([], Some(answer.msg), h1)
      else if answer.value == [] then Outcome([], Some(NoSourceMessage(o.fromEnvironment)), h1)
      else
        var batch := CreateEach(server, h1, Survivors(answer.value, o.blacklistAppServer, o.blacklistRuntime),
                                o.environment, o.deploymentDate);
        if batch.err.Some? || !o.wait then batch
        else BatchSpec(server, batch.history, QueryPath(WaitFilter(o, batch.deployments)), 0, MaxCounts(o.maxWaitTime))
  }

  /** The app-server list of the wait filter, appended one by one. */
  method AppServerList(created: seq<Deployment>) returns (names: seq<string>)
    ensures names == AppServerNames(created)
  {
    names := [];
    for k := 0 to |created|
      invariant names == AppServerNames(created[..k])
    {
      names := names + [created[k].appServerName];
    }
    assert created[..|created|] == created;
  }

  /** PromoteDeployments. */
  method PromoteDeployments(server: Server, h0: seq<Call>, o: PromoteOptions)
    returns (deployments: seq<Deployment>, err: Option<string>, h: seq<Call>)
    ensures Outcome(deployments, err, h) == PromoteSpec(server, h0, o)
  {
    var invalid := ValidateEnvironments(o.environment, o.fromEnvironment);
    if invalid.Some? {
      return [], invalid, h0;
    }
    var filter := SourceFilter(o);
    var source;
    source, h := GetDeployment(server, h0, filter);
    if source.Err? {
      return [], Some(source.msg), h;
    }
    if |source.value| == 0 {
      return [], Some(NoSourceMessage(o.fromEnvironment)), h;
    }
    var survivors := RemoveExcluded(source.value, o.blacklistAppServer, o.blacklistRuntime);
    var created;
    created, err, h := CreateAll(server, h, survivors, o.environment, o.deploymentDate);
    if err.Some? {
      return created, err, h;
    }
    if o.wait {
      var appServers := AppServerList(created);
      filter := filter.(environment := [o.environment], appServer := appServers);
      deployments, err, h := CheckDeploymentResults(server, h, filter, o.maxWaitTime);
      return;
    }
    deployments := created;
  }

  /** Invalid environments end the promotion before any call. */
  lemma InvalidMakesNoCall(server: Server, h0: seq<Call>, o: PromoteOptions)
    requires !(ClientUtil.ValidateSingleChar(o.environment) && ClientUtil.ValidateSingleChar(o.fromEnvironment))
    ensures PromoteSpec(server, h0, o).history == h0 && PromoteSpec(server, h0, o).deployments == []
    ensures PromoteSpec(server, h0, o).err.Some?
  {
  }

  /** An empty source environment is an error after the one query: nothing is created. */
  lemma EmptySourceCreatesNothing(server: Server, h0: seq<Call>, o: PromoteOptions)
    requires ClientUtil.ValidateSingleChar(o.environment) && ClientUtil.ValidateSingleChar(o.fromEnvironment)
    requires server.deployments(h0 + [Get(QueryPath(SourceFilter(o)))]) == Ok([])
    ensures PromoteSpec(server, h0, o)
            == Outcome([], Some(NoSourceMessage(o.fromEnvironment)), h0 + [Get(QueryPath(SourceFilter(o)))])
  {
  }

  /** A creation error ends the promotion with fewer deployments than survivors, and the wait
      is skipped; without an error and without waiting, every survivor was created. */
  lemma CreationOutcome(server: Server, h0: seq<Call>, o: PromoteOptions)
    requires ClientUtil.ValidateSingleChar(o.environment) && ClientUtil.ValidateSingleChar(o.fromEnvironment)
    requires server.deployments(h0 + [Get(QueryPath(SourceFilter(o)))]).Ok?
    ensures var h1 := h0 + [Get(QueryPath(SourceFilter(o)))];
            var survivors := Survivors(server.deployments(h1).value, o.blacklistAppServer, o.blacklistRuntime);
            var batch := CreateEach(server, h1, survivors, o.environment, o.deploymentDate);
            var out := PromoteSpec(server, h0, o);
            && (batch.err.Some? ==> out == batch && |out.deployments| < |survivors|)
            && (batch.err.None? && !o.wait && server.deployments(h1).value != [] ==> out == batch && |out.deployments| == |survivors|)
  {
    var h1 := h0 + [Get(QueryPath(SourceFilter(o)))];
    var survivors := Survivors(server.deployments(h1).value, o.blacklistAppServer, o.blacklistRuntime);
    CreateEachCount(server, h1, survivors, o.environment, o.deploymentDate);
  }

  /** The wait queries the target environment for the app servers created, in creation order,
      and, when nothing was created, for the whole target environment. */
  lemma WaitQueryParameters(o: PromoteOptions, created: seq<Deployment>)
    ensures Pieces(Fields(WaitFilter(o, created)), true)
            == (if created != [] then ["appServerName" + "=" + TrimRight(Join(AppServerNames(created), ","), ',')] else [])
               + ["environmentName" + "=" + TrimRight(Join([o.environment], ","), ',')]
               + ["onlyLatest" + "=" + BoolString(true)]
  {
    QueryParameters(WaitFilter(o, created));
  }
}
