# liimactl deployment orchestration, modelled in Dafny

liimactl is a command-line client for the Liima deployment server. This project models its
deployment-orchestration core:

- building query strings from option structs (two `BuildCommandURL` variants);
- the small validators: `Check`, `ValidateSingleChar`, `Contains` and the TLS/config checks;
- creating one deployment: validation, building the request, the POST and the bounded poll;
- promoting an environment: source query, black-list filter, one creation per survivor, and
  the optional batch poll;
- installing an environment: raw JSON filter, black-list file, confirmation gate and
  per-survivor creation;
- the promote command's report order and its success verdict;
- the orderings of deployment and host-name lists.

The server is an oracle. `Api.Server` holds three functions from the history of calls made so
far (`Get`, `GetFiltered`, `Post`) to an answer: a deployment list, a created deployment or a
host-name list, each possibly an error. Every workflow is a method that takes the server and the
history so far. It returns its result and the new history. It is proved equal to a
specification function (`Create.CreateSpec`, `Promote.PromoteSpec`, `Install.InstallSpec`, the
poll specifications). The lemmas state what the source promises about those functions: which
calls are made, how many, in which order, and what comes back on every error path.

Module layout follows the source files:

| module | source |
|---|---|
| `Wrappers`, `Text` | `Option`/`Result`; the parts of Go's `strings`, `strconv` and `fmt` used |
| `QueryString`, `ClientUtil` | client/util/common.go |
| `CmdUtil` | cmd/util/common.go |
| `Api` | the request and response types, calls and the server oracle |
| `Sorting` | `sort.Sort`/`sort.Slice` with the `Swap` of both list types |
| `DeploymentQuery` | client/get_deployment.go |
| `DeploymentFilter` | client/get_deployment_filter.go |
| `Hostnames` | client/hostname.go |
| `Config` | client/config.go and the validation in `NewClient` (client/client.go) |
| `Create` | client/create_deployment.go |
| `Promote` | client/promote_deployments.go |
| `Install` | client/install_deployment.go |
| `PromoteCommand` | cmd/deployment/promote.go |

Where the files disagree with each other, the model follows these choices:

- In client/get_deployment.go, `GetDeployment` returns only the list and treats a transport
  error as fatal. Its callers in create_deployment.go and promote_deployments.go take a list
  and an error. The model returns the server's answer, list or error, and the callers handle
  the error as they are written.
- The `validate` of client/install_deployment.go is the same two checks with the same
  messages as the one in client/promote_deployments.go. Both are modelled by
  `Promote.ValidateEnvironments`. The black-list filter loops are identical too: both are
  `Promote.RemoveExcluded`. The per-survivor creation loop is
  `Promote.CreateAll` in both. They differ only in what happens at the first creation error.
  Promote returns the deployments created so far together with the error. Install stops with
  the fatal "Error Create Deployment: " message and discards the partial list
  (`Install.InstallSpec`).

## Model

| member | source | states |
|---|---|---|
| ClientUtil.BuildCommandURL | client/util/common.go:17-59 | The string the field loop builds and trims is exactly the emitted fields rendered in declaration order and joined by '&', with every trailing '&' removed (`CommandURL` with the -1 sentinel). |
| QueryString.SkippedFieldIsOmitted | client/util/common.go:26-45 | A field that is not emitted (an empty slice, or an int equal to -1 in the client variant) can be removed anywhere without changing the query string. |
| QueryString.EmptySliceIsOmitted | client/util/common.go:27-30 | An empty slice field contributes nothing to the query string, in both variants. |
| QueryString.SliceRendersCommaJoined | client/util/common.go:31-38 | A non-empty slice renders as `tag=` followed by its elements joined by ',' in order, when its last element neither is empty nor ends with ','. |
| QueryString.TrailingEmptyElementVanishes | client/util/common.go:38 | The comma trim also strips trailing empty elements: a slice with an extra trailing "" renders the same as without it. |
| QueryString.SentinelOnlyDropsUnsetInts | client/util/common.go:40-45 | The client variant emits exactly what the sentinel-free variant emits for the same fields with every -1 int removed. |
| QueryString.PiecesAppend | client/util/common.go:22-53 | Fields contribute in declaration order: the pieces of a concatenation are the pieces of each part, in order. |
| QueryString.JoinedByAmp | client/util/common.go:52-56 | When the last rendered field does not itself end with '&', the query string is exactly the rendered fields joined by '&'. |
| QueryString.NeverEndsWithAmp | client/util/common.go:56 | The query string never ends with '&'. |
| QueryString.VariantsAgreeWithoutUnsetInts | cmd/util/common.go:15-50 | Without an int equal to -1, the two BuildCommandURL variants build the same string. |
| QueryString.TestVectorFull | client/util/common_test.go:25 | The test struct with two app servers, one environment and `true` encodes to `appServer=TestAppX,TestAppY&environment=T&disableMerge=true`, in both variants (the same vector is cmd/util/common_test.go:25). |
| QueryString.TestVectorDefault | client/util/common_test.go:26 | The all-default test struct encodes to `disableMerge=false`, in both variants. |
| CmdUtil.BuildCommandURL | cmd/util/common.go:15-50 | The loop's string is exactly the emitted fields (only empty slices skipped) rendered in order, joined by '&' and right-trimmed of '&' (`CommandURL` without the sentinel). |
| CmdUtil.UnsetIntIsEmitted | cmd/util/common.go:38-39 | An int of -1 is emitted as `tag=-1` by the cmd variant and omitted by the client variant. |
| ClientUtil.TagExists | client/util/common.go:62-77 | True exactly when some field carries the tag. |
| ClientUtil.SetValueIfTagExists | client/util/common.go:80-109 | Every field whose tag matches is assigned in place by its kind (int: the parsed integer, string: the text, bool: ParseBool); other fields and every tag are unchanged; without a matching tag nothing changes. |
| ClientUtil.Contains | client/util/common.go:112-119 | True exactly when some element equals `str` after trimming surrounding white space on both. |
| ClientUtil.Failed | client/util/common.go:123-128 | The messages one check adds: none exactly when the condition holds, otherwise exactly the message. |
| ClientUtil.ErrorList.Check | client/util/common.go:123-128 | The list gains exactly the one message when the check fails and stays unchanged when it holds. |
| ClientUtil.ValidateSingleChar | client/util/common.go:131-134 | Accepted exactly when the whole input is one character and that character is an ASCII letter (`^[a-zA-Z]$`). |
| ClientUtil.SingleCharExamples | client/util/common.go:131-134 | One ASCII letter passes; the empty string, two letters, a digit, a space and a non-ASCII letter do not. |
| Config.ValidateTLS | client/config.go:40-48 | Exactly one error, naming the settings, iff a certificate file is set without a key file; no error otherwise. |
| Config.HostIsNotValidated | client/config.go:33-37 | Host, user name and password never change the validation result: only the TLS settings are checked. |
| Config.Validate | client/config.go:33-37 | At most one error, and none exactly when the certificate file is not set without a key file: only the TLS settings are checked. |
| Config.NewClient | client/client.go:34-42 | An invalid configuration fails with "Config is invalide: " followed by each error and "; "; a valid one yields the transport error or the client. |
| Config.InvalidMessage | client/client.go:37-40 | The message is "Config is invalide: " followed by every error, each terminated by "; ", in order. |
| Config.NewClientRejectsCertWithoutKey | client/client.go:35-41 | A certificate without a key gives exactly one error and the message ends with that error followed by "; ". |
| Api.ZipUnzip | client/promote_deployments.go:132-137 | Unzipping a deployment's applications into names and versions and zipping them again gives the same applications. |
| Api.UnzipZip | client/create_deployment.go:142-148 | Zipping equally long names and versions and unzipping gives back both lists. |
| Sorting.Swap | client/get_deployment.go:46-48 | Elements i and j are exchanged and every other index is unchanged (also the Swap of client/hostname.go:32-34). |
| Sorting.Sort | cmd/deployment/promote.go:69-78 | For any strict weak order, the array ends sorted by it and holds the same elements (a permutation). |
| DeploymentQuery.StatesDistinct | client/get_deployment.go:61-73 | The eleven deployment-state constants are pairwise different. |
| DeploymentQuery.QueryParameters | client/get_deployment.go:51-58 | The query parameters come in the order appName, appServerName, deploymentState, environmentName (each only when non-empty), trackingId (unless -1), and onlyLatest, which is always present and last. |
| DeploymentQuery.AppServerLess | client/get_deployment.go:42-44 | Deployments with the same app-server name are never ordered; of two with different names, exactly one comes first. |
| DeploymentQuery.AppServerLessIsStrictWeakOrder | client/get_deployment.go:42-44 | The app-server order of a deployment list is a strict weak order, so sorting by it is well defined. |
| DeploymentQuery.GetDeployment | client/get_deployment.go:76-89 | One GET of "resources/./deployments?" followed by the encoded options; the answer is the server's. |
| DeploymentFilter.GetDeploymentFilter | client/get_deployment_filter.go:16-32 | One filtered GET; a transport error becomes "Error rest call: ..."; otherwise the server's list. |
| Hostnames.DomainLess | client/hostname.go:28-30 | Host names with the same domain are never ordered; of two with different domains, exactly one comes first. |
| Hostnames.DomainLessIsStrictWeakOrder | client/hostname.go:28-30 | The domain order is a strict weak order. |
| Hostnames.SortByDomain | client/hostname.go:28-34 | Sorting leaves the list in ascending domain order with the same entries. |
| Hostnames.QueryParameters | client/hostname.go:37-44 | The parameters come in the order appServer, runtime, environment, host, node (each only when non-empty), then disableMerge, which is always present. |
| Hostnames.DefaultQuery | client/hostname.go:47-51 | With no filter, the path is "resources/./hostNames?" followed by only the merge flag. |
| Hostnames.GetHostname | client/hostname.go:47-60 | One GET of the host-name path; a transport error is returned wrapped as "Error in rest call: ..."; otherwise the server's list. |
| Create.ViolationsIffInvalid | client/create_deployment.go:67-88 | No check fails exactly when the options are valid: an app server, as many values as keys, a one-letter environment, and either a one-letter source environment or equally many (and some) names and versions. |
| Create.AppServerAlwaysChecked | client/create_deployment.go:72 | A missing app server is reported first, also when a source environment is given. |
| Create.SourceSkipsAppChecks | client/create_deployment.go:76-82 | With a source environment the application lists do not affect validation. |
| Create.CheckCommon | client/create_deployment.go:72-74 | The error list gains exactly the messages of the three common checks, in order. |
| Create.CheckSource | client/create_deployment.go:76-82 | The error list gains exactly the messages of the source-environment check or of the three application checks. |
| Create.Validate | client/create_deployment.go:67-88 | No error iff no check fails; otherwise every failed message, in check order, joined by ", ". |
| Create.ReleasePointer | client/create_deployment.go:105-108 | The release is nil iff it is empty, otherwise the given release. |
| Create.ZipAppsLoop | client/create_deployment.go:142-148 | The applications are the names zipped with the versions, in order. |
| Create.ZipParametersLoop | client/create_deployment.go:151-157 | The parameters are the keys zipped with the values, in order. |
| Create.CopyApps | client/create_deployment.go:131-139 | The applications are copied from the source deployment unchanged and in order. |
| Create.Apps | client/create_deployment.go:116-149 | The applications step matches its specification: the source query and its error cases, or the zip loop. |
| Create.PollQueries | client/create_deployment.go:166-173 | A poll issues at least one and at most `maxCounts` queries, all for the tracking id. |
| Create.PollOkIsFinished | client/create_deployment.go:179-188 | A deployment returned by the poll has failed or succeeded, and it is the single deployment of the last answer. |
| Create.PollTimesOut | client/create_deployment.go:189-193 | When every attempt sees the deployment still running, the poll uses all its attempts and ends with "Timeout on deployment" and no deployment. |
| Create.PollStopsAtFirstFinished | client/create_deployment.go:173-188 | When attempts 1 to k-1 see the deployment still running and attempt k, within the budget, sees it finished, the poll makes exactly k queries and returns that deployment. |
| Create.Poll | client/create_deployment.go:166-195 | The poll loop produces exactly the result and calls of its specification. |
| Create.CreateDeployment | client/create_deployment.go:91-199 | The whole creation produces exactly the result and calls of its specification. |
| Create.InvalidMakesNoCall | client/create_deployment.go:93-95 | Invalid options give the joined messages with no call made. |
| Create.AfterPost | client/create_deployment.go:160-195 | After the POST, the calls made extend the history; without waiting there are none, with waiting at most `maxWaitTime / 5`. |
| Create.PostsNamedApps | client/create_deployment.go:101-163 | Without a source environment, the first call is the POST of the request: nil-or-release, app server, environment, zipped applications, zipped parameters, date and shakedown flag. |
| Create.PostsSourceApps | client/create_deployment.go:117-139 | With a source environment, the first call queries that environment for the app server's latest deployment; an empty answer ends with the error and no more calls; otherwise the POST carries the first deployment's applications. |
| Create.NoWaitReturnsPosted | client/create_deployment.go:159-198 | Without waiting, at most two calls are made and a success is what the POST returned. |
| Create.WaitReturnsFinished | client/create_deployment.go:165-198 | With waiting, at most two calls plus `maxWaitTime / 5` queries are made, and a returned deployment has finished. |
| Promote.ValidateEnvironments | client/promote_deployments.go:29-42 | No error iff both environments are single letters; otherwise the failed messages joined by ", ". |
| Promote.Survives | client/promote_deployments.go:117 | A deployment is copied iff its state is success and no black-list entry of app servers or runtimes equals its app server or runtime once both are trimmed. |
| Promote.SurvivorsAreThePassing | client/promote_deployments.go:116-120 | A deployment is kept iff it is in the list, neither its app server nor its runtime is black-listed (after trimming), and its state is success. |
| Promote.SurvivorsKeepOrder | client/promote_deployments.go:116-120 | Filtering keeps the original relative order. |
| Promote.RemoveExcluded | client/promote_deployments.go:116-120 | The backwards in-place removal leaves exactly the survivors, in order. |
| Promote.UnzipApps | client/promote_deployments.go:132-137 | The slices filled in the index loop are the applications' names and versions, in order. |
| Promote.OptionsFor | client/promote_deployments.go:127-137 | A survivor's creation options are its app server, release and unzipped applications with the target environment and date. |
| Promote.OptionsForValid | client/promote_deployments.go:127-139 | Those options are valid iff the survivor has an app server and applications and the target environment is one letter. |
| Promote.PromotedRequest | client/promote_deployments.go:125-139 | A survivor is re-created with exactly its applications and release, no parameters and no shakedown test, whatever the promotion asked for. |
| Promote.CreateEachCount | client/promote_deployments.go:139-145 | Without an error every survivor was created; after an error, fewer deployments than survivors are returned. |
| Promote.CreatedInOrder | client/promote_deployments.go:125-145 | Creation goes in order: the first j survivors alone give exactly the first j results without error; creating survivor j next yields result j, or, when there is none, the returned error and final calls. |
| Promote.FirstErrorEndsCreation | client/promote_deployments.go:139-143 | After an error, the failing survivor is one past the returned list: the survivors before it were created giving exactly that list, and creating it failed with the returned error. |
| Promote.CreateAll | client/promote_deployments.go:123-145 | The creation loop produces exactly the partial result, error and calls of its specification. |
| Promote.MaxCounts | client/promote_deployments.go:51 | The number of further polls is at least 1, and it equals the truncated `maxWaitTime / 60` when that is larger. |
| Promote.MaxCountsExamples | client/promote_deployments.go:49-51 | The default 600 seconds gives 10; anything under two minutes gives 1. |
| Promote.AllFinishedLoop | client/promote_deployments.go:66-70 | The flag is true iff every deployment of the answer failed or succeeded. |
| Promote.BatchQueries | client/promote_deployments.go:52-54 | The batch poll issues at least one and at most `maxCounts + 1` queries, all of the same path. |
| Promote.BatchOkIsFinished | client/promote_deployments.go:59-74 | A batch poll without error returns a non-empty last answer in which everything finished. |
| Promote.BatchStopsAtFirstFinished | client/promote_deployments.go:52-74 | When answers 1 to k-1 still show a running deployment and answer k, within the budget, is non-empty and all finished, the batch poll makes exactly k queries and returns answer k without error. |
| Promote.BatchTimesOut | client/promote_deployments.go:76-80 | When every attempt sees something running, all `maxCounts + 1` queries are made and the last answer is returned with "Timeout on checking deployment results". |
| Promote.CheckDeploymentResults | client/promote_deployments.go:45-84 | The batch poll loop produces exactly the result and calls of its specification. |
| Promote.AppServerList | client/promote_deployments.go:151-155 | The wait filter's app servers are the created deployments' app servers, in creation order. |
| Promote.PromoteDeployments | client/promote_deployments.go:87-166 | The whole promotion produces exactly the deployments, error and calls of its specification. |
| Promote.InvalidMakesNoCall | client/promote_deployments.go:89-92 | Invalid environments give an error with no call made and no deployments. |
| Promote.EmptySourceCreatesNothing | client/promote_deployments.go:108-110 | An empty source environment is an error after the one query; nothing is created. |
| Promote.CreationOutcome | client/promote_deployments.go:139-164 | A creation error ends the promotion with the partial list (shorter than the survivors) and skips the wait; without error or wait, every survivor was created. |
| Promote.WaitQueryParameters | client/promote_deployments.go:150-155 | The wait query asks for the created app servers (or the whole environment when none), the target environment and only the latest deployments. |
| Install.RawFilter | client/install_deployment.go:51-52 | The filter is the fixed head, the source environment and the fixed tail. |
| Install.BuildFilter | client/install_deployment.go:51-52 | Joining the three parts gives the raw filter. |
| Install.BlacklistServers | client/install_deployment.go:61-68 | No path gives no black list; an unreadable file is fatal; otherwise the lines of the file, which join back to its content. |
| Install.KubernetesIsNeverInstalled | client/install_deployment.go:71-78 | A deployment on a Kubernetes or Kube_helm runtime never survives the filter. |
| Install.InstallDeployment | client/install_deployment.go:41-111 | The whole installation produces exactly the result and calls of its specification. |
| Install.InvalidMakesNoCall | client/install_deployment.go:44-47 | Invalid environments are fatal before any call. |
| Install.DeclinedCreatesNothing | client/install_deployment.go:80-110 | Declining the confirmation returns an empty list with no error, after the one filter query. |
| Install.ConfirmedCreatesEverySurvivor | client/install_deployment.go:87-106 | A confirmed installation that succeeds created one deployment per survivor; a failed creation is fatal with "Error Create Deployment: " and that error. |
| PromoteCommand.StateThenAppServerLess | cmd/deployment/promote.go:70-78 | The comparator is the lexicographic order on (state, app server): a comes first iff its state is smaller, or the states are equal and its app server is smaller. |
| PromoteCommand.StateThenAppServerLessIsStrictWeakOrder | cmd/deployment/promote.go:70-78 | The comparator is a strict weak order. |
| PromoteCommand.SortReport | cmd/deployment/promote.go:69-78 | After both sorts, the report holds the same deployments ordered by state, then app server. |
| PromoteCommand.SuccessLoop | cmd/deployment/promote.go:66-87 | The success flag is true iff every deployment is success or rejected (true for an empty list). |
| PromoteCommand.AllSucceededIsOrderFree | cmd/deployment/promote.go:79-87 | Reordering the deployments does not change the success verdict. |
| PromoteCommand.Report | cmd/deployment/promote.go:66-92 | The report is a sorted permutation, and it is fatal iff waiting was asked for and some deployment is neither success nor rejected. |
| PromoteCommand.RunPromote | cmd/deployment/promote.go:55-95 | Nothing happens without silent mode or confirmation. A failed promotion is fatal with "Error Promote Deployment: "; otherwise the report is sorted, and it is fatal iff wait is set and not all deployments succeeded. |

## Left out

- HTTP, TLS and transport (`DoRequest`, `newTransport`, `newTLSClientConfig`, the retry loop): replaced by the server oracle. In `Config.NewClient`, a transport-building failure is an input.
- client/mockClient.go and the test files that exercise the mock HTTP path: they test the transport, not this logic.
- Date parsing and formatting in the local time zone: the deployment date is carried as the options' string.
- `time.Sleep` and `log.Printf`/`log.Println` in the poll loops and workflows: the loops are modelled as attempt counters.
- `ioutil.ReadFile` and `AskYesNo`: the file content (or its read error) and the user's answer are inputs.
- Printing (`PrintDeployment`): the printed report is the returned sequence.
- Reflection in BuildCommandURL, TagExists and SetValueIfTagExists: option structs are explicit field lists of (tag, value).
- ClientUtil.SetValueIfTagExists: the integer parsed by `strconv.ParseInt` is an input, and float fields are not modelled (floating point).
- `url.QueryEscape` in GetDeploymentFilter: the call records the raw filter.
- Query strings are not URL-escaped by the source either; the model keeps that.
- Promote.MaxCounts: computes `max(1, maxWaitTime / 60)` on integers. The source rounds the quotient through `float64` for `math.Max`, which changes it only beyond 2^53.
- `Len` of both list types: it is the sequence length.
- `log.Fatal` ends the process. In install and in the promote command, the fatal message is returned as an `Err` or `Some` result, and nothing runs after it.
- Create.CreateDeployment: when the POST fails, the source also returns an empty response object with the error. The model returns only the error, and every caller ignores that object.
- Hostnames.GetHostname: when the GET fails, the source also returns the (possibly partly decoded) host-name list with the wrapped error. The model returns only the error; the only caller ends the process on it.
- `sort.Sort` and `sort.Slice` are modelled by one insertion sort. Both are unstable, so the model promises only that the result is sorted and a permutation, not a particular order among equal elements.
- Command wiring with cobra/viper (cmd/root.go, cmd/rootCmd.go and the other command files): flag parsing and defaults are not modelled. The promote command takes its options as a value.
