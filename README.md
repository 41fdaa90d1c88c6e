# scons-remote, modelled in Dafny

scons-remote runs an SCons build step on an AWS EC2 instance. The flow is:

1. `EnvironmentRemote` launches one instance and waits until the instance reports running.
2. It looks up the instance's single public IP and opens an SSH connection to it. The connection is retried a bounded number of times.
3. The action `action_remote` then stages the step on the instance:
   - it creates the `scons-compute` workspace and the parent directories of every remote path;
   - it uploads the file sources and runs the command;
   - it downloads the targets and removes the workspace.
4. Its `finally` block terminates the instance and closes the connection.

The software calls it a remote shutdown when the instance is stopped by running `sudo shutdown -h +1` over SSH. Teardown falls back to that when the EC2 API refuses to terminate.

The repository holds three revisions of the action:

| revision | files | what it has |
|---|---|---|
| current | scons_remote/action_remote.py with scons_remote/environment_remote.py | passes SCons `Value` sources through and drops both `scons-compute` and `""` from the directories; checks the environment and tries to restore the default arguments (see Findings) |
| closure | scons_remote/ActionRemote.py | stages every source as a file; tears down in `finally` |
| single file | scons_remote.py | a closure over a connection captured when the action is made; no teardown |

The model consists of the following modules:

- **Responses**: the EC2 response records and the pure projections of scons_remote/utils.py: `instance_ids` and the flattening behind `instance_public_ips` and `instance_statuses`.
- **Remote**: the collaborators, as oracles with one shared event log:
  - an EC2 client whose answers come from a `Cloud` value;
  - SSH connections whose failing operations are a set of operation numbers;
  - `time.sleep`, which is only counted.
- **Utils**: the helpers that call a collaborator: `instance_public_ips`, `instance_statuses`, `instance_running`, `make_dir`.
- **Paths**: backslash normalisation, the `scons-compute/` prefix, `os.path.dirname`, `" ".join` and, as its inverse, `str.split(" ")`.
- **Plan**: the staging plan. This is the ordered list of remote operations one action issues, as a function of its targets and sources. A flag selects whether `Value` sources are passed through.
  - `Executed` says which prefix of the plan a connection performs when a step raises.
- **Staging**: the staging loops as methods over a connection, proved against `Plan`.
- **Lifecycle**: `_connection_open` and `_connection_close` as pure functions of the three nullable fields. They return the events logged, the outcome and the new fields.
- **Environment**: the `EnvironmentRemote` class. Its fields are updated in place and its methods are proved against `Lifecycle`. It also holds the `ActionRemote` factory and `CommandRemote`.
- **Action**: `check_env` and `action_remote`. The whole trace (try block, then teardown in `finally`) is the function `ActionTrace`, and the method `ActionRemote` is proved against it.
- **Revisions**: the closure of scons_remote/ActionRemote.py and the closure and factory of scons_remote.py.
- **Repr**: Python's `repr` of a string and of a list of strings.
- **Settings**: `FORCE_LOCAL_EVAL` of scons_remote/__init__.py.

`connection_open` and `connection_close` of scons_remote.py (lines 149-206) are the same code as `_connection_open` and `_connection_close` of scons_remote/environment_remote.py (lines 35-94). Only the field name differs: `connection` rather than `_connection`. The `Lifecycle` functions and the `EnvironmentRemote` methods model both. `CommandRemote` is likewise the same check in both files: scons_remote.py:143-145 and scons_remote/environment_remote.py:135-139.

A `Value` source is passed through after its backslashes are replaced: `sources` is built with `replace("\\", "/")` before the `Value` test (scons_remote/action_remote.py:43-49).

The closure of scons_remote/ActionRemote.py takes `cmd_args` as a list (line 5) and writes it into the command line with an f-string (lines 51-55), so the list appears as its Python `repr`, brackets and quotes included. The module **Repr** models that rendering. The other two revisions join the list with single spaces.

## Model

| member | source | states |
|---|---|---|
| Responses.InstanceIds | scons_remote/utils.py:1-5 | one id per launched instance, in response order |
| Responses.RunningFlags | scons_remote/utils.py:18-20 | one flag per status; flag i is true exactly when status i is "running" |
| Responses.PublicIps | scons_remote/utils.py:13-15 | defines what `instance_public_ips` makes of a describe response: none (KeyError) when an instance has no `PublicIpAddress`, otherwise the addresses, reservation by reservation |
| Responses.Statuses | scons_remote/utils.py:28-30 | defines the flattened state names of a describe response, reservation by reservation |
| Responses.Flatten | scons_remote/utils.py:15 | defines the nested list comprehension `[item for sublist in xs for item in sublist]`: the sublists joined in order |
| Responses.AllRunning | scons_remote/environment_remote.py:78 | defines the condition that ends the readiness wait: every instance of every reservation of the answer is running |
| Responses.FlattenLength | scons_remote/utils.py:15 | a flattening is as long as all sublists together |
| Responses.FlattenMap | scons_remote/utils.py:13-15 | flattening the per-reservation lists of a projection is the projection of the flattened instances |
| Responses.PublicIpsPerInstance | scons_remote/utils.py:7-16 | the lookup raises KeyError exactly when some described instance has no address; otherwise the IP list is the address of every described instance, reservation by reservation, in order, and its length is the total instance count |
| Responses.EveryReservationHasIps | scons_remote/utils.py:13-14 | every reservation's list comprehension reads its addresses without KeyError exactly when every described instance has one |
| Responses.FlattenMembers | scons_remote/utils.py:15 | an element of the flattening is exactly an element of one of the sublists |
| Responses.StatusesPerInstance | scons_remote/utils.py:22-31 | the status list is the state name of every described instance, in order; its length is the instance count |
| Responses.RunningPerInstance | scons_remote/utils.py:18-20 | one running flag per described instance, true exactly when that instance's state is "running"; `all(...)` of the flags holds exactly when every instance runs |
| Responses.ReservationsRunningIff | scons_remote/environment_remote.py:78 | the stopping condition of the readiness loop holds exactly when every instance of every reservation is running |
| Responses.InstancesRunningIff | scons_remote/environment_remote.py:78 | for one reservation: all its instances run exactly when each of them is "running" |
| Utils.MakeDir | scons_remote/utils.py:33-35 | exactly one remote run of "mkdir " + path, not hidden; it raises when that operation fails |
| Utils.InstancePublicIps | scons_remote/utils.py:7-16 | one describe call, for exactly the launched ids; ClientError when that call raises, KeyError when an instance of its answer has no address, otherwise the flattened IP list of the answer |
| Utils.InstanceStatuses | scons_remote/utils.py:22-31 | one describe call for exactly the launched ids; ClientError when it raises, otherwise the flattened state names of its answer |
| Utils.InstanceRunning | scons_remote/utils.py:18-20 | one describe call; ClientError when it raises, otherwise one flag per status of its answer, true exactly for "running" |
| Remote.Pause | scons_remote/environment_remote.py:88 | a sleep is one counted event carrying its seconds |
| Remote.Ec2Client.constructor | scons_remote/environment_remote.py:74 | creating the client logs it with its arguments; no describe call is made yet |
| Remote.NewClient | scons_remote/environment_remote.py:74 | `boto3.client(...)` is logged with its arguments; it gives a fresh client with no describe call yet exactly when the provider does not make the call raise |
| Remote.Ec2Client.RunInstances | scons_remote/environment_remote.py:76 | logs the launch with the instance arguments; answers the provider's launch response, or none when the provider rejects it |
| Remote.Ec2Client.DescribeInstances | scons_remote/utils.py:10 | logs the ids asked about; the n-th call gets the provider's n-th answer, which may be a ClientError |
| Remote.Ec2Client.TerminateInstances | scons_remote/environment_remote.py:41-43 | logs the termination of the given ids; reports whether it raised ClientError |
| Remote.Connection.Run | scons_remote/environment_remote.py:47 | logs the command and whether it is hidden; consumes one operation number and raises when that number fails |
| Remote.Connection.Put | scons_remote/action_remote.py:72 | logs the upload; one operation number, raising when it fails |
| Remote.Connection.Get | scons_remote/action_remote.py:84 | logs the download; one operation number, raising when it fails |
| Remote.Connection.Close | scons_remote/environment_remote.py:57-60 | logs the close and leaves the connection disconnected |
| Remote.Connect | scons_remote/environment_remote.py:84-85 | one logged attempt on the host; a connection exists exactly when the attempt is accepted, and it is then fresh, connected, with no operation issued |
| Paths.ToRemote | scons_remote/action_remote.py:45 | defines the remote path of a local path: `scons-compute/` before it |
| Paths.Dirname | scons_remote/action_remote.py:56-58 | defines `os.path.dirname` as posixpath does: the text up to the last '/' with its trailing separators stripped unless it is only separators; a prefix of the path, empty exactly when the path has no '/' |
| Paths.UpToLastSlash | scons_remote/action_remote.py:56-58 | the prefix of the path that ends at its last '/', with no '/' after it; empty exactly when the path has none |
| Paths.StripSlashes | scons_remote/action_remote.py:56-58 | the longest prefix not ending in '/', whatever follows it being separators |
| Paths.DirnameAt | scons_remote/action_remote.py:56-58 | with the last '/' at i and not doubled, the parent is the text before it, or "/" when i is 0 |
| Paths.DirnameExamples | scons_remote/action_remote.py:56-58 | "/data" has parent "/", "a/b" has "a" and "x" has "" |
| Paths.DirnameDoubled | scons_remote/action_remote.py:56-58 | "a//b" has parent "a" |
| Paths.DirnameOnlySlashes | scons_remote/action_remote.py:56-58 | "//x" has parent "//" |
| Paths.JoinSpace | scons_remote/environment_remote.py:111 | defines `" ".join` of a list of words |
| Paths.Split | scons_remote/environment_remote.py:111 | defines `str.split(" ")`, the inverse of the join used by `SplitJoinSpace`; it always yields at least one piece |
| Paths.Normalise | scons_remote/action_remote.py:42-43 | the same length, with every backslash replaced by '/' and everything else kept |
| Paths.NormaliseClean | scons_remote/action_remote.py:42-43 | a normalised path holds no backslash; normalising twice changes nothing |
| Paths.NormaliseMerges | scons_remote/action_remote.py:42-43 | paths that differ only in the choice of separator normalise to the same path |
| Paths.ToRemoteInjective | scons_remote/action_remote.py:45 | the `scons-compute/` mapping is injective: two paths map to the same remote path exactly when they are equal |
| Paths.DirnameOfRemote | scons_remote/action_remote.py:54-58 | the parent of a remote path is the root when the local parent is only separators (or empty), otherwise the remote of the local parent |
| Paths.RemoteParentNotEmpty | scons_remote.py:62-79 | no remote path has "" as its parent, and the parent is the root exactly when the local parent is only separators or empty |
| Paths.SplitJoinSpace | scons_remote/environment_remote.py:111 | splitting on single spaces undoes `" ".join` of words holding no space (the empty list joins to "", which splits into one empty piece) |
| Plan.RemoteTargets | scons_remote/action_remote.py:45 | one remote target per target, in order: its normalised path under `scons-compute/` |
| Plan.Parents | scons_remote/action_remote.py:54-59 | defines the set of `os.path.dirname` of the given paths |
| Plan.RemoteSources | scons_remote/action_remote.py:46-51 | one remote source per source, in order: the prefixed normalised path for a file, the normalised text for a passed-through `Value` |
| Plan.RemoteDirs | scons_remote/action_remote.py:54-64 | defines the directories created after the root: the distinct parents of the remote targets and sources minus the excluded names |
| Plan.Excluded | scons_remote/action_remote.py:60-64 | defines the names removed from the parent list: `scons-compute` and "" in this revision, only `scons-compute` in the earlier two |
| Plan.CommandLine | scons_remote/action_remote.py:75-79 | defines the command line: the command, its argument text, the space-joined remote sources and the space-joined remote targets, separated by single spaces |
| Plan.StagePlan | scons_remote/action_remote.py:52-86 | defines the staging plan: root mkdir, the directory mkdirs, the uploads, the hidden command run, the downloads, the cleanup |
| Plan.Executed | scons_remote/action_remote.py:29-87 | defines the part of a plan a connection performs: every step up to and including the first one whose operation number fails; never longer than the plan |
| Plan.ExecutedChain | scons_remote/action_remote.py:29-87 | a plan in two parts is clean exactly when both are; the second part runs only when the first did not raise |
| Plan.ExecutedClean | scons_remote/action_remote.py:29-87 | a plan none of whose steps raises is performed in full |
| Plan.ExecutedStopsAt | scons_remote/action_remote.py:29-87 | a plan with a raising step is performed up to and including the first raising step, and no further |
| Plan.EverySourceUploaded | scons_remote/ActionRemote.py:49-50 | without `Value` pass-through every source is uploaded, in source order, from its normalised path to its mapped remote path |
| Plan.ValuesNotUploaded | scons_remote/action_remote.py:70-74 | with pass-through exactly the non-`Value` sources are uploaded, in source order: as many uploads as file sources |
| Plan.ValuePassedThrough | scons_remote/action_remote.py:47-51 | a `Value` source keeps its text on the command line with pass-through, and is prefixed like a file without it |
| Plan.PutOpsFromSources | scons_remote/action_remote.py:70-72 | every upload is of some file source, from its local path to its remote path |
| Plan.RemoteSourceInjective | scons_remote/action_remote.py:45-51 | two file sources share a remote path exactly when their normalised local paths are equal |
| Plan.PrefixedParentsNeverEmpty | scons_remote.py:62-75 | when every path is prefixed, "" is never a parent, so dropping only the root leaves the same directories as dropping both the root and "" |
| Plan.OneValueParents | scons_remote/action_remote.py:47-64 | the directories for one `Value` source without backslashes are its parent unless that is `scons-compute` or "" |
| Plan.AbsoluteValueParent | scons_remote/action_remote.py:47-64 | a `Value` source "/data" makes "/" a directory to create, so `mkdir /` is issued |
| Plan.RevisionsAgreeOnFiles | scons_remote/ActionRemote.py:27-47 | without `Value` sources, the closure revision and the current revision have the same remote sources, the same directories and the same plan |
| Plan.TailLayout | scons_remote/action_remote.py:83-86 | exactly one download per target, pairing its remote path with its local path in target order, then the cleanup |
| Plan.StageLayout | scons_remote/action_remote.py:52-86 | the plan position by position: root mkdir, one mkdir per directory, the uploads, the command, one get per target in target order, `rm scons-compute -r` last |
| Plan.StageKinds | scons_remote/action_remote.py:66-86 | the uploads are exactly the steps between the directories and the command, the downloads exactly those between the command and the cleanup; the command is the only hidden run |
| Plan.StageOrder | scons_remote/action_remote.py:52-86 | every mkdir precedes every put, every get follows the command run, and the cleanup is the last operation |
| Plan.UploadParentsCreated | scons_remote/action_remote.py:52-72 | every upload's remote parent was created by an earlier mkdir: the root or one of the created directories |
| Plan.CommandLineFields | scons_remote/action_remote.py:75-79 | split on single spaces, the command line is the command, the pieces of the argument string, the remote sources and the remote targets, when none of those holds a space |
| Plan.HeadLayout | scons_remote/action_remote.py:52-74 | the head of the plan position by position: the root mkdir, one mkdir per directory, then the uploads, and as long as the command's index |
| Plan.HeadKinds | scons_remote/action_remote.py:66-74 | in the head, a step is an upload exactly when it comes after the directories |
| Plan.CommandLineStarts | scons_remote/action_remote.py:75-79 | the command line begins with the command, one space and the argument text |
| Plan.CommandAt | scons_remote/action_remote.py:75-81 | the plan's step at the command index is the hidden run of the command line |
| Staging.ListOfSet | scons_remote/action_remote.py:54-59 | `list(set(...))` lists every element of the set exactly once, in some order |
| Staging.Remove | scons_remote/action_remote.py:60-64 | `remove` with ValueError swallowed: unchanged when the value is absent, one shorter when present, and every other element kept |
| Staging.RemoveEnumerates | scons_remote/action_remote.py:60-64 | removing a value from a list of distinct elements lists the set without that value |
| Staging.DirList | scons_remote/action_remote.py:54-64 | the directory list names each distinct parent exactly once, minus the excluded values |
| Staging.MapSources | scons_remote/action_remote.py:46-51 | the loop builds exactly the remote sources |
| Staging.MakeDirs | scons_remote/action_remote.py:66-68 | the log gains the performed part of one mkdir per directory, in list order; success exactly when none raised |
| Staging.Upload | scons_remote/action_remote.py:70-74 | the log gains the performed part of the uploads; success exactly when none raised |
| Staging.Download | scons_remote/action_remote.py:83-84 | the log gains the performed part of the downloads; success exactly when none raised |
| Staging.RunStep | scons_remote/action_remote.py:81 | one remote run forms a one-step plan |
| Staging.StageHead | scons_remote/action_remote.py:52-74 | performs the root, the directories and the uploads, stopping at the first raising step |
| Staging.StageTail | scons_remote/action_remote.py:83-86 | performs the downloads and the cleanup, stopping at the first raising step |
| Staging.Stage | scons_remote/action_remote.py:40-86 | the log gains exactly the performed part of the staging plan, with the directories in the order the set yields them; success exactly when no step raised |
| Lifecycle.Disconnect | scons_remote/environment_remote.py:56-61 | the connection field ends cleared and the other fields are kept |
| Lifecycle.Close | scons_remote/environment_remote.py:35-62 | defines `_connection_close`: terminate with a client and a request; on ClientError the hidden remote shutdown when connected, otherwise the error; then close the connection and clear the fields |
| Lifecycle.CloseOnlyTeardown | scons_remote/environment_remote.py:35-62 | teardown logs nothing but the termination request, the hidden `sudo shutdown -h +1` and the close of the connection |
| Lifecycle.CloseReleases | scons_remote/environment_remote.py:39-61 | a teardown that ends normally leaves no connection and no recorded instance, and clears everything when an instance was recorded; it fails only when an instance is recorded and terminate raises |
| Lifecycle.CloseIdempotent | scons_remote/environment_remote.py:39-56 | a second teardown after one that ended normally logs nothing and changes nothing |
| Lifecycle.CloseTerminatesFirst | scons_remote/environment_remote.py:39-55 | with a client and a request recorded, the first event of teardown terminates the launched ids |
| Lifecycle.CloseOrder | scons_remote/environment_remote.py:39-61 | termination precedes the close; the close is last and happens only with a connection; teardown logs at most three events |
| Lifecycle.CloseFallsBackToShutdown | scons_remote.py:153-163 | with a connection, a refused termination is followed by the hidden remote shutdown; when that runs, terminate, shutdown, close is the whole log and everything is released; when it raises, the client stays |
| Lifecycle.CloseWithoutConnection | scons_remote/environment_remote.py:50-55 | without a connection only the termination is logged; it fails with ClientError exactly when terminate raises, leaving the fields as they were |
| Lifecycle.WaitEvents | scons_remote/environment_remote.py:78-79 | defines the readiness loop's log from describe call n on: a describe, then a sleep of 2 seconds and another turn while the answer neither raised nor has every instance running |
| Lifecycle.Readiness | scons_remote/environment_remote.py:78-80 | defines the readiness wait followed, unless the wait raised, by the IP lookup's describe call |
| Lifecycle.EndsWait | scons_remote/environment_remote.py:78 | defines when one describe answer ends the readiness wait: the call raised ClientError, or every instance is running |
| Lifecycle.WaitEndsAt | scons_remote/environment_remote.py:78-79 | the first describe call, from n on, whose answer raised ClientError or has every instance running; every earlier answer had one not running |
| Lifecycle.WaitShape | scons_remote/environment_remote.py:78-79 | the readiness loop describes, then sleeps 2 seconds, once per not-yet-running answer, and ends with the describe that raised or saw every instance running |
| Lifecycle.RefusedCounts | scons_remote/environment_remote.py:87-89 | after n refused attempts the log has 2n events: n attempts and n sleeps of 10 seconds |
| Lifecycle.Retry | scons_remote/environment_remote.py:81-93 | defines the retry loop from a counter: an attempt; on NoValidConnectionsError or TimeoutError a sleep of 10 seconds and the next count; any other error propagates; TimeoutError naming `ssh_retries` when the count runs out |
| Lifecycle.RetryRefusedStep | scons_remote/environment_remote.py:82-89 | a refused attempt within the budget is one attempt, one sleep of 10 seconds, then the loop with the counter one higher |
| Lifecycle.RetryBounded | scons_remote/environment_remote.py:81-82 | the loop makes at most as many attempts as `ssh_retries` allows from the current counter |
| Lifecycle.RetryOnlyAttempts | scons_remote/environment_remote.py:82-89 | the loop logs only attempts on the one host and retry sleeps |
| Lifecycle.RetryAllRefused | scons_remote/environment_remote.py:82-93 | when every allowed attempt is refused, exactly that many attempts are made, each followed by a sleep, and TimeoutError names `ssh_retries` |
| Lifecycle.RetryEventuallyAccepted | scons_remote/environment_remote.py:82-89 | after k refused attempts and an accepted one within the budget, the loop stops connected after exactly k sleeps |
| Lifecycle.Open | scons_remote/environment_remote.py:64-94 | defines `_connection_open`: the client (its creation may raise, leaving the fields alone), the launch, the readiness wait, the IP lookup (ClientError, KeyError) and check (ValueError), then the retry loop; each `**None` a TypeError |
| Lifecycle.Connecting | scons_remote/environment_remote.py:78-94 | defines the part after the launch: the error of `IpLookup` if any, ValueError unless exactly one IP, TypeError on a missing `ssh_tries`, otherwise `Dial` |
| Lifecycle.IpLookup | scons_remote/environment_remote.py:78-80 | defines how the wait and `instance_public_ips` end: ClientError from either describe call, KeyError for an instance without an address, or the IP list |
| Lifecycle.IpLookupCases | scons_remote/utils.py:7-16 | the lookup raises ClientError exactly when the call ending the wait or its own call raised, KeyError exactly when its answer has an instance without an address, and otherwise gives the address of every described instance in order |
| Lifecycle.OpenClientFails | scons_remote/environment_remote.py:74-75 | a raising `boto3.client` logs only the call and leaves every field as it was |
| Lifecycle.OpenLookupFails | scons_remote/environment_remote.py:74-80 | a raising describe call or a missing address ends the open with ClientError or KeyError, with no SSH attempt and the client and request still recorded for teardown |
| Lifecycle.Dial | scons_remote/environment_remote.py:81-94 | defines the guarded retry loop: nothing when a connection is recorded, otherwise `Retry`, storing a fresh connection after an accepted attempt |
| Lifecycle.OpenRecordsInstance | scons_remote/environment_remote.py:74-80 | once the client is made and the launch succeeded, the client and the request are recorded whatever follows, and teardown begins by terminating the launched ids |
| Lifecycle.OpenConnects | scons_remote/environment_remote.py:81-94 | an open that succeeds from no connection leaves the instance recorded and a fresh connected connection that comes from an accepted attempt |
| Lifecycle.AcceptedAttemptExists | scons_remote/environment_remote.py:84-86 | a connected result comes from an accepted attempt in the oracle |
| Lifecycle.ReadinessOnlyPolls | scons_remote/environment_remote.py:78-80 | the readiness wait and the IP lookup log only describe calls and sleeps of 2 seconds |
| Lifecycle.OpenAttemptsBounded | scons_remote/environment_remote.py:64-94 | a whole open never makes more SSH attempts on any host than `ssh_retries` allows |
| Lifecycle.ConnectingAttemptsBounded | scons_remote/environment_remote.py:80-93 | the part after the readiness wait makes at most `ssh_retries` attempts on any host |
| Environment.Construct | scons_remote/action_remote.py:15-18 | the constructor succeeds exactly with two arguments and stores them as the command and its arguments; otherwise TypeError |
| Environment.CommandRemote | scons_remote/environment_remote.py:135-139 | succeeds exactly for an `ActionRemote` object, handing on its action with the targets and sources unchanged; otherwise the TypeError of the source |
| Environment.EnvironmentRemote.constructor | scons_remote/environment_remote.py:25-33 | every attribute starts as None |
| Environment.EnvironmentRemote.ConnectionInitialize | scons_remote/environment_remote.py:141-164 | records the four open arguments, with `ssh_retries` defaulting to 6, and changes nothing else |
| Environment.EnvironmentRemote.MakeActionRemote | scons_remote/environment_remote.py:98-114 | records the command and the space-joined arguments and returns the action object for them; the lifecycle fields and open arguments are unchanged |
| Environment.EnvironmentRemote.MakeActionRemoteAsWritten | scons_remote/environment_remote.py:111-114 | as written, it records the command and the arguments, then always raises TypeError |
| Environment.EnvironmentRemote.WaitRunning | scons_remote/environment_remote.py:78-79 | the readiness loop logs exactly the readiness events, stops after the first describe call that raised or saw every instance running, and reports whether it raised |
| Environment.EnvironmentRemote.Polled | scons_remote/environment_remote.py:78 | one describe call; it reports the ClientError of that call, and otherwise whether every instance of the answer is running |
| Environment.EnvironmentRemote.PollAgain | scons_remote/environment_remote.py:78-79 | one more turn on a not-yet-running answer: a sleep of 2 seconds and the next poll, keeping the loop's log shape |
| Environment.EnvironmentRemote.ConnectionOpen | scons_remote/environment_remote.py:64-94 | `_connection_open` logs exactly what `Lifecycle.Open` says, ends with its outcome and leaves the fields it says |
| Environment.EnvironmentRemote.AwaitAndConnect | scons_remote/environment_remote.py:78-94 | after the launch: the readiness wait and the IP lookup, with their errors, then what `Lifecycle.Connecting` says |
| Environment.EnvironmentRemote.Connect | scons_remote/environment_remote.py:81-94 | the retry loop as `Lifecycle.Dial` says: skipped when a connection exists; otherwise the field is set exactly when an attempt is accepted |
| Environment.EnvironmentRemote.RetryConnect | scons_remote/environment_remote.py:81-93 | the loop logs what `Lifecycle.Retry` says; a connected result gives a fresh connected connection with the accepted attempt's failures, any other result its error and no connection |
| Environment.EnvironmentRemote.TryOnce | scons_remote/environment_remote.py:83-89 | one attempt; a connection exactly when it is accepted; the sleep of 10 seconds exactly when it may be retried |
| Environment.EnvironmentRemote.ConnectionClose | scons_remote/environment_remote.py:35-62 | `_connection_close` logs exactly what `Lifecycle.Close` says, ends with its outcome and leaves the fields it says |
| Action.CheckEnv | scons_remote/action_remote.py:94-103 | passes exactly when both the command and its arguments are recorded; otherwise UserError |
| Action.Body | scons_remote/action_remote.py:29-87 | defines the try block: open; AttributeError when no connection was recorded, the assertion's error when it is not connected; otherwise stage over it |
| Action.Finally | scons_remote/action_remote.py:88-92 | defines the `finally` block with the defaults in place: `_connection_close` after the body, its error replacing the body's outcome |
| Action.ActionTrace | scons_remote/action_remote.py:20-92 | defines `action_remote`: nothing when `check_env` fails, otherwise the try block with `Value` pass-through, then `Finally` |
| Action.FinallyAsWritten | scons_remote/action_remote.py:88-92 | defines the `finally` block as written: AttributeError on the first `_default_*` read, before any teardown |
| Action.ActionTraceAsWritten | scons_remote/action_remote.py:20-92 | defines `action_remote` as written, ending in `FinallyAsWritten` |
| Action.UncheckedDoesNothing | scons_remote/action_remote.py:28 | when `check_env` fails, nothing is logged, the fields are unchanged and the action fails with UserError |
| Action.PlanRemoteOnly | scons_remote/action_remote.py:52-86 | every step of the plan is a run, put or get over the connection |
| Action.OpenProvisions | scons_remote/environment_remote.py:74-89 | opening logs no teardown and no operation over the connection |
| Action.BodyNoTeardown | scons_remote/action_remote.py:29-87 | the try block never terminates or closes anything |
| Action.FinallyOrder | scons_remote/action_remote.py:88-92 | after a try block without teardown: at most one termination, before the close, and the close last |
| Action.TryFinallyTearsDown | scons_remote/action_remote.py:29-92 | on every path: at most one termination, before the close; the close last; a launched instance always asked to terminate; no instance or connection left unless terminate was refused; success releases everything |
| Action.TryFinallySucceeds | scons_remote/action_remote.py:29-92 | a successful run is the open, the whole plan, the termination (with the shutdown when refused) and the close, and releases everything |
| Action.ActionTearsDown | scons_remote/action_remote.py:20-92 | once `check_env` passes, `action_remote` tears down as `TryFinallyTearsDown` says |
| Action.ActionSucceeds | scons_remote/action_remote.py:20-92 | a successful `action_remote` was checked, performed the whole plan with `Value` pass-through, terminated and closed last |
| Action.StagingFailureTearsDown | scons_remote/action_remote.py:29-92 | when termination is not refused, a staging step that raises still ends with termination then close, everything released, and the staging error reported |
| Action.AsWrittenLeaksInstance | scons_remote/action_remote.py:88-92 | as written, the `finally` block never reaches teardown: the launched instance is never asked to terminate, stays recorded, and the action fails with AttributeError |
| Action.StageOn | scons_remote/action_remote.py:40-86 | defines what staging over a connection logs: the staging plan up to and including the first raising step, the operation count advanced by as many steps, and RemoteOpFailed when a step raised |
| Action.StageConnected | scons_remote/action_remote.py:40-86 | staging over the environment's connection logs what `StageOn` says |
| Action.RunBody | scons_remote/action_remote.py:29-87 | the try block over the environment logs, ends and leaves what `Body` says; the directories are listed once each |
| Action.ActionRemote | scons_remote/action_remote.py:20-92 | `action_remote` logs exactly what `ActionTrace` says; once checked, the open arguments are restored to the defaults and `ssh_tries` is kept; unchecked, nothing changes |
| Revisions.ClosureAsWrittenNeverStages | scons_remote/ActionRemote.py:32 | as written (`make_dir` not imported), once connected the closure issues no staging operation (no upload, no download, and no run other than teardown's hidden shutdown) and fails, with NameError when teardown succeeds |
| Revisions.ClosureTrace | scons_remote/ActionRemote.py:7-65 | defines the closure with `make_dir` in scope: the try block without pass-through, its argument list rendered by `repr`, then teardown |
| Revisions.ClosureTraceAsWritten | scons_remote/ActionRemote.py:15-65 | defines the closure as written: NameError at `make_dir` once connected, then teardown |
| Revisions.ClosureCommandShowsList | scons_remote/ActionRemote.py:51-55 | the closure's hidden command run starts with the command, a space and the `repr` of the argument list, whose first character is '[' |
| Revisions.ClosureTearsDown | scons_remote/ActionRemote.py:15-65 | with `make_dir` in scope, the closure tears down on every path as `action_remote` does |
| Revisions.ClosureSucceeds | scons_remote/ActionRemote.py:15-63 | a successful closure performed its whole plan (every source uploaded, the command line carrying the `repr` of the argument list), then terminated and closed last |
| Revisions.ClosureAction | scons_remote/ActionRemote.py:7-65 | the closure over the environment logs exactly what `ClosureTrace` says, with the argument list written on the command line as its `repr`, and it keeps the open arguments |
| Revisions.LegacyFactory | scons_remote.py:114-128 | defines the single-file factory: the command, the space-joined arguments and the connection current at the call |
| Revisions.LegacyFactoryKeepsArgs | scons_remote.py:127-128 | the factory captures the connection current at the call, and the joined arguments split back into the list when no argument holds a space |
| Revisions.LegacyAction | scons_remote.py:50-91 | with no captured connection, AttributeError before any operation; otherwise the log gains exactly the performed part of the plan without pass-through, all of it remote operations, and nothing is terminated or closed |
| Settings.LowerChar | scons_remote/__init__.py:5 | ASCII upper-case letters map to their lower-case forms; every other character is kept |
| Settings.Lower | scons_remote/__init__.py:5 | lower-casing keeps the length and lower-cases each character |
| Settings.ForceLocalIff | scons_remote/__init__.py:4-8 | the flag is set exactly by the 32 upper/lower-case spellings of "local" |
| Settings.ForceLocalUnset | scons_remote/__init__.py:4-8 | an absent or empty variable leaves the flag false |
| Settings.ForceLocalExamples | scons_remote/__init__.py:5-8 | "local", "LOCAL" and "Local" set the flag; "remote" and "locale" do not |
| Settings.ForceLocalEval | scons_remote/__init__.py:4-8 | defines the flag: the variable is set, not empty, and lower-cases to "local" |
| Repr.QuoteFor | scons_remote/ActionRemote.py:51-55 | the quote `repr` chooses: double exactly when the text holds a single quote and no double quote, single otherwise |
| Repr.EscapeChar | scons_remote/ActionRemote.py:51-55 | one character as `repr` writes it: itself exactly when it is not the backslash, not the chosen quote and not an ASCII control character; an escape of two or more characters otherwise |
| Repr.StrRepr | scons_remote/ActionRemote.py:51-55 | `repr` of a string: the escaped text between two copies of the chosen quote |
| Repr.ListRepr | scons_remote/ActionRemote.py:51-55 | `repr` of a list of strings: the items' reprs joined by ", " between brackets |
| Repr.EscapeGrows | scons_remote/ActionRemote.py:51-55 | escaping never shortens the text, and keeps its length only when every character is written as itself |
| Repr.EscapeIdentityIff | scons_remote/ActionRemote.py:51-55 | the escaped text is the text itself exactly when no character needs an escape |
| Repr.StrReprPlain | scons_remote/ActionRemote.py:51-55 | a string without backslashes, single quotes or control characters is written between single quotes, unchanged |
| Repr.ListReprPlain | scons_remote/ActionRemote.py:51-55 | each item of such a list appears as itself between single quotes |
| Repr.ListReprExample | scons_remote/ActionRemote.py:51-55 | `["-u", "x.txt"]` renders as `['-u', 'x.txt']` |
| Repr.StrReprQuoteExample | scons_remote/ActionRemote.py:51-55 | `"it's"` renders between double quotes, unescaped |

## Left out

- Wire behaviour of boto3, fabric and paramiko is not modelled. Every call is one logged event answered by an oracle: the `Cloud` value, the attempt outcomes, and the failing operation numbers of a connection.
- The oracles are fixed when the environment is made. A second action in one environment gets the same launch response, the same describe answers from the start of `polls` (each client counts its describe calls from 0), and the attempt outcomes again from the first, since `try_counter` restarts at 1.
- A described instance is taken to always carry its `State` record. Its `PublicIpAddress` may be missing, which gives KeyError.
- Time is not modelled. A sleep is an event carrying its seconds.
- The readiness loop (scons_remote/environment_remote.py:78-79, scons_remote.py:193-194) has no bound in the code. The model requires the provider's final answer to report every instance running (`Cloud.Settles`). Termination is proved only under that assumption.
- The `[public_ips] = ...` destructuring is modelled as the ValueError it raises, not as a precondition.
- The iteration order of `set(...)` in the directory listing is left open. The methods return the order chosen, as `dirs`, and every property holds for any order.
- Remote success of `mkdir` (no `-p`) is not claimed. Each remote step either succeeds or raises, as the oracle says.
- Shell parsing of the command line is not modelled. The line is plain concatenation, and `CommandLineFields` splits it on single spaces.
- SCons integration is left out: subclassing `Environment`, `self.Command` and the `Value` node type. A source is its `str()` plus a flag saying whether it is a `Value`. `CommandRemote` returns the call it would make.
- Settings.Lower: lower-cases ASCII letters only. No other character of Python's `str.lower` yields one of the letters of "local", so the flag is the same.
- `FORCE_LOCAL_EVAL` is computed but never read by the code, so nothing in the model consumes it.
- The `__main__` block of scons_remote.py (lines 208-250) compares the string literal `'__name__'` and never runs. The demonstration script `decode.py`, which sits beside the package, is a usage example. Neither is part of this model.
- The value of `ActionRemote.cmd_args` in scons_remote/action_remote.py is the joined string the factory passes.
- The `_default_*` attributes read at scons_remote/action_remote.py:89-91 are constructor arguments of the environment, since the code never defines them. The as-written behaviour is recorded under Findings.
- The assertion after closing the connection (scons_remote/environment_remote.py:58-60) always holds, because `Close` leaves the connection disconnected. It is not a branch of the model.
- Python truthiness of the client, the request and the connection is "not None". A dictionary or count of None reaching `**` or `<=` raises TypeError.
- Remote.Connection.Put: the local and remote paths are recorded but files are not transferred.
- Repr.EscapeChar: characters above 127 are written as themselves. Python's `repr` escapes the non-printable ones among them as `\xhh`, `\uhhhh` or `\Uhhhhhhhh`, and Unicode printability is not modelled.
- Revisions.ClosureTrace: `cmd_args` of scons_remote/ActionRemote.py is taken to be the list of strings its annotation declares. Any other value would be written by its own `str()`, which is not modelled.
- `VERSION` of scons_remote/__init__.py:10 is a constant string with no behaviour.

## Findings

| source | as written | input that shows it | evidently intended | confidence | as-written member | corrected member |
|---|---|---|---|---|---|---|
| scons_remote/environment_remote.py:114 | `ActionRemote()` is called with no arguments, but the constructor (scons_remote/action_remote.py:15) takes `cmd` and `cmd_args` | any call of the factory, e.g. `env.ActionRemote("echo", [])` raises TypeError | `ActionRemote(cmd, cmd_args)` | not executed | Environment.EnvironmentRemote.MakeActionRemoteAsWritten | Environment.EnvironmentRemote.MakeActionRemote |
| scons_remote/action_remote.py:89-91 | the `finally` block reads `env._default_ec2_client_args` and two siblings, which `EnvironmentRemote` never defines, so AttributeError is raised before `_connection_close` | any action whose `check_env` passes and whose launch succeeds: the instance is never terminated | restore the defaults the environment holds, then tear down | not executed | Action.AsWrittenLeaksInstance | Action.ActionTearsDown |
| scons_remote/ActionRemote.py:32 | `make_dir` (and `os`) are used but never imported, so the first staging step raises NameError | any closure whose open connects: no staging operation is issued and the action fails | import `make_dir` and `os` from their modules | not executed | Revisions.ClosureAsWrittenNeverStages | Revisions.ClosureTearsDown |
