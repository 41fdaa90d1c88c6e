/** The connection lifecycle of `EnvironmentRemote` as pure functions of its three
    nullable fields (`_ec2_client`, `_ec2_req`, `_connection`): what
    `_connection_open` and `_connection_close` log, how they end and what the
    fields hold afterwards, given the oracles of the cloud provider and of the
    SSH attempts. The methods of the environment class are proved against them. */
module Lifecycle {
  import opened Wrappers
  import opened Responses
  import opened Remote

  /** What the environment knows of the object in `_connection`. */
  datatype ConnView = ConnView(failing: set<nat>, issued: nat, connected: bool)

  /** The three nullable fields: whether `_ec2_client` is set, `_ec2_req`, `_connection`. */
  datatype State = State(hasClient: bool, req: Option<LaunchResponse>, conn: Option<ConnView>)

  /** All three fields cleared: nothing left to tear down. */
  const Released: State := State(false, None, None)

  /** What one call does: the events it adds, how it ends, the fields after it. */
  datatype Step = Step(events: seq<Event>, outcome: Outcome<Error>, after: State)

  /** The four arguments `_connection_open` is given: the three dictionaries and `ssh_retries`. */
  datatype Config = Config(clientArgs: Option<Params>, instanceArgs: Option<Params>,
                           sshArgs: Option<Params>, sshTries: Option<int>)

  /** The fallback when the instance cannot be terminated through the API. */
  const ShutdownCommand: string := "sudo shutdown -h +1"

  /** Seconds slept between two readiness polls, and after a refused SSH attempt. */
  const PollSeconds: nat := 2
  const RetrySeconds: nat := 10

  /** The default of `ssh_retries`. */
  const DefaultSshRetries: int := 6

  /** The error `**None` raises. */
  const NotAMapping: Error := TypeError("argument after ** must be a mapping, not NoneType")

  /** The error `1 <= None` raises. */
  const NotComparable: Error := TypeError("'<=' not supported between instances of 'int' and 'NoneType'")

  // ---------------------------------------------------------------------------
  // _connection_close

  /** The last part of teardown: close any connection and clear the field. */
  function Disconnect(s: State, events: seq<Event>): (r: Step)
    ensures r.outcome == Pass && r.after.conn == None
    ensures r.after.hasClient == s.hasClient && r.after.req == s.req
  {
    if s.conn.Some? then Step(events + [CloseSsh], Pass, s.(conn := None))
    else Step(events, Pass, s)
  }

  /** `_connection_close`: terminate the launched instance (falling back to a
      remote shutdown when a connection exists and terminate raises ClientError),
      clear the client and the request, then close and clear the connection. A
      ClientError without a connection, or a failing shutdown, propagates and
      leaves the rest undone. */
  function Close(s: State, terminateRaises: bool): Step
  {
    if s.hasClient && s.req.Some? && s.conn.Some? then
      var terminate := [TerminateInstances(InstanceIds(s.req.value))];
      if !terminateRaises then Disconnect(s.(hasClient := false, req := None), terminate)
      else
        var c := s.conn.value;
        var shutdown := terminate + [Event.Run(ShutdownCommand, true)];
        var s1 := s.(conn := Some(c.(issued := c.issued + 1)));
        if c.issued in c.failing then Step(shutdown, Fail(RemoteOpFailed), s1)
        else Disconnect(s1.(hasClient := false, req := None), shutdown)
    else if s.hasClient && s.req.Some? then
      var terminate := [TerminateInstances(InstanceIds(s.req.value))];
      if terminateRaises then Step(terminate, Fail(ClientError), s)
      else Disconnect(s.(hasClient := false, req := None), terminate)
    else Disconnect(s, [])
  }

  /** A teardown that ends normally leaves nothing to tear down except a client
      without a request, and clears everything when an instance was launched. */
  lemma CloseReleases(s: State, terminateRaises: bool)
    ensures var r := Close(s, terminateRaises);
      r.outcome.Pass? ==> r.after.conn.None? && !(r.after.hasClient && r.after.req.Some?)
    ensures var r := Close(s, terminateRaises);
      r.outcome.Pass? && s.hasClient && s.req.Some? ==> r.after == Released
    ensures Close(s, terminateRaises).outcome.Fail? ==> s.hasClient && s.req.Some? && terminateRaises
  {
  }

  /** A second teardown after one that ended normally does nothing and changes nothing. */
  lemma CloseIdempotent(s: State, terminateRaises: bool, raisesAgain: bool)
    requires Close(s, terminateRaises).outcome.Pass?
    ensures var after := Close(s, terminateRaises).after;
      Close(after, raisesAgain) == Step([], Pass, after)
  {
    CloseReleases(s, terminateRaises);
  }

  /** Whenever an instance is recorded, teardown first asks for its termination. */
  lemma CloseTerminatesFirst(s: State, terminateRaises: bool)
    requires s.hasClient && s.req.Some?
    ensures var e := Close(s, terminateRaises).events;
      |e| >= 1 && e[0] == TerminateInstances(InstanceIds(s.req.value))
  {
  }

  /** Termination is asked for before the connection is closed, the connection is
      closed at most once and last, and teardown issues at most three events. */
  lemma CloseOrder(s: State, terminateRaises: bool)
    ensures var e := Close(s, terminateRaises).events;
      && |e| <= 3
      && (forall i, j :: 0 <= i < |e| && 0 <= j < |e| && e[i].TerminateInstances? && e[j].CloseSsh? ==> i < j)
      && (forall j :: 0 <= j < |e| && e[j].CloseSsh? ==> j == |e| - 1)
      && (forall j :: 0 <= j < |e| && e[j].CloseSsh? ==> s.conn.Some?)
  {
  }

  /** With a connection, a refused termination falls back to the remote shutdown;
      when that runs, everything is released and the connection closed last. */
  lemma CloseFallsBackToShutdown(s: State)
    requires s.hasClient && s.req.Some? && s.conn.Some?
    ensures var r := Close(s, true);
      && |r.events| >= 2 && r.events[1] == Event.Run(ShutdownCommand, true)
      && (s.conn.value.issued !in s.conn.value.failing ==>
            r.outcome == Pass && r.after == Released
            && r.events == [TerminateInstances(InstanceIds(s.req.value)), Event.Run(ShutdownCommand, true), CloseSsh])
      && (s.conn.value.issued in s.conn.value.failing ==> r.outcome == Fail(RemoteOpFailed) && r.after.hasClient)
  {
  }

  /** Teardown logs only the termination, the hidden shutdown and the close. */
  lemma CloseOnlyTeardown(s: State, terminateRaises: bool)
    ensures var e := Close(s, terminateRaises).events;
      forall i :: 0 <= i < |e| ==>
        e[i].TerminateInstances? || e[i] == Event.Run(ShutdownCommand, true) || e[i] == CloseSsh
  {
  }

  /** Without a connection only the termination is asked for: no remote command
      and no close; a refusal then propagates as ClientError. */
  lemma CloseWithoutConnection(s: State, terminateRaises: bool)
    requires s.hasClient && s.req.Some? && s.conn.None?
    ensures var r := Close(s, terminateRaises);
      && r.events == [TerminateInstances(InstanceIds(s.req.value))]
      && (r.outcome.Fail? <==> terminateRaises)
      && (r.outcome.Fail? ==> r.outcome.error == ClientError && r.after == s)
      && (!terminateRaises ==> r.after == Released)
  {
  }

  // ---------------------------------------------------------------------------
  // _connection_open: the readiness wait

  /** A describe answer that ends the readiness loop: the call raised, or every
      instance is running. */
  predicate EndsWait(answer: Option<DescribeResponse>)
  {
    answer.None? || AllRunning(answer.value)
  }

  /** The describe call (counting from `n`) that ends the readiness loop: the
      first to raise or to report every instance running. */
  function WaitEndsAt(cloud: Cloud, n: nat): (k: nat)
    requires cloud.Settles()
    ensures n <= k && EndsWait(cloud.Describe(k))
    ensures forall m :: n <= m < k ==> cloud.Describe(m).Some? && !AllRunning(cloud.Describe(m).value)
    decreases |cloud.polls| - n
  {
    if EndsWait(cloud.Describe(n)) then n else WaitEndsAt(cloud, n + 1)
  }

  /** The readiness loop of an open ends with a ClientError. */
  predicate WaitRaises(cloud: Cloud)
    requires cloud.Settles()
  {
    cloud.Describe(WaitEndsAt(cloud, 0)).None?
  }

  /** The events of the readiness loop from describe call `n` on. */
  function WaitEvents(cloud: Cloud, ids: seq<string>, n: nat): seq<Event>
    requires cloud.Settles()
    decreases |cloud.polls| - n
  {
    if EndsWait(cloud.Describe(n)) then [DescribeInstances(ids)]
    else [DescribeInstances(ids), Sleep(PollSeconds)] + WaitEvents(cloud, ids, n + 1)
  }

  /** `k` rounds of a described, still-pending instance followed by a pause. */
  function Pending(ids: seq<string>, k: nat): seq<Event>
  {
    if k == 0 then [] else [DescribeInstances(ids), Sleep(PollSeconds)] + Pending(ids, k - 1)
  }

  /** The readiness loop polls until the first answer that raises or has every
      instance running, sleeping once after every other answer. */
  lemma {:induction false} WaitShape(cloud: Cloud, ids: seq<string>, n: nat)
    requires cloud.Settles()
    ensures WaitEvents(cloud, ids, n) == Pending(ids, WaitEndsAt(cloud, n) - n) + [DescribeInstances(ids)]
    decreases |cloud.polls| - n
  {
    if !EndsWait(cloud.Describe(n)) {
      WaitShape(cloud, ids, n + 1);
    }
  }

  // ---------------------------------------------------------------------------
  // _connection_open: the SSH retry loop

  /** How the retry loop ends: with the new connection's failing operations, or an error. */
  datatype SshResult = Connected(failing: set<nat>) | NotConnected(error: Error)

  datatype Retrying = Retrying(events: seq<Event>, result: SshResult)

  /** How many more attempts the loop allows at `try_counter == counter`. */
  function Budget(tries: int, counter: int): nat
  {
    if counter <= tries then tries - counter + 1 else 0
  }

  /** The retry loop from `try_counter == counter` with no connection yet: each
      attempt that raises NoValidConnectionsError or TimeoutError is followed by
      one pause and another try; an accepted attempt ends the loop; any other
      exception propagates; when the count runs out, TimeoutError names `tries`. */
  function Retry(attempts: seq<ConnectOutcome>, host: string, sshArgs: Option<Params>, tries: int, counter: int): Retrying
    requires counter >= 1
    decreases Budget(tries, counter)
  {
    if counter > tries then Retrying([], NotConnected(SshTimeout(tries)))
    else if sshArgs.None? then Retrying([], NotConnected(NotAMapping))
    else
      var attempt := [SshConnect(host, sshArgs.value)];
      match Attempt(attempts, counter - 1)
      case Accepted(failing) => Retrying(attempt, Connected(failing))
      case Crashed => Retrying(attempt, NotConnected(SshError))
      case _ =>
        var rest := Retry(attempts, host, sshArgs, tries, counter + 1);
        Retrying(attempt + [Sleep(RetrySeconds)] + rest.events, rest.result)
  }

  /** `n` refused attempts, each followed by its pause. */
  function Refused(host: string, sshArgs: Params, n: nat): seq<Event>
  {
    if n == 0 then [] else [SshConnect(host, sshArgs), Sleep(RetrySeconds)] + Refused(host, sshArgs, n - 1)
  }

  lemma {:induction false} RefusedCounts(host: string, sshArgs: Params, n: nat)
    ensures |Refused(host, sshArgs, n)| == 2 * n
    ensures multiset(Refused(host, sshArgs, n))[SshConnect(host, sshArgs)] == n
    ensures multiset(Refused(host, sshArgs, n))[Sleep(RetrySeconds)] == n
  {
    if n > 0 {
      var rest := Refused(host, sshArgs, n - 1);
      RefusedCounts(host, sshArgs, n - 1);
      assert multiset(Refused(host, sshArgs, n))
          == multiset{SshConnect(host, sshArgs), Sleep(RetrySeconds)} + multiset(rest);
    }
  }

  /** One refused attempt within the budget: the attempt, its pause, then the
      loop from the next count. */
  lemma RetryRefusedStep(attempts: seq<ConnectOutcome>, host: string, sshArgs: Params, tries: int, counter: int)
    requires 1 <= counter <= tries && Attempt(attempts, counter - 1).Retryable()
    ensures var next := Retry(attempts, host, Some(sshArgs), tries, counter + 1);
      Retry(attempts, host, Some(sshArgs), tries, counter)
        == Retrying([SshConnect(host, sshArgs), Sleep(RetrySeconds)] + next.events, next.result)
  {
  }

  /** The loop makes at most as many attempts as its budget allows. */
  lemma {:induction false} RetryBounded(attempts: seq<ConnectOutcome>, host: string, sshArgs: Params, tries: int, counter: int)
    requires counter >= 1
    ensures multiset(Retry(attempts, host, Some(sshArgs), tries, counter).events)[SshConnect(host, sshArgs)]
         <= Budget(tries, counter)
    decreases Budget(tries, counter)
  {
    if counter <= tries && Attempt(attempts, counter - 1).Retryable() {
      var rest := Retry(attempts, host, Some(sshArgs), tries, counter + 1).events;
      var head := [SshConnect(host, sshArgs), Sleep(RetrySeconds)];
      RetryRefusedStep(attempts, host, sshArgs, tries, counter);
      RetryBounded(attempts, host, sshArgs, tries, counter + 1);
      assert multiset(head + rest) == multiset(head) + multiset(rest);
    }
  }

  /** Every event the loop logs is an attempt on `host` or a retry pause. */
  lemma {:induction false} RetryOnlyAttempts(attempts: seq<ConnectOutcome>, host: string, sshArgs: Option<Params>,
                                             tries: int, counter: int)
    requires counter >= 1
    ensures var e := Retry(attempts, host, sshArgs, tries, counter).events;
      && (forall x :: x in e ==> x.SshConnect? || x == Sleep(RetrySeconds))
      && (forall x :: x in e && x.SshConnect? ==> x.host == host)
    decreases Budget(tries, counter)
  {
    if counter <= tries && sshArgs.Some? && Attempt(attempts, counter - 1).Retryable() {
      RetryRefusedStep(attempts, host, sshArgs.value, tries, counter);
      RetryOnlyAttempts(attempts, host, sshArgs, tries, counter + 1);
    }
  }

  /** When every allowed attempt is refused, exactly that many are made, each
      followed by one pause, and TimeoutError names `tries`. */
  lemma {:induction false} RetryAllRefused(attempts: seq<ConnectOutcome>, host: string, sshArgs: Params, tries: int, counter: int)
    requires counter >= 1
    requires forall i :: counter - 1 <= i < tries ==> Attempt(attempts, i).Retryable()
    ensures Retry(attempts, host, Some(sshArgs), tries, counter)
         == Retrying(Refused(host, sshArgs, Budget(tries, counter)), NotConnected(SshTimeout(tries)))
    decreases Budget(tries, counter)
  {
    if counter <= tries {
      RetryAllRefused(attempts, host, sshArgs, tries, counter + 1);
    }
  }

  /** After `k` refused attempts and an accepted one, within the budget, the loop
      stops connected after exactly `k` pauses. */
  lemma {:induction false} RetryEventuallyAccepted(attempts: seq<ConnectOutcome>, host: string, sshArgs: Params,
                                                   tries: int, counter: int, k: nat)
    requires 1 <= counter && counter - 1 + k < tries
    requires forall i :: counter - 1 <= i < counter - 1 + k ==> Attempt(attempts, i).Retryable()
    requires Attempt(attempts, counter - 1 + k).Accepted?
    ensures Retry(attempts, host, Some(sshArgs), tries, counter)
         == Retrying(Refused(host, sshArgs, k) + [SshConnect(host, sshArgs)],
                     Connected(Attempt(attempts, counter - 1 + k).failing))
    decreases k
  {
    if k > 0 {
      RetryEventuallyAccepted(attempts, host, sshArgs, tries, counter + 1, k - 1);
    }
  }

  // ---------------------------------------------------------------------------
  // _connection_open as a whole

  /** `_connection_open`: create the client and record it, launch and record the
      request, wait until every instance runs, look up the single public IP, then
      try to connect. A `None` dictionary or count raises TypeError where Python
      would use it; a failing `boto3.client` leaves the fields as they were;
      ClientError from a describe call, KeyError for an instance without an
      address and ValueError for other than one IP are raised once the request is
      recorded. The loop is skipped when a connection already exists. */
  function Open(s: State, cfg: Config, cloud: Cloud, attempts: seq<ConnectOutcome>): Step
    requires cloud.Settles()
  {
    if cfg.clientArgs.None? then Step([], Fail(NotAMapping), s)
    else
      var created := [CreateClient(cfg.clientArgs.value)];
      if cloud.clientRaises then Step(created, Fail(ClientCreationError), s)
      else if cfg.instanceArgs.None? then Step(created, Fail(NotAMapping), s.(hasClient := true))
      else
        var launched := created + [Event.RunInstances(cfg.instanceArgs.value)];
        if cloud.launch.None? then Step(launched, Fail(ClientError), s.(hasClient := true))
        else
          var c := Connecting(s.(hasClient := true, req := cloud.launch), cfg, cloud, attempts);
          Step(launched + Readiness(cloud, InstanceIds(cloud.launch.value)) + c.events, c.outcome, c.after)
  }

  /** How the readiness wait and `instance_public_ips` end for a new client: a
      ClientError from the describe call that ends the wait or from the lookup's
      own call, KeyError when an instance has no address, or the IP list. */
  function IpLookup(cloud: Cloud): Result<seq<string>, Error>
    requires cloud.Settles()
  {
    var k := WaitEndsAt(cloud, 0);
    if cloud.Describe(k).None? then Failure(ClientError)
    else match cloud.Describe(k + 1)
      case None => Failure(ClientError)
      case Some(d) => if PublicIps(d).None? then Failure(MissingIpAddress) else Success(PublicIps(d).value)
  }

  /** The lookup raises ClientError exactly when the describe call ending the
      wait or the lookup's own call raised, KeyError exactly when the lookup's
      answer has an instance without an address, and otherwise answers the
      address of every described instance, in order. */
  lemma IpLookupCases(cloud: Cloud)
    requires cloud.Settles()
    ensures var answer := cloud.Describe(WaitEndsAt(cloud, 0) + 1);
      && (IpLookup(cloud) == Failure(ClientError) <==> WaitRaises(cloud) || answer.None?)
      && (IpLookup(cloud) == Failure(MissingIpAddress) <==>
            !WaitRaises(cloud) && answer.Some? && exists x :: x in AllInstances(answer.value) && !HasPublicIp(x))
      && (IpLookup(cloud).Success? ==>
            && !WaitRaises(cloud) && answer.Some?
            && IpLookup(cloud).value == Map(PublicIpOf, AllInstances(answer.value))
            && forall x :: x in AllInstances(answer.value) ==> HasPublicIp(x))
  {
    var answer := cloud.Describe(WaitEndsAt(cloud, 0) + 1);
    if answer.Some? {
      PublicIpsPerInstance(answer.value);
    }
  }

  /** The rest of `_connection_open` once the instance is recorded: how the
      readiness wait and the IP lookup end, the check on the looked-up IPs and
      the retry loop. */
  function Connecting(s: State, cfg: Config, cloud: Cloud, attempts: seq<ConnectOutcome>): Step
    requires cloud.Settles()
  {
    match IpLookup(cloud)
    case Failure(e) => Step([], Fail(e), s)
    case Success(ips) =>
      if |ips| != 1 then Step([], Fail(ValueError), s)
      else if cfg.sshTries.None? then Step([], Fail(NotComparable), s)
      else Dial(s, attempts, ips[0], cfg.sshArgs, cfg.sshTries.value)
  }

  /** The retry loop from state `s` against `host`: skipped when a connection is
      already recorded, otherwise the attempts of `Retry` and, after an accepted
      one, a fresh connection with no operation issued yet. */
  function Dial(s: State, attempts: seq<ConnectOutcome>, host: string, sshArgs: Option<Params>, tries: int): Step
  {
    if s.conn.Some? then Step([], Pass, s)
    else
      var r := Retry(attempts, host, sshArgs, tries, 1);
      match r.result
      case Connected(failing) => Step(r.events, Pass, s.(conn := Some(ConnView(failing, 0, true))))
      case NotConnected(e) => Step(r.events, Fail(e), s)
  }

  /** The client and the launch request are recorded before the readiness wait and
      the SSH attempts, so whatever happens afterwards teardown can find the
      instance: its first event is the termination of the launched ids. */
  lemma OpenRecordsInstance(s: State, cfg: Config, cloud: Cloud, attempts: seq<ConnectOutcome>, terminateRaises: bool)
    requires cloud.Settles() && cfg.clientArgs.Some? && !cloud.clientRaises && cfg.instanceArgs.Some? && cloud.launch.Some?
    ensures var o := Open(s, cfg, cloud, attempts);
      && o.after.hasClient && o.after.req == cloud.launch
      && Close(o.after, terminateRaises).events[0] == TerminateInstances(InstanceIds(cloud.launch.value))
  {
    CloseTerminatesFirst(Open(s, cfg, cloud, attempts).after, terminateRaises);
  }

  /** A failing `boto3.client` logs only the call and leaves every field as it was. */
  lemma OpenClientFails(s: State, cfg: Config, cloud: Cloud, attempts: seq<ConnectOutcome>)
    requires cloud.Settles() && cfg.clientArgs.Some? && cloud.clientRaises
    ensures Open(s, cfg, cloud, attempts) == Step([CreateClient(cfg.clientArgs.value)], Fail(ClientCreationError), s)
  {
  }

  /** When a describe call raises or an instance has no address, the open ends
      with that error after the readiness wait: no SSH attempt is made, and the
      client and the request stay recorded for teardown. */
  lemma OpenLookupFails(s: State, cfg: Config, cloud: Cloud, attempts: seq<ConnectOutcome>)
    requires cloud.Settles() && cfg.clientArgs.Some? && !cloud.clientRaises && cfg.instanceArgs.Some? && cloud.launch.Some?
    requires IpLookup(cloud).Failure?
    ensures var o := Open(s, cfg, cloud, attempts);
      && o.outcome == Fail(IpLookup(cloud).error)
      && (o.outcome.error == ClientError || o.outcome.error == MissingIpAddress)
      && o.after == s.(hasClient := true, req := cloud.launch)
      && forall x :: x in o.events ==> !x.SshConnect?
  {
    var ids := InstanceIds(cloud.launch.value);
    ReadinessOnlyPolls(cloud, ids);
    var o := Open(s, cfg, cloud, attempts);
    assert o.events == [CreateClient(cfg.clientArgs.value)] + [Event.RunInstances(cfg.instanceArgs.value)]
      + Readiness(cloud, ids) + [];
  }

  /** An open that ends normally from a state without a connection leaves a
      fresh, connected one whose failing operations are those of the accepted
      attempt. */
  lemma OpenConnects(s: State, cfg: Config, cloud: Cloud, attempts: seq<ConnectOutcome>)
    requires cloud.Settles() && s.conn.None?
    ensures var o := Open(s, cfg, cloud, attempts);
      o.outcome.Pass? ==>
        && o.after.hasClient && o.after.req == cloud.launch && cloud.launch.Some?
        && o.after.conn.Some? && o.after.conn.value.connected && o.after.conn.value.issued == 0
        && exists i :: 0 <= i < |attempts| && attempts[i] == Accepted(o.after.conn.value.failing)
  {
    var o := Open(s, cfg, cloud, attempts);
    if o.outcome.Pass? {
      var ips := IpLookup(cloud).value;
      AcceptedAttemptExists(attempts, ips[0], cfg.sshArgs, cfg.sshTries.value, 1);
    }
  }

  /** A connected result comes from an accepted attempt in the oracle. */
  lemma {:induction false} AcceptedAttemptExists(attempts: seq<ConnectOutcome>, host: string, sshArgs: Option<Params>, tries: int, counter: int)
    requires counter >= 1
    ensures var r := Retry(attempts, host, sshArgs, tries, counter);
      r.result.Connected? ==> exists i :: 0 <= i < |attempts| && attempts[i] == Accepted(r.result.failing)
    decreases Budget(tries, counter)
  {
    if counter <= tries && sshArgs.Some? && Attempt(attempts, counter - 1).Retryable() {
      AcceptedAttemptExists(attempts, host, sshArgs, tries, counter + 1);
    }
  }

  /** The readiness wait and, unless the wait raised, the IP lookup's describe
      call. */
  function Readiness(cloud: Cloud, ids: seq<string>): seq<Event>
    requires cloud.Settles()
  {
    WaitEvents(cloud, ids, 0) + (if WaitRaises(cloud) then [] else [DescribeInstances(ids)])
  }

  lemma ReadinessOnlyPolls(cloud: Cloud, ids: seq<string>)
    requires cloud.Settles()
    ensures forall x :: x in Readiness(cloud, ids) ==> x.DescribeInstances? || x == Sleep(PollSeconds)
  {
    WaitShape(cloud, ids, 0);
    PendingOnlyPolls(ids, WaitEndsAt(cloud, 0));
  }

  lemma {:induction false} PendingOnlyPolls(ids: seq<string>, k: nat)
    ensures forall x :: x in Pending(ids, k) ==> x == DescribeInstances(ids) || x == Sleep(PollSeconds)
  {
    if k > 0 {
      PendingOnlyPolls(ids, k - 1);
    }
  }

  /** An open never makes more SSH attempts than `ssh_retries` allows. */
  lemma OpenAttemptsBounded(s: State, cfg: Config, cloud: Cloud, attempts: seq<ConnectOutcome>, host: string)
    requires cloud.Settles() && cfg.sshArgs.Some? && cfg.sshTries.Some?
    ensures multiset(Open(s, cfg, cloud, attempts).events)[SshConnect(host, cfg.sshArgs.value)]
         <= Budget(cfg.sshTries.value, 1)
  {
    var x := SshConnect(host, cfg.sshArgs.value);
    if cfg.clientArgs.Some? && !cloud.clientRaises && cfg.instanceArgs.Some? && cloud.launch.Some? {
      var ids := InstanceIds(cloud.launch.value);
      var described := [CreateClient(cfg.clientArgs.value)] + [Event.RunInstances(cfg.instanceArgs.value)]
        + Readiness(cloud, ids);
      ReadinessOnlyPolls(cloud, ids);
      assert x !in described;
      var c := Connecting(s.(hasClient := true, req := cloud.launch), cfg, cloud, attempts);
      ConnectingAttemptsBounded(s.(hasClient := true, req := cloud.launch), cfg, cloud, attempts, host);
      assert multiset(described + c.events)[x] == multiset(c.events)[x];
    }
  }

  lemma ConnectingAttemptsBounded(s: State, cfg: Config, cloud: Cloud, attempts: seq<ConnectOutcome>, host: string)
    requires cloud.Settles() && cfg.sshArgs.Some? && cfg.sshTries.Some?
    ensures multiset(Connecting(s, cfg, cloud, attempts).events)[SshConnect(host, cfg.sshArgs.value)]
         <= Budget(cfg.sshTries.value, 1)
  {
    var lookup := IpLookup(cloud);
    if lookup.Success? && |lookup.value| == 1 && s.conn.None? {
      var ip := lookup.value[0];
      var r := Retry(attempts, ip, cfg.sshArgs, cfg.sshTries.value, 1);
      RetryBounded(attempts, ip, cfg.sshArgs.value, cfg.sshTries.value, 1);
      RetryOnlyAttempts(attempts, ip, cfg.sshArgs, cfg.sshTries.value, 1);
      if ip != host {
        RetryOnlyOnHost(r.events, ip, host, cfg.sshArgs.value);
      }
    }
  }

  lemma RetryOnlyOnHost(e: seq<Event>, h: string, host: string, sshArgs: Params)
    requires h != host
    requires forall x :: x in e ==> x.SshConnect? || x == Sleep(RetrySeconds)
    requires forall x :: x in e && x.SshConnect? ==> x.host == h
    ensures multiset(e)[SshConnect(host, sshArgs)] == 0
  {
    assert SshConnect(host, sshArgs) !in e;
  }
}
