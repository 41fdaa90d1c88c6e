/** `action_remote` and `check_env` (scons_remote/action_remote.py): the SCons
    action that provisions the instance, stages one build step on it and tears
    everything down in its `finally` block. Its trace is specified by `ActionTrace`
    and the method `ActionRemote` is proved against it. */
module Action {
  import opened Wrappers
  import opened Responses
  import opened Remote
  import opened Plan
  import opened Staging
  import opened Lifecycle
  import opened Environment

  const NotSpecified: Error := UserError("ActionRemote was not specified correctly")

  /** The failure of `assert env._connection.is_connected`. */
  const NotConnected: Error := AssertionError("SSH failed to connect")

  /** `check_env`: the command and its argument string must both have been recorded. */
  function CheckEnv(remoteCmd: Option<string>, remoteCmdArgs: Option<string>): (r: Outcome<Error>)
    ensures r.Pass? <==> remoteCmd.Some? && remoteCmdArgs.Some?
    ensures r.Fail? ==> r.error == NotSpecified
  {
    if remoteCmd.None? || remoteCmdArgs.None? then Fail(NotSpecified) else Pass
  }

  // ---------------------------------------------------------------------------
  // The trace of one action

  /** The staging plan performed over the connection held in `s`: the part the
      connection executes, ending with RemoteOpFailed when a step raised. */
  function StageOn(s: State, cmd: string, cmdArgs: string, targets: seq<string>, sources: seq<Source>,
                   valueAware: bool, dirs: seq<string>): Step
    requires s.conn.Some?
  {
    var c := s.conn.value;
    var plan := StagePlan(cmd, cmdArgs, targets, sources, valueAware, dirs);
    var done := Executed(plan, c.failing, c.issued);
    Step(done, if Clean(plan, c.failing, c.issued) then Pass else Fail(RemoteOpFailed),
         s.(conn := Some(c.(issued := c.issued + |done|))))
  }

  /** The open ends normally with a connected connection, so staging begins. */
  predicate Reaches(s: State, cfg: Config, cloud: Cloud, attempts: seq<ConnectOutcome>)
    requires cloud.Settles()
  {
    var o := Open(s, cfg, cloud, attempts);
    o.outcome.Pass? && o.after.conn.Some? && o.after.conn.value.connected
  }

  /** The `try` block: open with the recorded arguments, assert the connection is
      up (reading `is_connected` of `None` raises AttributeError), then stage.
      `dirs` is the order in which Python's set yields the parent directories. */
  function Body(s: State, cfg: Config, cloud: Cloud, attempts: seq<ConnectOutcome>, cmd: string, cmdArgs: string,
                targets: seq<string>, sources: seq<Source>, valueAware: bool, dirs: seq<string>): Step
    requires cloud.Settles()
  {
    var o := Open(s, cfg, cloud, attempts);
    if o.outcome.Fail? then o
    else if o.after.conn.None? then Step(o.events, Fail(AttributeError), o.after)
    else if !o.after.conn.value.connected then Step(o.events, Fail(NotConnected), o.after)
    else
      var st := StageOn(o.after, cmd, cmdArgs, targets, sources, valueAware, dirs);
      Step(o.events + st.events, st.outcome, st.after)
  }

  /** `try: body finally: _connection_close()`: teardown runs after the body
      whatever its outcome; an exception from teardown replaces the body's. */
  function Finally(body: Step, terminateRaises: bool): Step
  {
    var c := Close(body.after, terminateRaises);
    Step(body.events + c.events, if c.outcome.Fail? then c.outcome else body.outcome, c.after)
  }

  /** `action_remote`: `check_env`, then the body with `Value` pass-through and
      the recorded command, then, in `finally`, teardown. */
  function ActionTrace(s: State, cfg: Config, cloud: Cloud, attempts: seq<ConnectOutcome>,
                       remoteCmd: Option<string>, remoteCmdArgs: Option<string>,
                       targets: seq<string>, sources: seq<Source>, dirs: seq<string>): Step
    requires cloud.Settles()
  {
    match CheckEnv(remoteCmd, remoteCmdArgs)
    case Fail(e) => Step([], Fail(e), s)
    case Pass =>
      Finally(Body(s, cfg, cloud, attempts, remoteCmd.value, remoteCmdArgs.value, targets, sources, true, dirs),
              cloud.terminateRaises)
  }

  /** The `finally` block as written: it first reads `_default_ec2_client_args`,
      which the environment never defines, so AttributeError is raised before
      `_connection_close` is reached. */
  function FinallyAsWritten(body: Step): Step
  {
    Step(body.events, Fail(AttributeError), body.after)
  }

  function ActionTraceAsWritten(s: State, cfg: Config, cloud: Cloud, attempts: seq<ConnectOutcome>,
                                remoteCmd: Option<string>, remoteCmdArgs: Option<string>,
                                targets: seq<string>, sources: seq<Source>, dirs: seq<string>): Step
    requires cloud.Settles()
  {
    match CheckEnv(remoteCmd, remoteCmdArgs)
    case Fail(e) => Step([], Fail(e), s)
    case Pass =>
      FinallyAsWritten(Body(s, cfg, cloud, attempts, remoteCmd.value, remoteCmdArgs.value, targets, sources, true, dirs))
  }

  // ---------------------------------------------------------------------------
  // What the trace guarantees

  /** A teardown call: the termination request or closing the connection. */
  predicate Teardown(e: Event)
  {
    e.TerminateInstances? || e.CloseSsh?
  }

  /** At most one termination request in `e`. */
  predicate TerminatesAtMostOnce(e: seq<Event>)
  {
    forall i, j :: 0 <= i < |e| && 0 <= j < |e| && e[i].TerminateInstances? && e[j].TerminateInstances? ==> i == j
  }

  /** No field records an instance without the client that launched it. */
  predicate Recorded(s: State)
  {
    s.req.Some? ==> s.hasClient
  }

  /** Without `check_env` passing nothing is provisioned and nothing is asked of
      any collaborator. */
  lemma UncheckedDoesNothing(s: State, cfg: Config, cloud: Cloud, attempts: seq<ConnectOutcome>,
                             remoteCmd: Option<string>, remoteCmdArgs: Option<string>,
                             targets: seq<string>, sources: seq<Source>, dirs: seq<string>)
    requires cloud.Settles() && (remoteCmd.None? || remoteCmdArgs.None?)
    ensures ActionTrace(s, cfg, cloud, attempts, remoteCmd, remoteCmdArgs, targets, sources, dirs)
         == Step([], Fail(NotSpecified), s)
  {
  }

  /** Every step of the plan is an operation over the SSH connection. */
  lemma PlanRemoteOnly(cmd: string, cmdArgs: string, targets: seq<string>, sources: seq<Source>,
                       valueAware: bool, dirs: seq<string>)
    ensures var p := StagePlan(cmd, cmdArgs, targets, sources, valueAware, dirs);
      forall j :: 0 <= j < |p| ==> IsRemoteOp(p[j])
  {
    StageLayout(cmd, cmdArgs, targets, sources, valueAware, dirs);
    PutOpsArePuts(sources, valueAware);
  }

  /** No teardown and no operation over the SSH connection. */
  predicate Provisioning(e: seq<Event>)
  {
    forall i :: 0 <= i < |e| ==> !Teardown(e[i]) && !IsRemoteOp(e[i])
  }

  lemma ProvisioningAppend(a: seq<Event>, b: seq<Event>)
    requires Provisioning(a) && Provisioning(b)
    ensures Provisioning(a + b)
  {
    assert forall i :: |a| <= i < |a + b| ==> (a + b)[i] == b[i - |a|];
  }

  /** The readiness wait calls no teardown and no remote operation. */
  lemma ReadinessProvisions(cloud: Cloud, ids: seq<string>)
    requires cloud.Settles()
    ensures Provisioning(Readiness(cloud, ids))
  {
    var e := Readiness(cloud, ids);
    ReadinessOnlyPolls(cloud, ids);
    forall i | 0 <= i < |e| ensures !Teardown(e[i]) && !IsRemoteOp(e[i]) {
      assert e[i] in e;
    }
  }

  /** Nor do the SSH attempts. */
  lemma ConnectingProvisions(s: State, cfg: Config, cloud: Cloud, attempts: seq<ConnectOutcome>)
    requires cloud.Settles()
    ensures Provisioning(Connecting(s, cfg, cloud, attempts).events)
  {
    var lookup := IpLookup(cloud);
    if lookup.Success? && |lookup.value| == 1 && cfg.sshTries.Some? && s.conn.None? {
      var ip := lookup.value[0];
      var r := Retry(attempts, ip, cfg.sshArgs, cfg.sshTries.value, 1);
      RetryOnlyAttempts(attempts, ip, cfg.sshArgs, cfg.sshTries.value, 1);
      forall i | 0 <= i < |r.events| ensures !Teardown(r.events[i]) && !IsRemoteOp(r.events[i]) {
        assert r.events[i] in r.events;
        assert r.events[i].SshConnect? || r.events[i] == Sleep(RetrySeconds);
      }
      assert Connecting(s, cfg, cloud, attempts).events == r.events;
    }
  }

  /** Opening only creates the client, launches, polls and attempts to connect. */
  lemma OpenProvisions(s: State, cfg: Config, cloud: Cloud, attempts: seq<ConnectOutcome>)
    requires cloud.Settles()
    ensures Provisioning(Open(s, cfg, cloud, attempts).events)
  {
    if cfg.clientArgs.Some? && !cloud.clientRaises && cfg.instanceArgs.Some? && cloud.launch.Some? {
      var ids := InstanceIds(cloud.launch.value);
      var s1 := s.(hasClient := true, req := cloud.launch);
      var c := Connecting(s1, cfg, cloud, attempts);
      var launched := [CreateClient(cfg.clientArgs.value)] + [Event.RunInstances(cfg.instanceArgs.value)];
      ReadinessProvisions(cloud, ids);
      ConnectingProvisions(s1, cfg, cloud, attempts);
      ProvisioningAppend(launched, Readiness(cloud, ids));
      ProvisioningAppend(launched + Readiness(cloud, ids), c.events);
    }
  }

  /** The body calls no teardown: all of it is provisioning and staging. */
  lemma BodyNoTeardown(s: State, cfg: Config, cloud: Cloud, attempts: seq<ConnectOutcome>, cmd: string, cmdArgs: string,
                       targets: seq<string>, sources: seq<Source>, valueAware: bool, dirs: seq<string>)
    requires cloud.Settles()
    ensures var e := Body(s, cfg, cloud, attempts, cmd, cmdArgs, targets, sources, valueAware, dirs).events;
      forall i :: 0 <= i < |e| ==> !Teardown(e[i])
  {
    var o := Open(s, cfg, cloud, attempts);
    OpenProvisions(s, cfg, cloud, attempts);
    if o.outcome.Pass? && o.after.conn.Some? && o.after.conn.value.connected {
      var c := o.after.conn.value;
      var plan := StagePlan(cmd, cmdArgs, targets, sources, valueAware, dirs);
      PlanRemoteOnly(cmd, cmdArgs, targets, sources, valueAware, dirs);
      var done := Executed(plan, c.failing, c.issued);
      assert forall j :: 0 <= j < |done| ==> done[j] == plan[j];
    }
  }

  /** Teardown asks for termination at most once, before it closes the
      connection, and closing is its last call. */
  lemma FinallyOrder(body: Step, terminateRaises: bool)
    requires forall i :: 0 <= i < |body.events| ==> !Teardown(body.events[i])
    ensures var e := Finally(body, terminateRaises).events;
      && TerminatesAtMostOnce(e)
      && (forall i, j :: 0 <= i < |e| && 0 <= j < |e| && e[i].TerminateInstances? && e[j].CloseSsh? ==> i < j)
      && (forall j :: 0 <= j < |e| && e[j].CloseSsh? ==> j == |e| - 1)
  {
    var c := Close(body.after, terminateRaises).events;
    var e := body.events + c;
    CloseOrder(body.after, terminateRaises);
    assert forall i :: 0 <= i < |c| && c[i].TerminateInstances? ==> i == 0;
    forall i | 0 <= i < |e| && Teardown(e[i]) ensures i >= |body.events| && e[i] == c[i - |body.events|] {
    }
  }

  /** Teardown runs once after the body: the instance, once launched, is asked
      to terminate exactly once, before the connection is closed, and the
      connection is closed last. Unless the provider refused the termination, no
      instance and no connection is left behind; a successful run releases
      everything. */
  lemma TryFinallyTearsDown(s: State, cfg: Config, cloud: Cloud, attempts: seq<ConnectOutcome>, cmd: string,
                            cmdArgs: string, targets: seq<string>, sources: seq<Source>, valueAware: bool,
                            dirs: seq<string>)
    requires cloud.Settles() && Recorded(s)
    ensures var r := Finally(Body(s, cfg, cloud, attempts, cmd, cmdArgs, targets, sources, valueAware, dirs),
                             cloud.terminateRaises);
      && TerminatesAtMostOnce(r.events)
      && (forall i, j :: (0 <= i < |r.events| && 0 <= j < |r.events|
                          && r.events[i].TerminateInstances? && r.events[j].CloseSsh?) ==> i < j)
      && (forall j :: 0 <= j < |r.events| && r.events[j].CloseSsh? ==> j == |r.events| - 1)
      && (cfg.clientArgs.Some? && !cloud.clientRaises && cfg.instanceArgs.Some? && cloud.launch.Some? ==>
            TerminateInstances(InstanceIds(cloud.launch.value)) in r.events)
      && (!cloud.terminateRaises ==> r.after.conn.None? && r.after.req.None?)
      && (r.outcome.Pass? ==> r.after == Released)
  {
    var b := Body(s, cfg, cloud, attempts, cmd, cmdArgs, targets, sources, valueAware, dirs);
    BodyNoTeardown(s, cfg, cloud, attempts, cmd, cmdArgs, targets, sources, valueAware, dirs);
    FinallyOrder(b, cloud.terminateRaises);
    CloseReleases(b.after, cloud.terminateRaises);
    var o := Open(s, cfg, cloud, attempts);
    assert b.after.hasClient == o.after.hasClient && b.after.req == o.after.req;
    if cfg.clientArgs.Some? && !cloud.clientRaises && cfg.instanceArgs.Some? && cloud.launch.Some? {
      OpenRecordsInstance(s, cfg, cloud, attempts, cloud.terminateRaises);
      CloseTerminatesFirst(b.after, cloud.terminateRaises);
      var c := Close(b.after, cloud.terminateRaises).events;
      assert (b.events + c)[|b.events|] == c[0];
    }
    if b.outcome.Pass? {
      assert o.after.hasClient && o.after.req.Some?;
    }
  }

  /** A successful run performs, after opening, the whole plan, then asks for
      termination (with the remote shutdown when that was refused) and closes the
      connection last. */
  lemma TryFinallySucceeds(s: State, cfg: Config, cloud: Cloud, attempts: seq<ConnectOutcome>, cmd: string,
                           cmdArgs: string, targets: seq<string>, sources: seq<Source>, valueAware: bool,
                           dirs: seq<string>)
    requires cloud.Settles()
    ensures var r := Finally(Body(s, cfg, cloud, attempts, cmd, cmdArgs, targets, sources, valueAware, dirs),
                             cloud.terminateRaises);
      r.outcome.Pass? ==>
        && cloud.launch.Some?
        && r.events == Open(s, cfg, cloud, attempts).events
             + StagePlan(cmd, cmdArgs, targets, sources, valueAware, dirs)
             + [TerminateInstances(InstanceIds(cloud.launch.value))]
             + (if cloud.terminateRaises then [Event.Run(ShutdownCommand, true)] else [])
             + [CloseSsh]
        && r.after == Released
  {
    var r := Finally(Body(s, cfg, cloud, attempts, cmd, cmdArgs, targets, sources, valueAware, dirs),
                     cloud.terminateRaises);
    if r.outcome.Pass? {
      var o := Open(s, cfg, cloud, attempts);
      var c := o.after.conn.value;
      var plan := StagePlan(cmd, cmdArgs, targets, sources, valueAware, dirs);
      ExecutedClean(plan, c.failing, c.issued);
    }
  }

  /** Whenever the command was checked, `action_remote` tears down as
      `TryFinallyTearsDown` says. */
  lemma ActionTearsDown(s: State, cfg: Config, cloud: Cloud, attempts: seq<ConnectOutcome>,
                        remoteCmd: Option<string>, remoteCmdArgs: Option<string>,
                        targets: seq<string>, sources: seq<Source>, dirs: seq<string>)
    requires cloud.Settles() && Recorded(s) && remoteCmd.Some? && remoteCmdArgs.Some?
    ensures var r := ActionTrace(s, cfg, cloud, attempts, remoteCmd, remoteCmdArgs, targets, sources, dirs);
      && TerminatesAtMostOnce(r.events)
      && (forall j :: 0 <= j < |r.events| && r.events[j].CloseSsh? ==> j == |r.events| - 1)
      && (cfg.clientArgs.Some? && !cloud.clientRaises && cfg.instanceArgs.Some? && cloud.launch.Some? ==>
            TerminateInstances(InstanceIds(cloud.launch.value)) in r.events)
      && (!cloud.terminateRaises ==> r.after.conn.None? && r.after.req.None?)
      && (r.outcome.Pass? ==> r.after == Released)
  {
    TryFinallyTearsDown(s, cfg, cloud, attempts, remoteCmd.value, remoteCmdArgs.value, targets, sources, true, dirs);
  }

  /** A successful action was checked, performed the whole plan with `Value`
      pass-through, then terminated the instance and closed the connection last. */
  lemma ActionSucceeds(s: State, cfg: Config, cloud: Cloud, attempts: seq<ConnectOutcome>,
                       remoteCmd: Option<string>, remoteCmdArgs: Option<string>,
                       targets: seq<string>, sources: seq<Source>, dirs: seq<string>)
    requires cloud.Settles()
    ensures var r := ActionTrace(s, cfg, cloud, attempts, remoteCmd, remoteCmdArgs, targets, sources, dirs);
      r.outcome.Pass? ==>
        && remoteCmd.Some? && remoteCmdArgs.Some? && cloud.launch.Some?
        && r.events == Open(s, cfg, cloud, attempts).events
             + StagePlan(remoteCmd.value, remoteCmdArgs.value, targets, sources, true, dirs)
             + [TerminateInstances(InstanceIds(cloud.launch.value))]
             + (if cloud.terminateRaises then [Event.Run(ShutdownCommand, true)] else [])
             + [CloseSsh]
        && r.after == Released
  {
    if remoteCmd.Some? && remoteCmdArgs.Some? {
      TryFinallySucceeds(s, cfg, cloud, attempts, remoteCmd.value, remoteCmdArgs.value, targets, sources, true, dirs);
    }
  }

  /** When the provider does not refuse the termination, a step that raises
      still gets the instance terminated and the connection closed, everything
      is released, and the staging error is reported. */
  lemma StagingFailureTearsDown(s: State, cfg: Config, cloud: Cloud, attempts: seq<ConnectOutcome>,
                                cmd: string, cmdArgs: string,
                                targets: seq<string>, sources: seq<Source>, dirs: seq<string>)
    requires cloud.Settles() && Reaches(s, cfg, cloud, attempts) && !cloud.terminateRaises
    requires var c := Open(s, cfg, cloud, attempts).after.conn.value;
      !Clean(StagePlan(cmd, cmdArgs, targets, sources, true, dirs), c.failing, c.issued)
    ensures var r := ActionTrace(s, cfg, cloud, attempts, Some(cmd), Some(cmdArgs), targets, sources, dirs);
      var o := Open(s, cfg, cloud, attempts);
      && r.outcome == Fail(RemoteOpFailed)
      && cloud.launch.Some?
      && r.events[|r.events| - 2..] == [TerminateInstances(InstanceIds(cloud.launch.value)), CloseSsh]
      && r.after == Released
  {
    var o := Open(s, cfg, cloud, attempts);
    assert o.after.hasClient && o.after.req == cloud.launch;
  }

  /** The `finally` block as written never reaches `_connection_close`: a launched
      instance is never asked to terminate, stays recorded, and even a staging
      that went through ends in AttributeError. */
  lemma AsWrittenLeaksInstance(s: State, cfg: Config, cloud: Cloud, attempts: seq<ConnectOutcome>,
                               cmd: string, cmdArgs: string,
                               targets: seq<string>, sources: seq<Source>, dirs: seq<string>)
    requires cloud.Settles() && cfg.clientArgs.Some? && !cloud.clientRaises && cfg.instanceArgs.Some? && cloud.launch.Some?
    ensures var r := ActionTraceAsWritten(s, cfg, cloud, attempts, Some(cmd), Some(cmdArgs), targets, sources, dirs);
      && r.outcome == Fail(AttributeError)
      && (forall i :: 0 <= i < |r.events| ==> !r.events[i].TerminateInstances?)
      && r.after.hasClient && r.after.req == cloud.launch
  {
    BodyNoTeardown(s, cfg, cloud, attempts, cmd, cmdArgs, targets, sources, true, dirs);
    OpenRecordsInstance(s, cfg, cloud, attempts, false);
  }

  // ---------------------------------------------------------------------------
  // The action over the environment

  /** Staging over the connection the environment holds, proved against `StageOn`. */
  method StageConnected(env: EnvironmentRemote, cmd: string, cmdArgs: string, targets: seq<string>,
                        sources: seq<Source>, valueAware: bool) returns (outcome: Outcome<Error>, dirs: seq<string>)
    requires env.Valid() && env.connection != null
    modifies env.log, env.connection
    ensures env.Valid()
    ensures var st := StageOn(old(env.View()), cmd, cmdArgs, targets, sources, valueAware, dirs);
      env.log.events == old(env.log.events) + st.events && outcome == st.outcome && env.View() == st.after
    ensures Enumerates(dirs, RemoteDirs(targets, sources, valueAware))
  {
    var ok;
    ok, dirs := Stage(env.connection, cmd, cmdArgs, targets, sources, valueAware);
    outcome := if ok then Pass else Fail(RemoteOpFailed);
  }

  /** The `try` block of `action_remote` over `env`, proved against `Body`. */
  method RunBody(env: EnvironmentRemote, cmd: string, cmdArgs: string, targets: seq<string>,
                 sources: seq<Source>, valueAware: bool) returns (outcome: Outcome<Error>, dirs: seq<string>)
    requires env.Valid() && env.cloud.Settles()
    modifies env, env.log, env.connection
    ensures env.Valid()
    ensures var b := Body(old(env.View()), old(env.Settings()), env.cloud, env.attempts,
                          cmd, cmdArgs, targets, sources, valueAware, dirs);
      env.log.events == old(env.log.events) + b.events && outcome == b.outcome && env.View() == b.after
    ensures Reaches(old(env.View()), old(env.Settings()), env.cloud, env.attempts) ==>
      Enumerates(dirs, RemoteDirs(targets, sources, valueAware))
    ensures env.Settings() == old(env.Settings())
    ensures env.remoteCmd == old(env.remoteCmd) && env.remoteCmdArgs == old(env.remoteCmdArgs)
    ensures env.connection == old(env.connection) || fresh(env.connection)
  {
    dirs := [];
    ghost var o := Open(old(env.View()), old(env.Settings()), env.cloud, env.attempts);
    outcome := env.ConnectionOpen(env.Settings());
    if outcome.Fail? {
      return;
    }
    if env.connection == null {
      outcome := Fail(AttributeError);
      return;
    }
    if !env.connection.connected {
      outcome := Fail(NotConnected);
      return;
    }
    ghost var st0 := env.View();
    outcome, dirs := StageConnected(env, cmd, cmdArgs, targets, sources, valueAware);
    ghost var st := StageOn(st0, cmd, cmdArgs, targets, sources, valueAware, dirs);
    AppendAssoc(old(env.log.events), o.events, st.events);
  }

  /** `action_remote` over `env`, proved against `ActionTrace`. */
  method ActionRemote(env: EnvironmentRemote, targets: seq<string>, sources: seq<Source>)
    returns (outcome: Outcome<Error>, dirs: seq<string>)
    requires env.Valid() && env.cloud.Settles()
    modifies env, env.log, env.connection
    ensures env.Valid()
    ensures var r := ActionTrace(old(env.View()), old(env.Settings()), env.cloud, env.attempts,
                                 old(env.remoteCmd), old(env.remoteCmdArgs), targets, sources, dirs);
      env.log.events == old(env.log.events) + r.events && outcome == r.outcome && env.View() == r.after
    ensures var checked := CheckEnv(old(env.remoteCmd), old(env.remoteCmdArgs));
      && (checked.Pass? && Reaches(old(env.View()), old(env.Settings()), env.cloud, env.attempts) ==>
            Enumerates(dirs, RemoteDirs(targets, sources, true)))
      && (checked.Pass? ==>
            env.Settings() == Config(env.defaultClientArgs, env.defaultInstanceArgs, env.defaultSshArgs, old(env.sshTries)))
      && (checked.Fail? ==> env.Settings() == old(env.Settings()))
    ensures env.remoteCmd == old(env.remoteCmd) && env.remoteCmdArgs == old(env.remoteCmdArgs)
  {
    dirs := [];
    outcome := CheckEnv(env.remoteCmd, env.remoteCmdArgs);
    if outcome.Fail? {
      return;
    }
    var body;
    body, dirs := RunBody(env, env.remoteCmd.value, env.remoteCmdArgs.value, targets, sources, true);
    ghost var b := Body(old(env.View()), old(env.Settings()), env.cloud, env.attempts,
                        env.remoteCmd.value, env.remoteCmdArgs.value, targets, sources, true, dirs);
    env.clientArgs := env.defaultClientArgs;
    env.instanceArgs := env.defaultInstanceArgs;
    env.sshArgs := env.defaultSshArgs;
    var closed := env.ConnectionClose();
    AppendAssoc(old(env.log.events), b.events, Close(b.after, env.cloud.terminateRaises).events);
    outcome := if closed.Fail? then closed else body;
  }
}
