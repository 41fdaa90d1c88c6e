/** The two earlier revisions of the action: the closure of
    scons_remote/ActionRemote.py, which opens and tears down like `action_remote`
    but has no `check_env`, no argument reset and no `Value` pass-through; and the
    closure of the single-file scons_remote.py, which stages over a connection
    captured when the action was made and never tears anything down. */
module Revisions {
  import opened Wrappers
  import opened Responses
  import opened Remote
  import opened Paths
  import opened Plan
  import opened Staging
  import opened Lifecycle
  import opened Environment
  import opened Action
  import opened Repr

  // ---------------------------------------------------------------------------
  // scons_remote/ActionRemote.py

  /** The closure with `make_dir` in scope: open, stage without `Value`
      pass-through using the captured command, whose argument list the f-string
      writes as its `repr`, and tear down in `finally`. */
  function ClosureTrace(s: State, cfg: Config, cloud: Cloud, attempts: seq<ConnectOutcome>, cmd: string,
                        cmdArgs: seq<string>, targets: seq<string>, sources: seq<Source>, dirs: seq<string>): Step
    requires cloud.Settles()
  {
    Finally(Body(s, cfg, cloud, attempts, cmd, ListRepr(cmdArgs), targets, sources, false, dirs), cloud.terminateRaises)
  }

  /** The closure as written: `make_dir` is never imported into the module, so
      once the connection is up its first staging step raises NameError and
      teardown follows. */
  function ClosureTraceAsWritten(s: State, cfg: Config, cloud: Cloud, attempts: seq<ConnectOutcome>, cmd: string,
                                 cmdArgs: seq<string>, targets: seq<string>, sources: seq<Source>): Step
    requires cloud.Settles()
  {
    var o := Open(s, cfg, cloud, attempts);
    var body := if Reaches(s, cfg, cloud, attempts) then Step(o.events, Fail(NameError("make_dir")), o.after)
                else Body(s, cfg, cloud, attempts, cmd, ListRepr(cmdArgs), targets, sources, false, []);
    Finally(body, cloud.terminateRaises)
  }

  /** As written, the closure never issues a staging operation: after the open
      comes teardown, whose only possible remote operation is the hidden
      shutdown, and the action fails even when everything else works. */
  lemma ClosureAsWrittenNeverStages(s: State, cfg: Config, cloud: Cloud, attempts: seq<ConnectOutcome>, cmd: string,
                                    cmdArgs: seq<string>, targets: seq<string>, sources: seq<Source>)
    requires cloud.Settles() && Reaches(s, cfg, cloud, attempts)
    ensures var r := ClosureTraceAsWritten(s, cfg, cloud, attempts, cmd, cmdArgs, targets, sources);
      var o := Open(s, cfg, cloud, attempts);
      && r.events == o.events + Close(o.after, cloud.terminateRaises).events
      && r.outcome.Fail?
      && (Close(o.after, cloud.terminateRaises).outcome.Pass? ==> r.outcome.error == NameError("make_dir"))
    ensures var e := ClosureTraceAsWritten(s, cfg, cloud, attempts, cmd, cmdArgs, targets, sources).events;
      forall i :: 0 <= i < |e| ==> !e[i].Put? && !e[i].Get? && (e[i].Run? ==> e[i] == Event.Run(ShutdownCommand, true))
  {
    var o := Open(s, cfg, cloud, attempts);
    var c := Close(o.after, cloud.terminateRaises).events;
    OpenProvisions(s, cfg, cloud, attempts);
    CloseOnlyTeardown(o.after, cloud.terminateRaises);
    forall i | 0 <= i < |o.events + c|
      ensures var x := (o.events + c)[i]; !x.Put? && !x.Get? && (x.Run? ==> x == Event.Run(ShutdownCommand, true))
    {
      if i >= |o.events| {
        assert (o.events + c)[i] == c[i - |o.events|];
      }
    }
  }

  /** With `make_dir` in scope the closure tears down like `action_remote`:
      termination is asked for at most once and exactly once after a launch, the
      connection is closed last, and a successful run releases everything. */
  lemma ClosureTearsDown(s: State, cfg: Config, cloud: Cloud, attempts: seq<ConnectOutcome>, cmd: string, cmdArgs: seq<string>,
                         targets: seq<string>, sources: seq<Source>, dirs: seq<string>)
    requires cloud.Settles() && Recorded(s)
    ensures var r := ClosureTrace(s, cfg, cloud, attempts, cmd, cmdArgs, targets, sources, dirs);
      && TerminatesAtMostOnce(r.events)
      && (forall j :: 0 <= j < |r.events| && r.events[j].CloseSsh? ==> j == |r.events| - 1)
      && (cfg.clientArgs.Some? && !cloud.clientRaises && cfg.instanceArgs.Some? && cloud.launch.Some? ==>
            TerminateInstances(InstanceIds(cloud.launch.value)) in r.events)
      && (!cloud.terminateRaises ==> r.after.conn.None? && r.after.req.None?)
      && (r.outcome.Pass? ==> r.after == Released)
  {
    TryFinallyTearsDown(s, cfg, cloud, attempts, cmd, ListRepr(cmdArgs), targets, sources, false, dirs);
  }

  /** A successful run performed the whole plan, every source uploaded, then
      terminated the instance and closed the connection last. */
  lemma ClosureSucceeds(s: State, cfg: Config, cloud: Cloud, attempts: seq<ConnectOutcome>, cmd: string, cmdArgs: seq<string>,
                        targets: seq<string>, sources: seq<Source>, dirs: seq<string>)
    requires cloud.Settles()
    ensures var r := ClosureTrace(s, cfg, cloud, attempts, cmd, cmdArgs, targets, sources, dirs);
      r.outcome.Pass? ==>
        && cloud.launch.Some?
        && r.events == Open(s, cfg, cloud, attempts).events
             + StagePlan(cmd, ListRepr(cmdArgs), targets, sources, false, dirs)
             + [TerminateInstances(InstanceIds(cloud.launch.value))]
             + (if cloud.terminateRaises then [Event.Run(ShutdownCommand, true)] else [])
             + [CloseSsh]
        && r.after == Released
  {
    TryFinallySucceeds(s, cfg, cloud, attempts, cmd, ListRepr(cmdArgs), targets, sources, false, dirs);
  }

  /** The closure's command line carries the argument list as Python shows a
      list: the command, a space, then the bracketed `repr` of the list. */
  lemma ClosureCommandShowsList(cmd: string, cmdArgs: seq<string>, targets: seq<string>, sources: seq<Source>,
                                dirs: seq<string>)
    ensures var p := StagePlan(cmd, ListRepr(cmdArgs), targets, sources, false, dirs);
      var line := p[CommandIndex(sources, false, dirs)];
      && line.Run? && line.hidden
      && |line.command| >= |cmd| + 1 + |ListRepr(cmdArgs)|
      && line.command[..|cmd| + 1 + |ListRepr(cmdArgs)|] == cmd + " " + ListRepr(cmdArgs)
      && line.command[|cmd| + 1] == '['
  {
    CommandAt(cmd, ListRepr(cmdArgs), targets, sources, false, dirs);
    var r := ListRepr(cmdArgs);
    CommandLineStarts(cmd, r, RemoteSources(sources, false), RemoteTargets(targets));
    assert (cmd + " " + r)[|cmd| + 1] == r[0];
  }

  /** The closure over the environment, proved against `ClosureTrace`. */
  method ClosureAction(env: EnvironmentRemote, cmd: string, cmdArgs: seq<string>, targets: seq<string>, sources: seq<Source>)
    returns (outcome: Outcome<Error>, dirs: seq<string>)
    requires env.Valid() && env.cloud.Settles()
    modifies env, env.log, env.connection
    ensures env.Valid()
    ensures var r := ClosureTrace(old(env.View()), old(env.Settings()), env.cloud, env.attempts,
                                  cmd, cmdArgs, targets, sources, dirs);
      env.log.events == old(env.log.events) + r.events && outcome == r.outcome && env.View() == r.after
    ensures Reaches(old(env.View()), old(env.Settings()), env.cloud, env.attempts) ==>
      Enumerates(dirs, RemoteDirs(targets, sources, false))
    ensures env.Settings() == old(env.Settings())
    ensures env.remoteCmd == old(env.remoteCmd) && env.remoteCmdArgs == old(env.remoteCmdArgs)
  {
    var body;
    body, dirs := RunBody(env, cmd, ListRepr(cmdArgs), targets, sources, false);
    ghost var b := Body(old(env.View()), old(env.Settings()), env.cloud, env.attempts,
                        cmd, ListRepr(cmdArgs), targets, sources, false, dirs);
    var closed := env.ConnectionClose();
    AppendAssoc(old(env.log.events), b.events, Close(b.after, env.cloud.terminateRaises).events);
    outcome := if closed.Fail? then closed else body;
  }

  // ---------------------------------------------------------------------------
  // scons_remote.py

  /** What the single-file factory returns: the command, its space-joined
      arguments, and the environment's `connection` at the time of the call. */
  datatype LegacyActionObject = LegacyActionObject(cmd: string, cmdArgs: string, connection: Connection?)

  /** `EnvironmentRemote.ActionRemote` of scons_remote.py. */
  function LegacyFactory(cmd: string, cmdArgs: seq<string>, connection: Connection?): LegacyActionObject
  {
    LegacyActionObject(cmd, JoinSpace(cmdArgs), connection)
  }

  /** The factory captures the connection as it is then, and the argument list
      can be read back from the joined string when no argument holds a space. */
  lemma LegacyFactoryKeepsArgs(cmd: string, cmdArgs: seq<string>, connection: Connection?)
    requires SpaceFree(cmdArgs)
    ensures var a := LegacyFactory(cmd, cmdArgs, connection);
      a.cmd == cmd && a.connection == connection && Split(a.cmdArgs) == Fields(cmdArgs)
  {
    SplitJoinSpace(cmdArgs);
  }

  /** The closure of scons_remote.py: with no captured connection the first
      `make_dir` calls `run` on `None` and raises AttributeError before any
      operation; otherwise it stages without `Value` pass-through. It has no
      `finally`: nothing is terminated or closed, whatever happens. */
  method LegacyAction(action: LegacyActionObject, targets: seq<string>, sources: seq<Source>)
    returns (outcome: Outcome<Error>, dirs: seq<string>)
    modifies if action.connection == null then {} else {action.connection, action.connection.log}
    ensures action.connection == null ==> outcome == Fail(AttributeError) && dirs == []
    ensures action.connection != null ==>
      var conn := action.connection;
      var done := Executed(StagePlan(action.cmd, action.cmdArgs, targets, sources, false, dirs), conn.failing, old(conn.issued));
      && Enumerates(dirs, RemoteDirs(targets, sources, false))
      && conn.log.events == old(conn.log.events) + done
      && (forall i :: 0 <= i < |done| ==> IsRemoteOp(done[i]))
      && (outcome.Pass? <==> Clean(StagePlan(action.cmd, action.cmdArgs, targets, sources, false, dirs),
                                   conn.failing, old(conn.issued)))
      && (outcome.Fail? ==> outcome.error == RemoteOpFailed)
      && conn.connected == old(conn.connected)
  {
    dirs := [];
    if action.connection == null {
      outcome := Fail(AttributeError);
      return;
    }
    var ok;
    ok, dirs := Stage(action.connection, action.cmd, action.cmdArgs, targets, sources, false);
    ghost var plan := StagePlan(action.cmd, action.cmdArgs, targets, sources, false, dirs);
    PlanRemoteOnly(action.cmd, action.cmdArgs, targets, sources, false, dirs);
    ghost var done := Executed(plan, action.connection.failing, old(action.connection.issued));
    assert forall i :: 0 <= i < |done| ==> done[i] == plan[i];
    outcome := if ok then Pass else Fail(RemoteOpFailed);
  }
}
