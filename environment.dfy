/** `EnvironmentRemote` (scons_remote/environment_remote.py): the fields it keeps
    between builds, and the methods that launch, connect, tear down and record
    the remote command. The oracles of the cloud provider and of the SSH attempts
    are fixed when the environment is made. */
module Environment {
  import opened Wrappers
  import opened Responses
  import opened Remote
  import opened Utils
  import opened Paths
  import opened Lifecycle

  /** An `ActionRemote` object: the action function with the command it was made for. */
  datatype ActionObject = ActionRemote(cmd: string, cmdArgs: string)

  /** What `CommandRemote` may be handed as its action. */
  datatype ActionArg = RemoteAction(obj: ActionObject) | OtherAction

  /** The call `self.Command(target, source, action.action, **kw)` it makes. */
  datatype Command = Command(target: seq<string>, source: seq<string>, action: ActionObject)

  const WrongAction: Error := TypeError("Argument `action` must be an object of class `ActionRemote`")

  /** `ActionRemote(*args)`: the constructor takes exactly `cmd` and `cmd_args`;
      any other number of arguments raises TypeError. */
  function Construct(args: seq<string>): (r: Result<ActionObject, Error>)
    ensures r.Success? <==> |args| == 2
    ensures r.Success? ==> r.value.cmd == args[0] && r.value.cmdArgs == args[1]
  {
    if |args| == 2 then Success(ActionRemote(args[0], args[1]))
    else Failure(TypeError("ActionRemote.__init__() takes exactly two arguments"))
  }

  /** `CommandRemote`: only an `ActionRemote` object is accepted; its action
      function is handed on with the targets and sources unchanged. */
  function CommandRemote(target: seq<string>, source: seq<string>, action: ActionArg): (r: Result<Command, Error>)
    ensures r.Success? <==> action.RemoteAction?
    ensures r.Success? ==> r.value.target == target && r.value.source == source && r.value.action == action.obj
    ensures r.Failure? ==> r.error == WrongAction
  {
    match action
    case RemoteAction(obj) => Success(Command(target, source, obj))
    case OtherAction => Failure(WrongAction)
  }

  /** The pending rounds of the readiness loop, one more at the end. */
  lemma {:induction false} PendingSnoc(ids: seq<string>, k: nat)
    ensures Pending(ids, k + 1) == Pending(ids, k) + [DescribeInstances(ids), Sleep(PollSeconds)]
  {
    if k > 0 {
      PendingSnoc(ids, k - 1);
      AppendAssoc([DescribeInstances(ids), Sleep(PollSeconds)], Pending(ids, k - 1),
                  [DescribeInstances(ids), Sleep(PollSeconds)]);
    }
  }

  /** A poll, a pause and a poll appended to `a + p`, regrouped around `p`. */
  lemma Regroup<T>(a: seq<T>, p: seq<T>, x: T, y: T)
    ensures a + p + [x] + [y] + [x] == a + (p + [x, y]) + [x]
  {
  }

  class EnvironmentRemote {
    const log: Log
    const cloud: Cloud
    const attempts: seq<ConnectOutcome>
    /** The values the action restores after each build. */
    const defaultClientArgs: Option<Params>
    const defaultInstanceArgs: Option<Params>
    const defaultSshArgs: Option<Params>

    var connection: Connection?
    var client: Ec2Client?
    var req: Option<LaunchResponse>
    var clientArgs: Option<Params>
    var instanceArgs: Option<Params>
    var sshArgs: Option<Params>
    var sshTries: Option<int>
    var remoteCmd: Option<string>
    var remoteCmdArgs: Option<string>

    /** The collaborators the environment holds talk to its log and its cloud. */
    predicate Valid()
      reads this, connection, client
    {
      && (connection != null ==> connection.log == log)
      && (client != null ==> client.log == log && client.cloud == cloud)
    }

    /** The three nullable fields, as the lifecycle functions see them. */
    function View(): State
      reads this, connection
    {
      State(client != null, req,
            if connection == null then None
            else Some(ConnView(connection.failing, connection.issued, connection.connected)))
    }

    /** The four arguments `_connection_open` is called with. */
    function Settings(): Config
      reads this
    {
      Config(clientArgs, instanceArgs, sshArgs, sshTries)
    }

    /** Every attribute starts as `None`. */
    constructor (log: Log, cloud: Cloud, attempts: seq<ConnectOutcome>,
                 defaultClientArgs: Option<Params>, defaultInstanceArgs: Option<Params>, defaultSshArgs: Option<Params>)
      ensures this.log == log && this.cloud == cloud && this.attempts == attempts
      ensures this.defaultClientArgs == defaultClientArgs && this.defaultInstanceArgs == defaultInstanceArgs
      ensures this.defaultSshArgs == defaultSshArgs
      ensures Valid() && View() == Released && Settings() == Config(None, None, None, None)
      ensures remoteCmd == None && remoteCmdArgs == None
    {
      this.log := log;
      this.cloud := cloud;
      this.attempts := attempts;
      this.defaultClientArgs := defaultClientArgs;
      this.defaultInstanceArgs := defaultInstanceArgs;
      this.defaultSshArgs := defaultSshArgs;
      connection := null;
      client := null;
      req := None;
      clientArgs := None;
      instanceArgs := None;
      sshArgs := None;
      sshTries := None;
      remoteCmd := None;
      remoteCmdArgs := None;
    }

    /** `connection_initialize`: record the arguments of the next open; `ssh_retries`
        defaults to 6. */
    method ConnectionInitialize(clientArgs: Params, instanceArgs: Params, sshArgs: Params, sshRetries: int := DefaultSshRetries)
      modifies this
      ensures Settings() == Config(Some(clientArgs), Some(instanceArgs), Some(sshArgs), Some(sshRetries))
      ensures View() == old(View()) && remoteCmd == old(remoteCmd) && remoteCmdArgs == old(remoteCmdArgs)
      ensures connection == old(connection) && client == old(client)
    {
      this.clientArgs := Some(clientArgs);
      this.instanceArgs := Some(instanceArgs);
      this.sshArgs := Some(sshArgs);
      this.sshTries := Some(sshRetries);
    }

    /** The `ActionRemote` factory: record the command and its space-joined
        arguments on the environment and make the action object for them. */
    method MakeActionRemote(cmd: string, cmdArgs: seq<string>) returns (action: Result<ActionObject, Error>)
      modifies this
      ensures remoteCmd == Some(cmd) && remoteCmdArgs == Some(JoinSpace(cmdArgs))
      ensures action == Success(ActionRemote(cmd, JoinSpace(cmdArgs)))
      ensures View() == old(View()) && Settings() == old(Settings())
      ensures connection == old(connection) && client == old(client)
    {
      var joined := JoinSpace(cmdArgs);
      remoteCmd := Some(cmd);
      remoteCmdArgs := Some(joined);
      action := Construct([cmd, joined]);
    }

    /** The factory as written: the constructor is called with no arguments, so
        after recording the command it always raises TypeError. */
    method MakeActionRemoteAsWritten(cmd: string, cmdArgs: seq<string>) returns (action: Result<ActionObject, Error>)
      modifies this
      ensures remoteCmd == Some(cmd) && remoteCmdArgs == Some(JoinSpace(cmdArgs))
      ensures action.Failure? && action.error.TypeError?
      ensures View() == old(View()) && Settings() == old(Settings())
      ensures connection == old(connection) && client == old(client)
    {
      var joined := JoinSpace(cmdArgs);
      remoteCmd := Some(cmd);
      remoteCmdArgs := Some(joined);
      action := Construct([]);
    }

    /** `while not all(instance_running(...)): time.sleep(2)`; `raised` tells
        whether the describe call that ended it raised ClientError. */
    static method WaitRunning(c: Ec2Client, resp: LaunchResponse) returns (raised: bool)
      requires c.cloud.Settles()
      modifies c, c.log
      ensures c.log.events == old(c.log.events) + WaitEvents(c.cloud, InstanceIds(resp), old(c.describeCalls))
      ensures c.describeCalls == WaitEndsAt(c.cloud, old(c.describeCalls)) + 1
      ensures raised == c.cloud.Describe(WaitEndsAt(c.cloud, old(c.describeCalls))).None?
    {
      ghost var n0 := c.describeCalls;
      ghost var before := c.log.events;
      var ready;
      ready, raised := Polled(c, resp);
      while !ready && !raised
        invariant n0 < c.describeCalls <= WaitEndsAt(c.cloud, n0) + 1
        invariant raised == c.cloud.Describe(c.describeCalls - 1).None?
        invariant ready == (!raised && AllRunning(c.cloud.Describe(c.describeCalls - 1).value))
        invariant c.log.events == before + Pending(InstanceIds(resp), c.describeCalls - 1 - n0)
                                  + [DescribeInstances(InstanceIds(resp))]
        decreases WaitEndsAt(c.cloud, n0) + 1 - c.describeCalls
      {
        ready, raised := PollAgain(c, resp, n0, before);
      }
      assert c.describeCalls - 1 == WaitEndsAt(c.cloud, n0);
      WaitShape(c.cloud, InstanceIds(resp), n0);
      AppendAssoc(before, Pending(InstanceIds(resp), c.describeCalls - 1 - n0), [DescribeInstances(InstanceIds(resp))]);
    }

    /** `all(instance_running(client, instance_req))`, or the ClientError of its describe call. */
    static method Polled(c: Ec2Client, resp: LaunchResponse) returns (ready: bool, raised: bool)
      modifies c, c.log
      ensures c.log.events == old(c.log.events) + [DescribeInstances(InstanceIds(resp))]
      ensures c.describeCalls == old(c.describeCalls) + 1
      ensures var answer := c.cloud.Describe(old(c.describeCalls));
        raised == answer.None? && ready == (answer.Some? && AllRunning(answer.value))
    {
      var running := InstanceRunning(c, resp);
      if running.Failure? {
        return false, true;
      }
      RunningPerInstance(c.cloud.Describe(old(c.describeCalls)).value);
      ready, raised := AllTrue(running.value), false;
    }

    /** One pass of the readiness loop on a still-pending answer: the pause and
        the next poll. */
    static method PollAgain(c: Ec2Client, resp: LaunchResponse, ghost n0: nat, ghost before: seq<Event>)
      returns (ready: bool, raised: bool)
      requires c.cloud.Settles() && n0 < c.describeCalls <= WaitEndsAt(c.cloud, n0) + 1
      requires !EndsWait(c.cloud.Describe(c.describeCalls - 1))
      requires c.log.events == before + Pending(InstanceIds(resp), c.describeCalls - 1 - n0)
                               + [DescribeInstances(InstanceIds(resp))]
      modifies c, c.log
      ensures c.describeCalls == old(c.describeCalls) + 1 <= WaitEndsAt(c.cloud, n0) + 1
      ensures var answer := c.cloud.Describe(old(c.describeCalls));
        raised == answer.None? && ready == (answer.Some? && AllRunning(answer.value))
      ensures c.log.events == before + Pending(InstanceIds(resp), c.describeCalls - 1 - n0)
                              + [DescribeInstances(InstanceIds(resp))]
    {
      ghost var ids := InstanceIds(resp);
      ghost var k := c.describeCalls - 1 - n0;
      PendingSnoc(ids, k);
      Pause(c.log, PollSeconds);
      ready, raised := Polled(c, resp);
      Regroup(before, Pending(ids, k), DescribeInstances(ids), Sleep(PollSeconds));
    }

    /** `_connection_open`, proved against `Open`. */
    method ConnectionOpen(cfg: Config) returns (outcome: Outcome<Error>)
      requires Valid() && cloud.Settles()
      modifies this, log
      ensures Valid()
      ensures var o := Open(old(View()), cfg, cloud, attempts);
        log.events == old(log.events) + o.events && outcome == o.outcome && View() == o.after
      ensures Settings() == old(Settings()) && remoteCmd == old(remoteCmd) && remoteCmdArgs == old(remoteCmdArgs)
      ensures connection == old(connection) || fresh(connection)
    {
      if cfg.clientArgs.None? {
        outcome := Fail(NotAMapping);
        return;
      }
      var c := NewClient(log, cfg.clientArgs.value, cloud);
      if c == null {
        outcome := Fail(ClientCreationError);
        return;
      }
      client := c;
      if cfg.instanceArgs.None? {
        outcome := Fail(NotAMapping);
        return;
      }
      var instanceReq := c.RunInstances(cfg.instanceArgs.value);
      if instanceReq.None? {
        outcome := Fail(ClientError);
        return;
      }
      req := instanceReq;
      assert View() == old(View()).(hasClient := true, req := cloud.launch);
      outcome := AwaitAndConnect(c, instanceReq.value, cfg, old(log.events),
                                 [CreateClient(cfg.clientArgs.value)] + [Event.RunInstances(cfg.instanceArgs.value)]);
    }

    /** The part of `_connection_open` after the launch is recorded, proved
        against `Connecting`. */
    method AwaitAndConnect(c: Ec2Client, resp: LaunchResponse, cfg: Config, ghost base: seq<Event>, ghost launched: seq<Event>)
      returns (outcome: Outcome<Error>)
      requires Valid() && cloud.Settles() && client == c && c.describeCalls == 0
      requires log.events == base + launched
      modifies this, log, c
      ensures Valid()
      ensures var o := Connecting(old(View()), cfg, cloud, attempts);
        log.events == base + (launched + Readiness(cloud, InstanceIds(resp)) + o.events)
        && outcome == o.outcome && View() == o.after
      ensures Settings() == old(Settings()) && remoteCmd == old(remoteCmd) && remoteCmdArgs == old(remoteCmdArgs)
      ensures connection == old(connection) || fresh(connection)
    {
      ghost var ready := Readiness(cloud, InstanceIds(resp));
      var raised := WaitRunning(c, resp);
      if raised {
        assert log.events == base + (launched + ready) + [];
        outcome := Fail(ClientError);
        return;
      }
      var ips := InstancePublicIps(c, resp);
      assert log.events == base + (launched + ready) + [];
      if ips.Failure? {
        outcome := Fail(ips.error);
        return;
      }
      if |ips.value| != 1 {
        outcome := Fail(ValueError);
        return;
      }
      var publicIp := ips.value[0];
      if cfg.sshTries.None? {
        outcome := Fail(NotComparable);
        return;
      }
      ghost var d := Dial(old(View()), attempts, publicIp, cfg.sshArgs, cfg.sshTries.value);
      outcome := Connect(cfg.sshArgs, cfg.sshTries.value, publicIp);
      AppendAssoc(base, launched + ready, d.events);
    }

    /** The SSH retry loop of `_connection_open`, run after the instance is up,
        proved against `Dial`. */
    method Connect(sshArgs: Option<Params>, tries: int, host: string) returns (outcome: Outcome<Error>)
      requires Valid()
      modifies this, log
      ensures Valid()
      ensures var d := Dial(old(View()), attempts, host, sshArgs, tries);
        log.events == old(log.events) + d.events && outcome == d.outcome && View() == d.after
      ensures connection == old(connection) || fresh(connection)
      ensures client == old(client) && req == old(req)
      ensures Settings() == old(Settings()) && remoteCmd == old(remoteCmd) && remoteCmdArgs == old(remoteCmdArgs)
    {
      if connection != null {
        outcome := Pass;
        return;
      }
      var con;
      con, outcome := RetryConnect(host, sshArgs, tries);
      if con != null {
        connection := con;
      }
    }

    /** The `while try_counter <= ssh_tries and not self._connection` loop,
        entered without a connection, proved against `Retry`. */
    method RetryConnect(host: string, sshArgs: Option<Params>, tries: int) returns (con: Connection?, outcome: Outcome<Error>)
      modifies log
      ensures var r := Retry(attempts, host, sshArgs, tries, 1);
        && log.events == old(log.events) + r.events
        && (r.result.Connected? ==>
              && outcome == Pass && con != null && fresh(con) && con.log == log
              && con.failing == r.result.failing && con.issued == 0 && con.connected)
        && (r.result.NotConnected? ==> outcome == Fail(r.result.error) && con == null)
    {
      ghost var whole := Retry(attempts, host, sshArgs, tries, 1);
      ghost var before := log.events;
      ghost var done: seq<Event> := [];
      con := null;
      var tryCounter := 1;
      while tryCounter <= tries && con == null
        invariant 1 <= tryCounter
        invariant log.events == before + done
        invariant con == null ==> whole == Retrying(done + Retry(attempts, host, sshArgs, tries, tryCounter).events,
                                                    Retry(attempts, host, sshArgs, tries, tryCounter).result)
        invariant con != null ==>
          && fresh(con) && con.log == log && con.issued == 0 && con.connected
          && whole == Retrying(done, Connected(con.failing))
        decreases Budget(tries, tryCounter), if con == null then 1 else 0
      {
        if sshArgs.None? {
          outcome := Fail(NotAMapping);
          return;
        }
        var retry;
        con, retry := TryOnce(host, sshArgs.value, tryCounter);
        if con != null {
          done := done + [SshConnect(host, sshArgs.value)];
        } else if retry {
          RetryRefusedStep(attempts, host, sshArgs.value, tries, tryCounter);
          AppendAssoc(done, [SshConnect(host, sshArgs.value), Sleep(RetrySeconds)],
                      Retry(attempts, host, sshArgs, tries, tryCounter + 1).events);
          done := done + [SshConnect(host, sshArgs.value), Sleep(RetrySeconds)];
          tryCounter := tryCounter + 1;
        } else {
          done := done + [SshConnect(host, sshArgs.value)];
          outcome := Fail(SshError);
          return;
        }
      }
      if con == null {
        outcome := Fail(SshTimeout(tries));
        return;
      }
      outcome := Pass;
    }

    /** One pass of the retry loop at `try_counter == counter`: the attempt, and
        the pause after an attempt that may be retried. */
    method TryOnce(host: string, sshArgs: Params, counter: int) returns (con: Connection?, retry: bool)
      requires counter >= 1
      modifies log
      ensures var answer := Attempt(attempts, counter - 1);
        && (con != null <==> answer.Accepted?)
        && (con != null ==> fresh(con) && con.log == log && con.failing == answer.failing
                            && con.issued == 0 && con.connected)
        && retry == answer.Retryable()
        && log.events == old(log.events) + [SshConnect(host, sshArgs)] + (if retry then [Sleep(RetrySeconds)] else [])
    {
      var answer := Attempt(attempts, counter - 1);
      con := Remote.Connect(log, host, sshArgs, answer);
      retry := answer.Retryable();
      if retry {
        Pause(log, RetrySeconds);
      }
    }

    /** `_connection_close`, proved against `Close`. */
    method ConnectionClose() returns (outcome: Outcome<Error>)
      requires Valid()
      modifies this, log, connection
      ensures Valid()
      ensures var r := Close(old(View()), cloud.terminateRaises);
        log.events == old(log.events) + r.events && outcome == r.outcome && View() == r.after
      ensures Settings() == old(Settings()) && remoteCmd == old(remoteCmd) && remoteCmdArgs == old(remoteCmdArgs)
      ensures connection == null || connection == old(connection)
    {
      if client != null && req.Some? && connection != null {
        var raised := client.TerminateInstances(InstanceIds(req.value));
        if raised {
          var ok := connection.Run(ShutdownCommand, true);
          if !ok {
            outcome := Fail(RemoteOpFailed);
            return;
          }
        }
        client := null;
        req := None;
      } else if client != null && req.Some? {
        var raised := client.TerminateInstances(InstanceIds(req.value));
        if raised {
          outcome := Fail(ClientError);
          return;
        }
        client := null;
        req := None;
      }
      if connection != null {
        // Closing always leaves the connection disconnected, so the assertion
        // that follows the close in the source always holds.
        connection.Close();
        connection := null;
      }
      outcome := Pass;
    }
  }
}
