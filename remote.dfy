/** The collaborators of the orchestration, as oracles that record what is
    asked of them: the EC2 client (boto3), the SSH connection (fabric over
    paramiko) and `time.sleep`. Their wire behaviour is not modelled; each call
    appends one event to a shared log and answers from its oracle. */
module Remote {
  import opened Wrappers
  import opened Responses

  /** An argument dictionary passed through verbatim (`**client_args`, ...). */
  type Params = map<string, string>

  /** The exceptions the code raises or lets propagate. */
  datatype Error =
    | UserError(message: string)      // SCons.Errors.UserError
    | TypeError(message: string)      // `**None`, `1 <= None`, wrong action type
    | ValueError                      // `[public_ips] = ...` with other than one IP
    | AssertionError(message: string)
    | AttributeError                  // calling a method on None, reading a missing attribute
    | NameError(name: string)         // using a name that was never imported
    | ClientError                     // botocore's ClientError from an EC2 call
    | SshError                        // an attempt failed with a non-retryable exception
    | SshTimeout(attempts: int)       // TimeoutError naming ssh_retries
    | KeyError(key: string)           // reading a key a response record lacks
    | ClientCreationError             // `boto3.client` raised (no region, unknown profile, ...)
    | RemoteOpFailed                  // a remote run, put or get raised (UnexpectedExit, a failed transfer)

  /** Everything the orchestration can be observed doing, in one trace. */
  datatype Event =
    | CreateClient(clientArgs: Params)
    | RunInstances(instanceArgs: Params)
    | DescribeInstances(ids: seq<string>)
    | TerminateInstances(ids: seq<string>)
    | Sleep(seconds: nat)
    | SshConnect(host: string, sshArgs: Params)
    | Run(command: string, hidden: bool)
    | Put(local: string, remote: string)
    | Get(remote: string, local: string)
    | CloseSsh

  /** An event issued over an open SSH connection. */
  predicate IsRemoteOp(e: Event)
  {
    e.Run? || e.Put? || e.Get?
  }

  class Log {
    var events: seq<Event>

    constructor ()
      ensures events == []
    {
      events := [];
    }
  }

  /** `time.sleep(seconds)`: only counted, as an event. */
  method Pause(log: Log, seconds: nat)
    modifies log
    ensures log.events == old(log.events) + [Sleep(seconds)]
  {
    log.events := log.events + [Sleep(seconds)];
  }

  /** The KeyError of an instance described without a public address. */
  const MissingIpAddress: Error := KeyError("PublicIpAddress")

  /** What the cloud provider does: whether `boto3.client` raises, the answer to
      `run_instances` (None when it rejects the request with a ClientError), the
      answers to successive `describe_instances` calls (`polls`, where None is a
      ClientError, then `settled` for every later call), and whether
      `terminate_instances` raises a ClientError. The answers are fixed for the
      environment: every client counts its describe calls from 0, so a second
      open is answered from the start of `polls` again. */
  datatype Cloud = Cloud(clientRaises: bool, launch: Option<LaunchResponse>, polls: seq<Option<DescribeResponse>>,
                         settled: DescribeResponse, terminateRaises: bool)
  {
    /** The answer to describe call number `n` (counting from 0); None when it raises. */
    function Describe(n: nat): Option<DescribeResponse>
    {
      if n < |polls| then polls[n] else Some(settled)
    }

    /** The provider eventually reports every instance running. */
    predicate Settles()
    {
      AllRunning(settled)
    }
  }

  /** The outcome of one `Connection(...).open()` attempt. `failing` holds the
      numbers (from 0) of the operations over the new connection that raise. */
  datatype ConnectOutcome =
    | Accepted(failing: set<nat>)
    | NoValidConnections
    | TimedOut
    | Crashed
  {
    /** The two exception classes `_connection_open` catches and retries. */
    predicate Retryable()
    {
      NoValidConnections? || TimedOut?
    }
  }

  /** The outcome of attempt `i`; attempts past the end of the oracle are refused. */
  function Attempt(attempts: seq<ConnectOutcome>, i: nat): ConnectOutcome
  {
    if i < |attempts| then attempts[i] else NoValidConnections
  }

  /** A boto3 EC2 client. */
  class Ec2Client {
    const log: Log
    const clientArgs: Params
    const cloud: Cloud
    var describeCalls: nat

    /** `boto3.client(service_name='ec2', **client_args)`. */
    constructor (log: Log, clientArgs: Params, cloud: Cloud)
      modifies log
      ensures this.log == log && this.clientArgs == clientArgs && this.cloud == cloud
      ensures describeCalls == 0
      ensures log.events == old(log.events) + [CreateClient(clientArgs)]
    {
      this.log := log;
      this.clientArgs := clientArgs;
      this.cloud := cloud;
      describeCalls := 0;
      new;
      log.events := log.events + [CreateClient(clientArgs)];
    }

    method RunInstances(instanceArgs: Params) returns (resp: Option<LaunchResponse>)
      modifies log
      ensures log.events == old(log.events) + [Event.RunInstances(instanceArgs)]
      ensures resp == cloud.launch
    {
      log.events := log.events + [Event.RunInstances(instanceArgs)];
      resp := cloud.launch;
    }

    /** `describe_instances(InstanceIds=ids)`; None when it raised a ClientError. */
    method DescribeInstances(ids: seq<string>) returns (resp: Option<DescribeResponse>)
      modifies this, log
      ensures log.events == old(log.events) + [Event.DescribeInstances(ids)]
      ensures describeCalls == old(describeCalls) + 1
      ensures resp == cloud.Describe(old(describeCalls))
    {
      log.events := log.events + [Event.DescribeInstances(ids)];
      resp := cloud.Describe(describeCalls);
      describeCalls := describeCalls + 1;
    }

    /** Returns whether the call raised a ClientError. */
    method TerminateInstances(ids: seq<string>) returns (raised: bool)
      modifies log
      ensures log.events == old(log.events) + [Event.TerminateInstances(ids)]
      ensures raised == cloud.terminateRaises
    {
      log.events := log.events + [Event.TerminateInstances(ids)];
      raised := cloud.terminateRaises;
    }
  }

  /** `boto3.client(service_name='ec2', **client_args)`: the call is logged, and
      a client is made unless the provider's oracle says the call raises. */
  method NewClient(log: Log, clientArgs: Params, cloud: Cloud) returns (c: Ec2Client?)
    modifies log
    ensures log.events == old(log.events) + [CreateClient(clientArgs)]
    ensures c == null <==> cloud.clientRaises
    ensures c != null ==> fresh(c) && c.log == log && c.clientArgs == clientArgs && c.cloud == cloud && c.describeCalls == 0
  {
    if cloud.clientRaises {
      log.events := log.events + [CreateClient(clientArgs)];
      c := null;
    } else {
      c := new Ec2Client(log, clientArgs, cloud);
    }
  }

  /** A fabric SSH connection. Once closed it is never reopened. */
  class Connection {
    const log: Log
    const host: string
    const failing: set<nat>
    var connected: bool
    var issued: nat

    constructor (log: Log, host: string, failing: set<nat>)
      ensures this.log == log && this.host == host && this.failing == failing
      ensures connected && issued == 0
    {
      this.log := log;
      this.host := host;
      this.failing := failing;
      connected := true;
      issued := 0;
    }

    /** `run(command, hidden=hidden)`; `ok` is false when it raised. */
    method Run(command: string, hidden: bool) returns (ok: bool)
      modifies this, log
      ensures log.events == old(log.events) + [Event.Run(command, hidden)]
      ensures issued == old(issued) + 1 && connected == old(connected)
      ensures ok == (old(issued) !in failing)
    {
      log.events := log.events + [Event.Run(command, hidden)];
      ok := issued !in failing;
      issued := issued + 1;
    }

    method Put(local: string, remote: string) returns (ok: bool)
      modifies this, log
      ensures log.events == old(log.events) + [Event.Put(local, remote)]
      ensures issued == old(issued) + 1 && connected == old(connected)
      ensures ok == (old(issued) !in failing)
    {
      log.events := log.events + [Event.Put(local, remote)];
      ok := issued !in failing;
      issued := issued + 1;
    }

    method Get(remote: string, local: string) returns (ok: bool)
      modifies this, log
      ensures log.events == old(log.events) + [Event.Get(remote, local)]
      ensures issued == old(issued) + 1 && connected == old(connected)
      ensures ok == (old(issued) !in failing)
    {
      log.events := log.events + [Event.Get(remote, local)];
      ok := issued !in failing;
      issued := issued + 1;
    }

    method Close()
      modifies this, log
      ensures log.events == old(log.events) + [CloseSsh]
      ensures !connected && issued == old(issued)
    {
      log.events := log.events + [CloseSsh];
      connected := false;
    }
  }

  /** `Connection(host=host, **ssh_args).open()`: a fresh open connection when the
      attempt is accepted, otherwise null (the attempt raised). */
  method Connect(log: Log, host: string, sshArgs: Params, outcome: ConnectOutcome) returns (con: Connection?)
    modifies log
    ensures log.events == old(log.events) + [SshConnect(host, sshArgs)]
    ensures outcome.Accepted? <==> con != null
    ensures con != null ==>
      && fresh(con) && con.log == log && con.host == host
      && con.failing == outcome.failing && con.connected && con.issued == 0
  {
    log.events := log.events + [SshConnect(host, sshArgs)];
    if outcome.Accepted? {
      con := new Connection(log, host, outcome.failing);
    } else {
      con := null;
    }
  }
}
