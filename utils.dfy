/** The helpers of scons_remote/utils.py that talk to a collaborator: the two
    describe-and-flatten queries, the running check built on one of them, and
    `make_dir`. The same functions stand at the top of scons_remote.py. */
module Utils {
  import opened Wrappers
  import opened Responses
  import opened Remote

  /** The command `make_dir` runs for `path`. */
  function MkdirCommand(path: string): string
  {
    "mkdir " + path
  }

  /** `make_dir`: exactly one remote run of "mkdir " + path, not hidden. */
  method MakeDir(conn: Connection, path: string) returns (ok: bool)
    modifies conn, conn.log
    ensures conn.log.events == old(conn.log.events) + [Event.Run(MkdirCommand(path), false)]
    ensures conn.issued == old(conn.issued) + 1 && conn.connected == old(conn.connected)
    ensures ok == (old(conn.issued) !in conn.failing)
  {
    ok := conn.Run(MkdirCommand(path), false);
  }

  /** `instance_public_ips`: one describe call for exactly the launched ids; a
      ClientError from it propagates, an instance without an address raises
      KeyError, and otherwise the per-reservation IP lists are flattened in order. */
  method InstancePublicIps(client: Ec2Client, resp: LaunchResponse) returns (ips: Result<seq<string>, Error>)
    modifies client, client.log
    ensures client.log.events == old(client.log.events) + [DescribeInstances(InstanceIds(resp))]
    ensures client.describeCalls == old(client.describeCalls) + 1
    ensures var answer := client.cloud.Describe(old(client.describeCalls));
      && (answer.None? ==> ips == Failure(ClientError))
      && (answer.Some? && PublicIps(answer.value).None? ==> ips == Failure(MissingIpAddress))
      && (answer.Some? && PublicIps(answer.value).Some? ==> ips == Success(PublicIps(answer.value).value))
  {
    var ids := InstanceIds(resp);
    var descriptions := client.DescribeInstances(ids);
    if descriptions.None? {
      return Failure(ClientError);
    }
    var reservations := descriptions.value.reservations;
    var lists: seq<seq<string>> := [];
    var i := 0;
    while i < |reservations|
      invariant 0 <= i <= |reservations|
      invariant lists == Map(ReservationIps, reservations[..i])
      invariant forall j :: 0 <= j < i ==> ReservationHasIps(reservations[j])
    {
      if !ReservationHasIps(reservations[i]) {
        assert reservations[i] in reservations;
        return Failure(MissingIpAddress);
      }
      lists := lists + [Map(PublicIpOf, reservations[i].instances)];
      i := i + 1;
    }
    assert reservations[..i] == reservations;
    forall r | r in reservations ensures ReservationHasIps(r) {
      var j :| 0 <= j < |reservations| && reservations[j] == r;
    }
    ips := Success(Flatten(lists));
  }

  /** `instance_statuses`: the same query, flattening each instance's state name. */
  method InstanceStatuses(client: Ec2Client, resp: LaunchResponse) returns (statuses: Result<seq<string>, Error>)
    modifies client, client.log
    ensures client.log.events == old(client.log.events) + [DescribeInstances(InstanceIds(resp))]
    ensures client.describeCalls == old(client.describeCalls) + 1
    ensures var answer := client.cloud.Describe(old(client.describeCalls));
      && (answer.None? ==> statuses == Failure(ClientError))
      && (answer.Some? ==> statuses == Success(Statuses(answer.value)))
  {
    var ids := InstanceIds(resp);
    var descriptions := client.DescribeInstances(ids);
    if descriptions.None? {
      return Failure(ClientError);
    }
    var reservations := descriptions.value.reservations;
    var lists: seq<seq<string>> := [];
    var i := 0;
    while i < |reservations|
      invariant 0 <= i <= |reservations|
      invariant lists == Map(ReservationStatuses, reservations[..i])
    {
      lists := lists + [Map(StatusOf, reservations[i].instances)];
      i := i + 1;
    }
    assert reservations[..i] == reservations;
    statuses := Success(Flatten(lists));
  }

  /** `instance_running`: one flag per status, true exactly for "running". */
  method InstanceRunning(client: Ec2Client, resp: LaunchResponse) returns (flags: Result<seq<bool>, Error>)
    modifies client, client.log
    ensures client.log.events == old(client.log.events) + [DescribeInstances(InstanceIds(resp))]
    ensures client.describeCalls == old(client.describeCalls) + 1
    ensures var answer := client.cloud.Describe(old(client.describeCalls));
      && (answer.None? ==> flags == Failure(ClientError))
      && (answer.Some? ==> flags == Success(RunningFlags(Statuses(answer.value))))
  {
    var statuses := InstanceStatuses(client, resp);
    if statuses.Failure? {
      return Failure(statuses.error);
    }
    flags := Success(RunningFlags(statuses.value));
  }
}
