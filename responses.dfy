/** The two EC2 response records the orchestration reads, and the pure
    projections of scons_remote/utils.py over them (also copied verbatim at the
    top of scons_remote.py). */
module Responses {
  import opened Wrappers

  /** One element of the `Instances` list of a `run_instances` response. */
  datatype LaunchedInstance = LaunchedInstance(instanceId: string)

  /** A `run_instances` response: only its `Instances` list is read. */
  datatype LaunchResponse = LaunchResponse(instances: seq<LaunchedInstance>)

  datatype InstanceState = InstanceState(name: string)

  /** One element of a reservation's `Instances` list in a `describe_instances`
      response; `publicIpAddress` is None when the record has no such key. */
  datatype DescribedInstance = DescribedInstance(instanceId: string, publicIpAddress: Option<string>, state: InstanceState)

  datatype Reservation = Reservation(instances: seq<DescribedInstance>)

  /** A `describe_instances` response: its `Reservations` list. */
  datatype DescribeResponse = DescribeResponse(reservations: seq<Reservation>)

  const RunningStatus: string := "running"

  /** `instance_ids`: one id per launched instance, in response order. */
  function InstanceIds(resp: LaunchResponse): (ids: seq<string>)
    ensures |ids| == |resp.instances|
    ensures forall i :: 0 <= i < |ids| ==> ids[i] == resp.instances[i].instanceId
  {
    seq(|resp.instances|, i requires 0 <= i < |resp.instances| => resp.instances[i].instanceId)
  }

  /** `[item for sublist in xss for item in sublist]`. */
  function Flatten<T>(xss: seq<seq<T>>): seq<T>
  {
    if xss == [] then [] else Flatten(xss[..|xss| - 1]) + xss[|xss| - 1]
  }

  function Map<A, B>(f: A -> B, xs: seq<A>): (ys: seq<B>)
    ensures |ys| == |xs| && forall i :: 0 <= i < |xs| ==> ys[i] == f(xs[i])
  {
    seq(|xs|, i requires 0 <= i < |xs| => f(xs[i]))
  }

  /** The address of an instance that has one. */
  function PublicIpOf(x: DescribedInstance): string
  {
    if x.publicIpAddress.Some? then x.publicIpAddress.value else ""
  }

  /** The record has a `PublicIpAddress` key. */
  predicate HasPublicIp(x: DescribedInstance)
  {
    x.publicIpAddress.Some?
  }

  /** The list comprehension of `instance_public_ips` over reservation `r` reads
      every instance's address without a KeyError. */
  predicate ReservationHasIps(r: Reservation)
  {
    forall x :: x in r.instances ==> HasPublicIp(x)
  }

  function StatusOf(x: DescribedInstance): string { x.state.name }

  /** The list the loop of `instance_public_ips` appends for reservation `r`. */
  function ReservationIps(r: Reservation): seq<string>
  {
    Map(PublicIpOf, r.instances)
  }

  /** The list the loop of `instance_statuses` appends for reservation `r`. */
  function ReservationStatuses(r: Reservation): seq<string>
  {
    Map(StatusOf, r.instances)
  }

  /** Every described instance, reservation by reservation, in response order:
      the independent reference for the two flattenings below. */
  function AllInstances(d: DescribeResponse): seq<DescribedInstance>
  {
    Flatten(Map((r: Reservation) => r.instances, d.reservations))
  }

  /** What `instance_public_ips` returns for a describe response `d`: None when
      it raises KeyError. */
  function PublicIps(d: DescribeResponse): Option<seq<string>>
  {
    if forall r :: r in d.reservations ==> ReservationHasIps(r) then Some(Flatten(Map(ReservationIps, d.reservations)))
    else None
  }

  /** What `instance_statuses` returns for a describe response `d`. */
  function Statuses(d: DescribeResponse): seq<string>
  {
    Flatten(Map(ReservationStatuses, d.reservations))
  }

  /** `[x == 'running' for x in statuses]`. */
  function RunningFlags(statuses: seq<string>): (flags: seq<bool>)
    ensures |flags| == |statuses|
    ensures forall i :: 0 <= i < |flags| ==> (flags[i] <==> statuses[i] == RunningStatus)
  {
    Map((x: string) => x == RunningStatus, statuses)
  }

  /** Python's `all(flags)`; true of the empty list. */
  predicate AllTrue(flags: seq<bool>)
  {
    forall i :: 0 <= i < |flags| ==> flags[i]
  }

  /** The condition that ends the readiness wait for response `d`: every
      instance of every reservation is running. `RunningPerInstance` shows it is
      `all(...)` of what `instance_running` returns. */
  predicate AllRunning(d: DescribeResponse)
  {
    ReservationsRunning(d.reservations)
  }

  predicate ReservationsRunning(rs: seq<Reservation>)
  {
    rs == [] || (ReservationsRunning(rs[..|rs| - 1]) && InstancesRunning(rs[|rs| - 1].instances))
  }

  predicate InstancesRunning(xs: seq<DescribedInstance>)
  {
    xs == [] || (InstancesRunning(xs[..|xs| - 1]) && xs[|xs| - 1].state.name == RunningStatus)
  }

  lemma {:induction false} FlattenAppend<T>(xss: seq<seq<T>>, yss: seq<seq<T>>)
    ensures Flatten(xss + yss) == Flatten(xss) + Flatten(yss)
    decreases |yss|
  {
    if yss == [] {
      assert xss + yss == xss;
    } else {
      var last := yss[|yss| - 1];
      assert (xss + yss)[..|xss + yss| - 1] == xss + yss[..|yss| - 1];
      FlattenAppend(xss, yss[..|yss| - 1]);
    }
  }

  /** Flattening commutes with mapping each element: the flattened per-reservation
      lists are the per-instance values of the flattened instances. */
  lemma {:induction false} FlattenMap<A, B>(f: A -> B, xss: seq<seq<A>>)
    ensures Flatten(Map((xs: seq<A>) => Map(f, xs), xss)) == Map(f, Flatten(xss))
    decreases |xss|
  {
    if xss != [] {
      var init := xss[..|xss| - 1];
      var mapped := Map((xs: seq<A>) => Map(f, xs), xss);
      assert mapped[..|mapped| - 1] == Map((xs: seq<A>) => Map(f, xs), init);
      FlattenMap(f, init);
      MapAppend(f, Flatten(init), xss[|xss| - 1]);
    }
  }

  lemma MapAppend<A, B>(f: A -> B, xs: seq<A>, ys: seq<A>)
    ensures Map(f, xs + ys) == Map(f, xs) + Map(f, ys)
  {
  }

  /** The length of a flattening is the total of the lengths. */
  function TotalLength<T>(xss: seq<seq<T>>): nat
  {
    if xss == [] then 0 else TotalLength(xss[..|xss| - 1]) + |xss[|xss| - 1]|
  }

  lemma {:induction false} FlattenLength<T>(xss: seq<seq<T>>)
    ensures |Flatten(xss)| == TotalLength(xss)
    decreases |xss|
  {
    if xss != [] {
      FlattenLength(xss[..|xss| - 1]);
    }
  }

  /** The number of instances over all reservations of `d`. */
  function InstanceCount(d: DescribeResponse): nat
  {
    TotalLength(Map((r: Reservation) => r.instances, d.reservations))
  }

  /** `instance_public_ips` raises KeyError exactly when some described instance
      has no address; otherwise it is the order-preserving flattening of every
      reservation's instance IPs: one IP per described instance, in order. */
  lemma PublicIpsPerInstance(d: DescribeResponse)
    ensures PublicIps(d).Some? <==> forall x :: x in AllInstances(d) ==> HasPublicIp(x)
    ensures PublicIps(d).Some? ==> PublicIps(d).value == Map(PublicIpOf, AllInstances(d))
    ensures PublicIps(d).Some? ==> |PublicIps(d).value| == InstanceCount(d)
    ensures PublicIps(d).Some? ==>
      forall i :: 0 <= i < |AllInstances(d)| ==> AllInstances(d)[i].publicIpAddress == Some(PublicIps(d).value[i])
  {
    var lists := Map((r: Reservation) => r.instances, d.reservations);
    FlattenMap(PublicIpOf, lists);
    assert Map(ReservationIps, d.reservations) == Map((xs: seq<DescribedInstance>) => Map(PublicIpOf, xs), lists);
    FlattenLength(lists);
    EveryReservationHasIps(d);
    if PublicIps(d).Some? {
      forall i | 0 <= i < |AllInstances(d)|
        ensures AllInstances(d)[i].publicIpAddress == Some(PublicIps(d).value[i])
      {
        assert HasPublicIp(AllInstances(d)[i]) by {
          assert AllInstances(d)[i] in AllInstances(d);
        }
      }
    }
  }

  /** Every reservation reads without a KeyError exactly when every described
      instance has an address. */
  lemma EveryReservationHasIps(d: DescribeResponse)
    ensures (forall r :: r in d.reservations ==> ReservationHasIps(r))
        <==> forall x :: x in AllInstances(d) ==> HasPublicIp(x)
  {
    var rs := d.reservations;
    var lists := Map((r: Reservation) => r.instances, rs);
    if forall r :: r in rs ==> ReservationHasIps(r) {
      forall x | x in AllInstances(d) ensures HasPublicIp(x) {
        FlattenMembers(lists, x);
        var i :| 0 <= i < |lists| && x in lists[i];
        assert rs[i] in rs;
      }
    }
    if forall x :: x in AllInstances(d) ==> HasPublicIp(x) {
      forall r | r in rs ensures ReservationHasIps(r) {
        var i :| 0 <= i < |rs| && rs[i] == r;
        forall x | x in r.instances ensures HasPublicIp(x) {
          assert x in lists[i];
          FlattenMembers(lists, x);
        }
      }
    }
  }

  /** An element of a flattening is an element of one of the lists. */
  lemma {:induction false} FlattenMembers<T>(xss: seq<seq<T>>, x: T)
    ensures x in Flatten(xss) <==> exists i :: 0 <= i < |xss| && x in xss[i]
    decreases |xss|
  {
    if xss != [] {
      var init := xss[..|xss| - 1];
      FlattenMembers(init, x);
      if exists i :: 0 <= i < |xss| && x in xss[i] {
        var i :| 0 <= i < |xss| && x in xss[i];
        if i < |init| {
          assert init[i] == xss[i];
        }
      }
      if exists i :: 0 <= i < |init| && x in init[i] {
        var i :| 0 <= i < |init| && x in init[i];
        assert xss[i] == init[i];
      }
    }
  }

  /** `instance_statuses` is the same flattening of each instance's `State.Name`. */
  lemma StatusesPerInstance(d: DescribeResponse)
    ensures Statuses(d) == Map(StatusOf, AllInstances(d))
    ensures |Statuses(d)| == InstanceCount(d)
  {
    var lists := Map((r: Reservation) => r.instances, d.reservations);
    FlattenMap(StatusOf, lists);
    assert Map(ReservationStatuses, d.reservations) == Map((xs: seq<DescribedInstance>) => Map(StatusOf, xs), lists);
    FlattenLength(lists);
  }

  /** `instance_running` has one flag per instance, true exactly when that
      instance's state is "running"; `all(...)` is that every instance runs,
      which is `AllRunning`. */
  lemma RunningPerInstance(d: DescribeResponse)
    ensures |RunningFlags(Statuses(d))| == |AllInstances(d)| == InstanceCount(d)
    ensures forall i :: 0 <= i < |AllInstances(d)| ==>
      (RunningFlags(Statuses(d))[i] <==> AllInstances(d)[i].state.name == RunningStatus)
    ensures AllTrue(RunningFlags(Statuses(d))) <==> forall x :: x in AllInstances(d) ==> x.state.name == RunningStatus
    ensures AllRunning(d) <==> AllTrue(RunningFlags(Statuses(d)))
  {
    StatusesPerInstance(d);
    FlattenLength(Map((r: Reservation) => r.instances, d.reservations));
    ReservationsRunningIff(d.reservations);
  }

  lemma {:induction false} ReservationsRunningIff(rs: seq<Reservation>)
    ensures ReservationsRunning(rs) <==>
      forall x :: x in Flatten(Map((r: Reservation) => r.instances, rs)) ==> x.state.name == RunningStatus
    decreases |rs|
  {
    if rs != [] {
      var init := rs[..|rs| - 1];
      var last := rs[|rs| - 1];
      var lists := Map((r: Reservation) => r.instances, rs);
      assert lists[..|lists| - 1] == Map((r: Reservation) => r.instances, init);
      assert Flatten(lists) == Flatten(Map((r: Reservation) => r.instances, init)) + last.instances;
      ReservationsRunningIff(init);
      InstancesRunningIff(last.instances);
    }
  }

  lemma {:induction false} InstancesRunningIff(xs: seq<DescribedInstance>)
    ensures InstancesRunning(xs) <==> forall x :: x in xs ==> x.state.name == RunningStatus
    decreases |xs|
  {
    if xs != [] {
      InstancesRunningIff(xs[..|xs| - 1]);
      assert xs == xs[..|xs| - 1] + [xs[|xs| - 1]];
    }
  }
}
