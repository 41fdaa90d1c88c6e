/** The body shared by the three revisions of the remote action once a connection
    is open: normalise and map the paths, create the root and the parent
    directories, upload, run the command, download, clean up. Each remote step
    may raise; the first one that does ends the staging. */
module Staging {
  import opened Wrappers
  import opened Responses
  import opened Remote
  import opened Paths
  import opened Utils
  import opened Plan

  lemma DistinctCons<T>(x: T, xs: seq<T>)
    ensures Distinct([x] + xs) <==> x !in xs && Distinct(xs)
  {
    var ys := [x] + xs;
    if Distinct(ys) {
      forall i, j | 0 <= i < j < |xs| ensures xs[i] != xs[j] {
        assert ys[i + 1] == xs[i] && ys[j + 1] == xs[j];
        assert ys[i + 1] != ys[j + 1];
      }
      forall j | 0 <= j < |xs| ensures xs[j] != x {
        assert ys[0] == x && ys[j + 1] == xs[j];
        assert ys[0] != ys[j + 1];
      }
    }
  }

  /** `list(set(paths))`: the distinct elements in the set's iteration order. */
  method ListOfSet(s: set<string>) returns (xs: seq<string>)
    ensures Enumerates(xs, s)
  {
    xs := [];
    var rest := s;
    while rest != {}
      invariant rest <= s
      invariant Distinct(xs)
      invariant forall i :: 0 <= i < |xs| ==> xs[i] in s && xs[i] !in rest
      invariant forall x | x in s :: x in rest || x in xs
      decreases |rest|
    {
      var x :| x in rest;
      xs := xs + [x];
      rest := rest - {x};
    }
  }

  /** `xs.remove(v)` with its ValueError swallowed: drops the first `v`, if any. */
  function Remove(xs: seq<string>, v: string): (ys: seq<string>)
    ensures v !in xs ==> ys == xs
    ensures v in xs ==> |ys| == |xs| - 1
    ensures forall x | x in ys :: x in xs
    ensures forall x | x in xs && x != v :: x in ys
  {
    if xs == [] then []
    else if xs[0] == v then xs[1..]
    else [xs[0]] + Remove(xs[1..], v)
  }

  /** Removing from a list of distinct elements removes that element from what it lists. */
  lemma {:induction false} RemoveEnumerates(xs: seq<string>, s: set<string>, v: string)
    requires Enumerates(xs, s)
    ensures Enumerates(Remove(xs, v), s - {v})
    decreases |xs|
  {
    if xs != [] {
      assert xs == [xs[0]] + xs[1..];
      DistinctCons(xs[0], xs[1..]);
      var rest := set x | x in xs[1..];
      RemoveEnumerates(xs[1..], rest, v);
      if xs[0] != v {
        DistinctCons(xs[0], Remove(xs[1..], v));
      }
    }
  }

  /** One more step of `plan` after the clean prefix `done`: either it raises,
      and the plan ends there, or the clean prefix grows by one. */
  lemma Advance(plan: seq<Event>, done: seq<Event>, failing: set<nat>, start: nat)
    requires |done| < |plan| && done == plan[..|done|] && Clean(done, failing, start)
    ensures start + |done| in failing ==>
      Executed(plan, failing, start) == done + [plan[|done|]] && !Clean(plan, failing, start)
    ensures start + |done| !in failing ==>
      Clean(done + [plan[|done|]], failing, start) && done + [plan[|done|]] == plan[..|done| + 1]
  {
    assert plan == done + [plan[|done|]] + plan[|done| + 1..];
    if start + |done| in failing {
      ExecutedStop(done, plan[|done|], plan[|done| + 1..], failing, start);
    } else {
      ExecutedChain(done, [plan[|done|]], failing, start);
    }
  }

  lemma PutOpsSplit(sources: seq<Source>, i: nat, valueAware: bool)
    requires i < |sources|
    ensures PutOps(sources, valueAware)
         == PutOps(sources[..i], valueAware) + PutOf(sources[i], valueAware) + PutOps(sources[i + 1..], valueAware)
  {
    assert sources == sources[..i] + [sources[i]] + sources[i + 1..];
    PutOpsAppend(sources[..i] + [sources[i]], sources[i + 1..], valueAware);
    PutOpsAppend(sources[..i], [sources[i]], valueAware);
    assert [sources[i]][..0] == [];
  }

  lemma PutOpsPrefix(sources: seq<Source>, i: nat, valueAware: bool)
    requires i <= |sources|
    ensures |PutOps(sources[..i], valueAware)| <= |PutOps(sources, valueAware)|
    ensures PutOps(sources, valueAware)[..|PutOps(sources[..i], valueAware)|] == PutOps(sources[..i], valueAware)
  {
    assert sources == sources[..i] + sources[i..];
    PutOpsAppend(sources[..i], sources[i..], valueAware);
  }

  /** What one turn of the upload loop adds to the uploads so far, and what
      happens to the whole of the uploads when that turn's put raises. */
  lemma UploadStep(sources: seq<Source>, i: nat, valueAware: bool, done: seq<Event>, failing: set<nat>, start: nat)
    requires i < |sources| && done == PutOps(sources[..i], valueAware) && Clean(done, failing, start)
    ensures !Uploaded(sources[i], valueAware) ==> PutOps(sources[..i + 1], valueAware) == done
    ensures Uploaded(sources[i], valueAware) ==>
      var e := Event.Put(Normalise(sources[i].path), RemoteSource(sources[i], valueAware));
      && PutOps(sources[..i + 1], valueAware) == done + [e]
      && (start + |done| in failing ==>
           Executed(PutOps(sources, valueAware), failing, start) == done + [e]
           && !Clean(PutOps(sources, valueAware), failing, start))
      && (start + |done| !in failing ==> Clean(done + [e], failing, start))
  {
    var seg := PutOps(sources, valueAware);
    PutOpsSplit(sources, i, valueAware);
    assert sources[..i + 1] == sources[..i] + [sources[i]];
    PutOpsAppend(sources[..i], [sources[i]], valueAware);
    assert [sources[i]][..0] == [];
    PutOpsPrefix(sources, i + 1, valueAware);
    PutOpsPrefix(sources, i, valueAware);
    if Uploaded(sources[i], valueAware) {
      Advance(seg, done, failing, start);
    }
  }

  /** The remote sources, built one by one as the value-aware revision does. */
  method MapSources(sources: seq<Source>, valueAware: bool) returns (remoteSources: seq<string>)
    ensures remoteSources == RemoteSources(sources, valueAware)
  {
    remoteSources := [];
    var i := 0;
    while i < |sources|
      invariant 0 <= i <= |sources|
      invariant remoteSources == RemoteSources(sources[..i], valueAware)
    {
      if Uploaded(sources[i], valueAware) {
        remoteSources := remoteSources + [ToRemote(Normalise(sources[i].path))];
      } else {
        remoteSources := remoteSources + [Normalise(sources[i].path)];
      }
      i := i + 1;
    }
    assert sources[..i] == sources;
  }

  function Members(xs: seq<string>): set<string>
  {
    set v | v in xs
  }

  /** The remote directories in the order they are created: the listed parents
      with the excluded values removed one by one. */
  method DirList(targets: seq<string>, sources: seq<Source>, valueAware: bool) returns (dirs: seq<string>)
    ensures Enumerates(dirs, RemoteDirs(targets, sources, valueAware))
  {
    var parents := Parents(RemoteTargets(targets) + RemoteSources(sources, valueAware));
    dirs := ListOfSet(parents);
    var excluded := Excluded(valueAware);
    var k := 0;
    while k < |excluded|
      invariant 0 <= k <= |excluded|
      invariant Enumerates(dirs, parents - Members(excluded[..k]))
    {
      RemoveEnumerates(dirs, parents - Members(excluded[..k]), excluded[k]);
      assert (parents - Members(excluded[..k])) - {excluded[k]} == parents - Members(excluded[..k + 1]);
      dirs := Remove(dirs, excluded[k]);
      k := k + 1;
    }
    assert excluded[..k] == excluded;
  }

  /** `for directory in remote_dirs: make_dir(connection, directory)`: the log
      gains the performed part of the directory creations. */
  method MakeDirs(conn: Connection, dirs: seq<string>) returns (ok: bool)
    modifies conn, conn.log
    ensures conn.log.events == old(conn.log.events) + Executed(MkdirOps(dirs), conn.failing, old(conn.issued))
    ensures conn.issued == old(conn.issued) + |Executed(MkdirOps(dirs), conn.failing, old(conn.issued))|
    ensures ok <==> Clean(MkdirOps(dirs), conn.failing, old(conn.issued))
    ensures conn.connected == old(conn.connected)
  {
    ghost var seg := MkdirOps(dirs);
    ghost var start := conn.issued;
    ghost var before := conn.log.events;
    var i := 0;
    while i < |dirs|
      invariant 0 <= i <= |dirs|
      invariant conn.log.events == before + seg[..i] && conn.issued == start + i
      invariant Clean(seg[..i], conn.failing, start)
      invariant conn.connected == old(conn.connected)
    {
      Advance(seg, seg[..i], conn.failing, start);
      ok := MakeDir(conn, dirs[i]);
      assert seg[..i] + [seg[i]] == seg[..i + 1];
      if !ok { return; }
      i := i + 1;
    }
    assert seg[..i] == seg;
    ExecutedClean(seg, conn.failing, start);
    ok := true;
  }

  /** The upload loop: a put from each file source's local path to its remote
      path, `Value` sources skipped when passed through. */
  method Upload(conn: Connection, sources: seq<Source>, remoteSources: seq<string>, valueAware: bool)
    returns (ok: bool)
    modifies conn, conn.log
    requires remoteSources == RemoteSources(sources, valueAware)
    ensures conn.log.events == old(conn.log.events) + Executed(PutOps(sources, valueAware), conn.failing, old(conn.issued))
    ensures conn.issued == old(conn.issued) + |Executed(PutOps(sources, valueAware), conn.failing, old(conn.issued))|
    ensures ok <==> Clean(PutOps(sources, valueAware), conn.failing, old(conn.issued))
    ensures conn.connected == old(conn.connected)
  {
    ghost var seg := PutOps(sources, valueAware);
    ghost var start := conn.issued;
    ghost var before := conn.log.events;
    ghost var done: seq<Event> := [];
    var i := 0;
    while i < |sources|
      invariant 0 <= i <= |sources|
      invariant done == PutOps(sources[..i], valueAware)
      invariant conn.log.events == before + done && conn.issued == start + |done|
      invariant Clean(done, conn.failing, start)
      invariant conn.connected == old(conn.connected)
    {
      UploadStep(sources, i, valueAware, done, conn.failing, start);
      if Uploaded(sources[i], valueAware) {
        ok := conn.Put(Normalise(sources[i].path), remoteSources[i]);
        if !ok { return; }
        done := done + [Event.Put(Normalise(sources[i].path), remoteSources[i])];
      }
      i := i + 1;
    }
    assert sources[..i] == sources;
    ExecutedClean(seg, conn.failing, start);
    ok := true;
  }

  /** The download loop: a get of each remote target to its local path. */
  method Download(conn: Connection, targets: seq<string>, remoteTargets: seq<string>, localTargets: seq<string>)
    returns (ok: bool)
    modifies conn, conn.log
    requires |remoteTargets| == |localTargets| == |targets|
    requires forall i :: 0 <= i < |targets| ==>
      remoteTargets[i] == RemoteTarget(targets[i]) && localTargets[i] == Normalise(targets[i])
    ensures conn.log.events == old(conn.log.events) + Executed(GetOps(targets), conn.failing, old(conn.issued))
    ensures conn.issued == old(conn.issued) + |Executed(GetOps(targets), conn.failing, old(conn.issued))|
    ensures ok <==> Clean(GetOps(targets), conn.failing, old(conn.issued))
    ensures conn.connected == old(conn.connected)
  {
    ghost var seg := GetOps(targets);
    ghost var start := conn.issued;
    ghost var before := conn.log.events;
    var i := 0;
    while i < |targets|
      invariant 0 <= i <= |targets|
      invariant conn.log.events == before + seg[..i] && conn.issued == start + i
      invariant Clean(seg[..i], conn.failing, start)
      invariant conn.connected == old(conn.connected)
    {
      Advance(seg, seg[..i], conn.failing, start);
      ok := conn.Get(remoteTargets[i], localTargets[i]);
      assert seg[..i] + [seg[i]] == seg[..i + 1];
      if !ok { return; }
      i := i + 1;
    }
    assert seg[..i] == seg;
    ExecutedClean(seg, conn.failing, start);
    ok := true;
  }

  /** One remote run, as a one-step plan. */
  method RunStep(conn: Connection, command: string, hidden: bool) returns (ok: bool)
    modifies conn, conn.log
    ensures conn.log.events == old(conn.log.events) + Executed([Event.Run(command, hidden)], conn.failing, old(conn.issued))
    ensures conn.issued == old(conn.issued) + |Executed([Event.Run(command, hidden)], conn.failing, old(conn.issued))|
    ensures ok <==> Clean([Event.Run(command, hidden)], conn.failing, old(conn.issued))
    ensures conn.connected == old(conn.connected)
  {
    ok := conn.Run(command, hidden);
  }

  /** The connection has performed the part of `plan` it executes, and `ok` says
      whether it raised nowhere. */
  predicate Performed(plan: seq<Event>, failing: set<nat>, start: nat, before: seq<Event>,
                      events: seq<Event>, issued: nat, ok: bool)
  {
    && events == before + Executed(plan, failing, start)
    && issued == start + |Executed(plan, failing, start)|
    && (ok <==> Clean(plan, failing, start))
  }

  /** A clean `a` followed by `b` performs `a + b`. */
  lemma Then(a: seq<Event>, b: seq<Event>, failing: set<nat>, start: nat, before: seq<Event>,
             middle: seq<Event>, issuedMiddle: nat, events: seq<Event>, issued: nat, ok: bool)
    requires Performed(a, failing, start, before, middle, issuedMiddle, true)
    requires Performed(b, failing, issuedMiddle, middle, events, issued, ok)
    ensures Performed(a + b, failing, start, before, events, issued, ok)
  {
    ExecutedChain(a, b, failing, start);
    ExecutedClean(a, failing, start);
  }

  /** A single operation, numbered `start`, raises exactly when `start` is failing. */
  lemma Single(e: Event, failing: set<nat>, start: nat, before: seq<Event>)
    ensures Performed([e], failing, start, before, before + [e], start + 1, start !in failing)
  {
  }

  /** When `a` raises, whatever follows it is skipped. */
  lemma Stop(a: seq<Event>, b: seq<Event>, failing: set<nat>, start: nat, before: seq<Event>,
             events: seq<Event>, issued: nat)
    requires Performed(a, failing, start, before, events, issued, false)
    ensures Performed(a + b, failing, start, before, events, issued, false)
  {
    ExecutedChain(a, b, failing, start);
  }

  /** The directory creations and the uploads, `PlanHead`. */
  method StageHead(conn: Connection, sources: seq<Source>, remoteSources: seq<string>, valueAware: bool,
                   dirs: seq<string>) returns (ok: bool)
    modifies conn, conn.log
    requires remoteSources == RemoteSources(sources, valueAware)
    ensures Performed(PlanHead(sources, valueAware, dirs), conn.failing, old(conn.issued), old(conn.log.events),
                      conn.log.events, conn.issued, ok)
    ensures conn.connected == old(conn.connected)
  {
    ghost var F := conn.failing;
    ghost var s0 := conn.issued;
    ghost var e0 := conn.log.events;
    ghost var root := [MkdirOf(Root)];
    ghost var puts := PutOps(sources, valueAware);
    ok := MakeDir(conn, Root);
    Single(MkdirOf(Root), F, s0, e0);
    if !ok {
      Stop(root, MkdirOps(dirs), F, s0, e0, conn.log.events, conn.issued);
      Stop(root + MkdirOps(dirs), puts, F, s0, e0, conn.log.events, conn.issued);
      return;
    }
    ghost var e1, s1 := conn.log.events, conn.issued;
    ok := MakeDirs(conn, dirs);
    Then(root, MkdirOps(dirs), F, s0, e0, e1, s1, conn.log.events, conn.issued, ok);
    if !ok {
      Stop(root + MkdirOps(dirs), puts, F, s0, e0, conn.log.events, conn.issued);
      return;
    }
    ghost var e2, s2 := conn.log.events, conn.issued;
    ok := Upload(conn, sources, remoteSources, valueAware);
    Then(root + MkdirOps(dirs), puts, F, s0, e0, e2, s2, conn.log.events, conn.issued, ok);
  }

  /** The downloads and the clean-up, `PlanTail`. */
  method StageTail(conn: Connection, targets: seq<string>, remoteTargets: seq<string>, localTargets: seq<string>)
    returns (ok: bool)
    modifies conn, conn.log
    requires |remoteTargets| == |localTargets| == |targets|
    requires forall i :: 0 <= i < |targets| ==>
      remoteTargets[i] == RemoteTarget(targets[i]) && localTargets[i] == Normalise(targets[i])
    ensures Performed(PlanTail(targets), conn.failing, old(conn.issued), old(conn.log.events),
                      conn.log.events, conn.issued, ok)
    ensures conn.connected == old(conn.connected)
  {
    ghost var F := conn.failing;
    ghost var s0 := conn.issued;
    ghost var e0 := conn.log.events;
    ghost var cleanup := [Event.Run(CleanupCommand, false)];
    ok := Download(conn, targets, remoteTargets, localTargets);
    if !ok {
      Stop(GetOps(targets), cleanup, F, s0, e0, conn.log.events, conn.issued);
      return;
    }
    ghost var e1, s1 := conn.log.events, conn.issued;
    ok := RunStep(conn, CleanupCommand, false);
    Then(GetOps(targets), cleanup, F, s0, e0, e1, s1, conn.log.events, conn.issued, ok);
  }

  /** Stage one action over `conn` (its remote steps only; opening and closing the
      connection belong to the caller). The log gains exactly the performed part
      of `StagePlan`, `ok` says whether no step raised, and `dirs` is the order in
      which the parent directories were created. */
  method Stage(conn: Connection, cmd: string, cmdArgs: string, targets: seq<string>,
               sources: seq<Source>, valueAware: bool) returns (ok: bool, dirs: seq<string>)
    modifies conn, conn.log
    ensures Enumerates(dirs, RemoteDirs(targets, sources, valueAware))
    ensures var plan := StagePlan(cmd, cmdArgs, targets, sources, valueAware, dirs);
      && conn.log.events == old(conn.log.events) + Executed(plan, conn.failing, old(conn.issued))
      && conn.issued == old(conn.issued) + |Executed(plan, conn.failing, old(conn.issued))|
      && (ok <==> Clean(plan, conn.failing, old(conn.issued)))
    ensures conn.connected == old(conn.connected)
  {
    var localTargets := seq(|targets|, i requires 0 <= i < |targets| => Normalise(targets[i]));
    var remoteTargets := seq(|targets|, i requires 0 <= i < |targets| => ToRemote(localTargets[i]));
    var remoteSources := MapSources(sources, valueAware);
    dirs := DirList(targets, sources, valueAware);
    var command := CommandLine(cmd, cmdArgs, remoteSources, remoteTargets);
    assert remoteTargets == RemoteTargets(targets);

    ghost var F := conn.failing;
    ghost var s0 := conn.issued;
    ghost var e0 := conn.log.events;
    ghost var head := PlanHead(sources, valueAware, dirs);
    ghost var run := [Event.Run(command, true)];
    ghost var tail := PlanTail(targets);
    assert run == [CommandRun(cmd, cmdArgs, targets, sources, valueAware)];

    ok := StageHead(conn, sources, remoteSources, valueAware, dirs);
    if !ok {
      Stop(head, run, F, s0, e0, conn.log.events, conn.issued);
      Stop(head + run, tail, F, s0, e0, conn.log.events, conn.issued);
      return;
    }
    ghost var e1, s1 := conn.log.events, conn.issued;
    ok := RunStep(conn, command, true);
    Then(head, run, F, s0, e0, e1, s1, conn.log.events, conn.issued, ok);
    if !ok {
      Stop(head + run, tail, F, s0, e0, conn.log.events, conn.issued);
      return;
    }
    ghost var e2, s2 := conn.log.events, conn.issued;
    ok := StageTail(conn, targets, remoteTargets, localTargets);
    Then(head + run, tail, F, s0, e0, e2, s2, conn.log.events, conn.issued, ok);
  }
}
