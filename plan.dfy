/** The staging plan of a remote action: the remote operations the action
    issues, in order, as a function of its targets and sources. Two flavours:
    `valueAware` (scons_remote/action_remote.py, where SCons `Value` sources are
    passed through) and not (scons_remote/ActionRemote.py and the closure of
    scons_remote.py, where every source is staged as a file). */
module Plan {
  import opened Wrappers
  import opened Responses
  import opened Remote
  import opened Paths
  import opened Utils

  /** A build source: its `str()` and whether it is an SCons `Value` node. */
  datatype Source = Source(path: string, isValue: bool)

  /** Whether a source is staged as a file. */
  predicate Uploaded(s: Source, valueAware: bool)
  {
    !(valueAware && s.isValue)
  }

  function RemoteTarget(t: string): string
  {
    ToRemote(Normalise(t))
  }

  /** A file source maps under the workspace; a `Value` keeps its (normalised) text. */
  function RemoteSource(s: Source, valueAware: bool): string
  {
    if Uploaded(s, valueAware) then ToRemote(Normalise(s.path)) else Normalise(s.path)
  }

  function RemoteTargets(targets: seq<string>): (rt: seq<string>)
    ensures |rt| == |targets|
    ensures forall i :: 0 <= i < |targets| ==> rt[i] == ToRemote(Normalise(targets[i]))
  {
    Map(RemoteTarget, targets)
  }

  function RemoteSources(sources: seq<Source>, valueAware: bool): (rs: seq<string>)
    ensures |rs| == |sources|
    ensures forall i :: 0 <= i < |sources| ==> rs[i] == RemoteSource(sources[i], valueAware)
  {
    seq(|sources|, i requires 0 <= i < |sources| => RemoteSource(sources[i], valueAware))
  }

  /** The distinct parents of `paths`. */
  function Parents(paths: seq<string>): set<string>
  {
    set p | p in paths :: Dirname(p)
  }

  /** The values removed from the parent list before the directories are created. */
  function Excluded(valueAware: bool): seq<string>
  {
    if valueAware then [Root, ""] else [Root]
  }

  /** The directories created after the root. */
  function RemoteDirs(targets: seq<string>, sources: seq<Source>, valueAware: bool): set<string>
  {
    Parents(RemoteTargets(targets) + RemoteSources(sources, valueAware))
      - set v | v in Excluded(valueAware)
  }

  /** A `Value` source holding an absolute path has "/" as its parent, which
      neither excluded name removes, so `mkdir /` is issued for it. */
  lemma AbsoluteValueParent()
    ensures RemoteDirs([], [Source("/data", true)], true) == {"/"}
  {
    DirnameAt("/data", 0);
    OneValueParents("/data");
    assert "/" != Root;
  }

  /** The directories for one `Value` source without backslashes: its parent,
      unless that is an excluded name. */
  lemma OneValueParents(p: string)
    requires '\\' !in p
    ensures RemoteDirs([], [Source(p, true)], true) == {Dirname(p)} - {Root, ""}
  {
    var all := RemoteTargets([]) + RemoteSources([Source(p, true)], true);
    assert Normalise(p) == p;
    assert all == [p];
    assert Parents(all) == {Dirname(p)};
    assert (set v | v in Excluded(true)) == {Root, ""};
  }

  /** The remote command line, before any shell parsing. */
  function CommandLine(cmd: string, cmdArgs: string, remoteSources: seq<string>, remoteTargets: seq<string>): string
  {
    cmd + " " + cmdArgs + " " + JoinSpace(remoteSources) + " " + JoinSpace(remoteTargets)
  }

  const CleanupCommand: string := "rm scons-compute -r"

  function MkdirOf(d: string): Event
  {
    Event.Run(MkdirCommand(d), false)
  }

  function MkdirOps(dirs: seq<string>): seq<Event>
  {
    Map(MkdirOf, dirs)
  }

  function PutOf(s: Source, valueAware: bool): seq<Event>
  {
    if Uploaded(s, valueAware) then [Event.Put(Normalise(s.path), ToRemote(Normalise(s.path)))] else []
  }

  function PutOps(sources: seq<Source>, valueAware: bool): seq<Event>
  {
    if sources == [] then []
    else PutOps(sources[..|sources| - 1], valueAware) + PutOf(sources[|sources| - 1], valueAware)
  }

  function GetOf(t: string): Event
  {
    Event.Get(RemoteTarget(t), Normalise(t))
  }

  function GetOps(targets: seq<string>): seq<Event>
  {
    Map(GetOf, targets)
  }

  /** The steps before the command: the root, the directories, the uploads. */
  function PlanHead(sources: seq<Source>, valueAware: bool, dirs: seq<string>): seq<Event>
  {
    [MkdirOf(Root)] + MkdirOps(dirs) + PutOps(sources, valueAware)
  }

  function CommandRun(cmd: string, cmdArgs: string, targets: seq<string>, sources: seq<Source>, valueAware: bool): Event
  {
    Event.Run(CommandLine(cmd, cmdArgs, RemoteSources(sources, valueAware), RemoteTargets(targets)), true)
  }

  /** The steps after the command: the downloads and the cleanup. */
  function PlanTail(targets: seq<string>): seq<Event>
  {
    GetOps(targets) + [Event.Run(CleanupCommand, false)]
  }

  /** Every remote operation of one action, in order, when none of them raises. */
  function StagePlan(cmd: string, cmdArgs: string, targets: seq<string>, sources: seq<Source>,
                     valueAware: bool, dirs: seq<string>): seq<Event>
  {
    PlanHead(sources, valueAware, dirs) + [CommandRun(cmd, cmdArgs, targets, sources, valueAware)] + PlanTail(targets)
  }

  /** `StagePlan` as its segments, grouped from the right. */
  lemma StagePlanSegments(cmd: string, cmdArgs: string, targets: seq<string>, sources: seq<Source>,
                          valueAware: bool, dirs: seq<string>)
    ensures StagePlan(cmd, cmdArgs, targets, sources, valueAware, dirs)
         == [MkdirOf(Root)] + (MkdirOps(dirs) + (PutOps(sources, valueAware)
              + ([CommandRun(cmd, cmdArgs, targets, sources, valueAware)]
              + (GetOps(targets) + [Event.Run(CleanupCommand, false)]))))
  {
  }

  /** Index of the command run in `StagePlan`. */
  function CommandIndex(sources: seq<Source>, valueAware: bool, dirs: seq<string>): nat
  {
    1 + |dirs| + |PutOps(sources, valueAware)|
  }

  /** A run issued by `make_dir`. */
  predicate IsMkdir(e: Event)
  {
    e.Run? && !e.hidden && |e.command| >= 6 && e.command[..6] == "mkdir "
  }

  /** None of the `n` operations numbered `start`, `start + 1`, ... raises. */
  predicate CleanFor(n: nat, failing: set<nat>, start: nat)
  {
    forall k :: k in failing ==> !(start <= k < start + n)
  }

  /** None of the steps of `plan`, numbered from `start`, raises. */
  predicate Clean(plan: seq<Event>, failing: set<nat>, start: nat)
  {
    CleanFor(|plan|, failing, start)
  }

  /** How many of `n` consecutive operations, numbered from `start`, are attempted:
      all of them up to and including the first that raises. */
  function Attempted(n: nat, failing: set<nat>, start: nat): (k: nat)
    ensures k <= n
  {
    if n == 0 then 0
    else if start in failing then 1
    else 1 + Attempted(n - 1, failing, start + 1)
  }

  /** The part of `plan` a connection actually performs when the operations whose
      numbers are in `failing` raise: everything up to and including the first
      that raises, after which the remaining steps are skipped. */
  function Executed(plan: seq<Event>, failing: set<nat>, start: nat): (done: seq<Event>)
    ensures |done| <= |plan|
  {
    plan[..Attempted(|plan|, failing, start)]
  }

  // ---------------------------------------------------------------------------
  // Executed: how a failing step cuts a plan short

  lemma {:induction false} AttemptedChain(a: nat, b: nat, failing: set<nat>, start: nat)
    ensures CleanFor(a + b, failing, start) <==> CleanFor(a, failing, start) && CleanFor(b, failing, start + a)
    ensures Attempted(a + b, failing, start)
         == if CleanFor(a, failing, start) then a + Attempted(b, failing, start + a) else Attempted(a, failing, start)
    decreases a
  {
    if a > 0 {
      AttemptedChain(a - 1, b, failing, start + 1);
      assert a - 1 + b == a + b - 1;
    }
  }

  /** Without a raising step every operation is attempted. */
  lemma {:induction false} AttemptedClean(n: nat, failing: set<nat>, start: nat)
    requires CleanFor(n, failing, start)
    ensures Attempted(n, failing, start) == n
    decreases n
  {
    if n > 0 {
      AttemptedClean(n - 1, failing, start + 1);
    }
  }

  /** The attempts stop exactly at the first raising step. */
  lemma {:induction false} AttemptedStopsAt(n: nat, failing: set<nat>, start: nat)
    requires !CleanFor(n, failing, start)
    ensures var k := Attempted(n, failing, start);
      && 1 <= k <= n && start + k - 1 in failing && CleanFor(k - 1, failing, start)
    decreases n
  {
    if start !in failing {
      AttemptedStopsAt(n - 1, failing, start + 1);
    }
  }

  lemma ExecutedChain(a: seq<Event>, b: seq<Event>, failing: set<nat>, start: nat)
    ensures Clean(a + b, failing, start) <==> Clean(a, failing, start) && Clean(b, failing, start + |a|)
    ensures Executed(a + b, failing, start)
         == if Clean(a, failing, start) then a + Executed(b, failing, start + |a|) else Executed(a, failing, start)
  {
    AttemptedChain(|a|, |b|, failing, start);
    if Clean(a, failing, start) {
      AttemptedClean(|a|, failing, start);
      assert (a + b)[..|a| + Attempted(|b|, failing, start + |a|)] == a + b[..Attempted(|b|, failing, start + |a|)];
    } else {
      assert (a + b)[..Attempted(|a|, failing, start)] == a[..Attempted(|a|, failing, start)];
    }
  }

  /** A plan none of whose steps raises is performed in full. */
  lemma ExecutedClean(plan: seq<Event>, failing: set<nat>, start: nat)
    requires Clean(plan, failing, start)
    ensures Executed(plan, failing, start) == plan
  {
    AttemptedClean(|plan|, failing, start);
  }

  /** A plan with a raising step is performed up to and including the first one. */
  lemma ExecutedStopsAt(plan: seq<Event>, failing: set<nat>, start: nat)
    requires !Clean(plan, failing, start)
    ensures var done := Executed(plan, failing, start);
      && 1 <= |done| && done == plan[..|done|]
      && start + |done| - 1 in failing && Clean(done[..|done| - 1], failing, start)
  {
    AttemptedStopsAt(|plan|, failing, start);
  }

  /** A step that raises after a clean prefix ends the plan there. */
  lemma ExecutedStop(done: seq<Event>, e: Event, rest: seq<Event>, failing: set<nat>, start: nat)
    requires Clean(done, failing, start) && start + |done| in failing
    ensures Executed(done + [e] + rest, failing, start) == done + [e]
    ensures !Clean(done + [e] + rest, failing, start)
  {
    ExecutedChain(done + [e], rest, failing, start);
    ExecutedChain(done, [e], failing, start);
  }

  // ---------------------------------------------------------------------------
  // Uploads

  lemma {:induction false} PutOpsAppend(a: seq<Source>, b: seq<Source>, valueAware: bool)
    ensures PutOps(a + b, valueAware) == PutOps(a, valueAware) + PutOps(b, valueAware)
    decreases |b|
  {
    if b == [] {
      assert a + b == a;
    } else {
      assert (a + b)[..|a + b| - 1] == a + b[..|b| - 1];
      PutOpsAppend(a, b[..|b| - 1], valueAware);
    }
  }

  /** The uploads of the sources that are not `Value`s, in order. */
  function Files(sources: seq<Source>): seq<Source>
  {
    if sources == [] then []
    else Files(sources[..|sources| - 1]) + (if sources[|sources| - 1].isValue then [] else [sources[|sources| - 1]])
  }

  /** The earlier revisions upload every source, in order, to its mapped path. */
  lemma {:induction false} EverySourceUploaded(sources: seq<Source>)
    ensures |PutOps(sources, false)| == |sources|
    ensures forall i :: 0 <= i < |sources| ==>
      PutOps(sources, false)[i] == Event.Put(Normalise(sources[i].path), RemoteSource(sources[i], false))
    decreases |sources|
  {
    if sources != [] {
      EverySourceUploaded(sources[..|sources| - 1]);
    }
  }

  /** With `Value` pass-through, exactly the file sources are uploaded, in source
      order: as many puts as non-`Value` sources. */
  lemma {:induction false} ValuesNotUploaded(sources: seq<Source>)
    ensures PutOps(sources, true) == PutOps(Files(sources), false)
    ensures |PutOps(sources, true)| == |Files(sources)|
    decreases |sources|
  {
    if sources != [] {
      var init := sources[..|sources| - 1];
      var last := sources[|sources| - 1];
      ValuesNotUploaded(init);
      var tail := if last.isValue then [] else [last];
      PutOpsAppend(Files(init), tail, false);
      assert PutOps(tail, false) == PutOf(last, true) by {
        if !last.isValue { assert tail[..0] == []; }
      }
      EverySourceUploaded(Files(sources));
    }
  }

  /** A `Value` source keeps its text on the command line. */
  lemma ValuePassedThrough(sources: seq<Source>, i: nat)
    requires i < |sources| && sources[i].isValue
    ensures RemoteSources(sources, true)[i] == Normalise(sources[i].path)
    ensures RemoteSources(sources, false)[i] == ToRemote(Normalise(sources[i].path))
  {
  }

  /** `e` uploads source `s`. */
  predicate UploadOf(e: Event, s: Source, valueAware: bool)
  {
    Uploaded(s, valueAware) && e == Event.Put(Normalise(s.path), RemoteSource(s, valueAware))
  }

  /** Every upload of the plan is a file source, from its local path to its remote path. */
  lemma {:induction false} PutOpsFromSources(sources: seq<Source>, valueAware: bool)
    ensures forall j :: 0 <= j < |PutOps(sources, valueAware)| ==>
      exists k :: 0 <= k < |sources| && UploadOf(PutOps(sources, valueAware)[j], sources[k], valueAware)
    decreases |sources|
  {
    if sources == [] {
      assert PutOps(sources, valueAware) == [];
    } else {
      var init := sources[..|sources| - 1];
      var puts := PutOps(sources, valueAware);
      PutOpsFromSources(init, valueAware);
      assert puts == PutOps(init, valueAware) + PutOf(sources[|sources| - 1], valueAware);
      forall j | 0 <= j < |puts|
        ensures exists k :: 0 <= k < |sources| && UploadOf(puts[j], sources[k], valueAware)
      {
        if j < |PutOps(init, valueAware)| {
          var k :| 0 <= k < |init| && UploadOf(PutOps(init, valueAware)[j], init[k], valueAware);
          assert puts[j] == PutOps(init, valueAware)[j];
          assert sources[k] == init[k];
        } else {
          var last := sources[|sources| - 1];
          assert puts == PutOps(init, valueAware) + PutOf(last, valueAware);
          assert puts[j] == PutOf(last, valueAware)[j - |PutOps(init, valueAware)|];
          assert UploadOf(puts[j], last, valueAware);
          assert 0 <= |sources| - 1 < |sources| && UploadOf(puts[j], sources[|sources| - 1], valueAware);
        }
      }
    }
  }

  /** Two uploaded sources share a remote path only when their normalised local
      paths coincide. */
  lemma RemoteSourceInjective(s: Source, u: Source, valueAware: bool)
    requires Uploaded(s, valueAware) && Uploaded(u, valueAware)
    ensures RemoteSource(s, valueAware) == RemoteSource(u, valueAware) <==> Normalise(s.path) == Normalise(u.path)
  {
    ToRemoteInjective(Normalise(s.path), Normalise(u.path));
  }

  // ---------------------------------------------------------------------------
  // Directories

  /** In the earlier revisions, where every path is prefixed, "" is never a parent:
      dropping only the root already leaves what the later revision leaves. */
  lemma PrefixedParentsNeverEmpty(targets: seq<string>, sources: seq<Source>)
    ensures "" !in Parents(RemoteTargets(targets) + RemoteSources(sources, false))
    ensures RemoteDirs(targets, sources, false)
         == Parents(RemoteTargets(targets) + RemoteSources(sources, false)) - {Root, ""}
  {
    var all := RemoteTargets(targets) + RemoteSources(sources, false);
    forall i | 0 <= i < |all| ensures Dirname(all[i]) != "" {
      if i < |targets| {
        assert all[i] == RemoteTarget(targets[i]);
        RemoteParentNotEmpty(Normalise(targets[i]));
      } else {
        assert all[i] == RemoteSource(sources[i - |targets|], false);
        RemoteParentNotEmpty(Normalise(sources[i - |targets|].path));
      }
    }
    assert Excluded(false) == [Root];
    assert (set v | v in Excluded(false)) == {Root};
  }

  /** Without `Value` sources the two flavours of the plan coincide. */
  lemma RevisionsAgreeOnFiles(cmd: string, cmdArgs: string, targets: seq<string>, sources: seq<Source>, dirs: seq<string>)
    requires forall i :: 0 <= i < |sources| ==> !sources[i].isValue
    ensures RemoteSources(sources, true) == RemoteSources(sources, false)
    ensures RemoteDirs(targets, sources, true) == RemoteDirs(targets, sources, false)
    ensures StagePlan(cmd, cmdArgs, targets, sources, true, dirs) == StagePlan(cmd, cmdArgs, targets, sources, false, dirs)
  {
    assert RemoteSources(sources, true) == RemoteSources(sources, false);
    PrefixedParentsNeverEmpty(targets, sources);
    PutOpsSameOnFiles(sources);
  }

  lemma {:induction false} PutOpsSameOnFiles(sources: seq<Source>)
    requires forall i :: 0 <= i < |sources| ==> !sources[i].isValue
    ensures PutOps(sources, true) == PutOps(sources, false)
    decreases |sources|
  {
    if sources != [] {
      PutOpsSameOnFiles(sources[..|sources| - 1]);
    }
  }

  // ---------------------------------------------------------------------------
  // The shape of the plan

  lemma {:induction false} PutOpsArePuts(sources: seq<Source>, valueAware: bool)
    ensures forall j :: 0 <= j < |PutOps(sources, valueAware)| ==> PutOps(sources, valueAware)[j].Put?
    decreases |sources|
  {
    if sources != [] {
      PutOpsArePuts(sources[..|sources| - 1], valueAware);
    }
  }

  /** The head in positions: the root, the directories, then the uploads only. */
  lemma HeadLayout(sources: seq<Source>, valueAware: bool, dirs: seq<string>)
    ensures var h := PlanHead(sources, valueAware, dirs);
      && |h| == CommandIndex(sources, valueAware, dirs)
      && h[0] == MkdirOf(Root)
      && (forall i :: 0 <= i < |dirs| ==> h[1 + i] == MkdirOf(dirs[i]))
      && (forall j :: 1 + |dirs| <= j < |h| ==> h[j] == PutOps(sources, valueAware)[j - 1 - |dirs|])
  {
    var h := PlanHead(sources, valueAware, dirs);
    var front := [MkdirOf(Root)] + MkdirOps(dirs);
    assert h == front + PutOps(sources, valueAware);
  }

  /** In the head, the uploads are exactly the steps after the directories. */
  lemma HeadKinds(sources: seq<Source>, valueAware: bool, dirs: seq<string>)
    ensures var h := PlanHead(sources, valueAware, dirs);
      forall j :: 0 <= j < |h| ==> (h[j].Put? <==> 1 + |dirs| <= j)
  {
    var h := PlanHead(sources, valueAware, dirs);
    var puts := PutOps(sources, valueAware);
    var front := [MkdirOf(Root)] + MkdirOps(dirs);
    PutOpsArePuts(sources, valueAware);
    assert h == front + puts;
    assert forall j :: 0 <= j < |front| ==> front[j].Run?;
    assert forall j :: |front| <= j < |h| ==> h[j] == puts[j - |front|];
  }

  /** The tail in positions: one download per target in target order, then the cleanup. */
  lemma TailLayout(targets: seq<string>)
    ensures var t := PlanTail(targets);
      && |t| == |targets| + 1
      && (forall k :: 0 <= k < |targets| ==> t[k] == GetOf(targets[k]))
      && t[|targets|] == Event.Run(CleanupCommand, false)
  {
  }

  /** The command line begins with the command, a space and the argument text. */
  lemma CommandLineStarts(cmd: string, cmdArgs: string, remoteSources: seq<string>, remoteTargets: seq<string>)
    ensures var line := CommandLine(cmd, cmdArgs, remoteSources, remoteTargets);
      |line| >= |cmd| + 1 + |cmdArgs| && line[..|cmd| + 1 + |cmdArgs|] == cmd + " " + cmdArgs
  {
    var front := cmd + " " + cmdArgs;
    var rest := " " + JoinSpace(remoteSources) + " " + JoinSpace(remoteTargets);
    assert CommandLine(cmd, cmdArgs, remoteSources, remoteTargets) == front + rest;
    assert (front + rest)[..|front|] == front;
  }

  /** The command run sits at the command index. */
  lemma CommandAt(cmd: string, cmdArgs: string, targets: seq<string>, sources: seq<Source>,
                  valueAware: bool, dirs: seq<string>)
    ensures var p := StagePlan(cmd, cmdArgs, targets, sources, valueAware, dirs);
      CommandIndex(sources, valueAware, dirs) < |p|
      && p[CommandIndex(sources, valueAware, dirs)] == CommandRun(cmd, cmdArgs, targets, sources, valueAware)
  {
    var h := PlanHead(sources, valueAware, dirs);
    assert |h| == CommandIndex(sources, valueAware, dirs);
    var x := CommandRun(cmd, cmdArgs, targets, sources, valueAware);
    assert (h + [x] + PlanTail(targets))[|h|] == x;
  }

  /** The positions of `h + [x] + t`. */
  lemma ThreeParts<T>(h: seq<T>, x: T, t: seq<T>)
    ensures |h + [x] + t| == |h| + 1 + |t|
    ensures forall j :: 0 <= j < |h| ==> (h + [x] + t)[j] == h[j]
    ensures (h + [x] + t)[|h|] == x
    ensures forall j :: |h| < j < |h| + 1 + |t| ==> (h + [x] + t)[j] == t[j - |h| - 1]
  {
  }

  /** The plan in positions: the root, the directories, the uploads, the command,
      one download per target in target order, the cleanup. */
  lemma StageLayout(cmd: string, cmdArgs: string, targets: seq<string>, sources: seq<Source>,
                    valueAware: bool, dirs: seq<string>)
    ensures var p := StagePlan(cmd, cmdArgs, targets, sources, valueAware, dirs);
      var c := CommandIndex(sources, valueAware, dirs);
      && |p| == c + |targets| + 2
      && p[0] == MkdirOf(Root)
      && (forall i :: 0 <= i < |dirs| ==> p[1 + i] == MkdirOf(dirs[i]))
      && (forall j :: 1 + |dirs| <= j < c ==> p[j] == PutOps(sources, valueAware)[j - 1 - |dirs|])
      && p[c] == CommandRun(cmd, cmdArgs, targets, sources, valueAware)
      && (forall k :: 0 <= k < |targets| ==> p[c + 1 + k] == GetOf(targets[k]))
      && p[|p| - 1] == Event.Run(CleanupCommand, false)
  {
    HeadLayout(sources, valueAware, dirs);
    TailLayout(targets);
    ThreeParts(PlanHead(sources, valueAware, dirs), CommandRun(cmd, cmdArgs, targets, sources, valueAware),
               PlanTail(targets));
  }

  /** The kinds of the plan's operations by position: the uploads are exactly the
      steps between the directories and the command, the downloads exactly those
      between the command and the cleanup, and the command is the only hidden run. */
  lemma StageKinds(cmd: string, cmdArgs: string, targets: seq<string>, sources: seq<Source>,
                   valueAware: bool, dirs: seq<string>)
    ensures var p := StagePlan(cmd, cmdArgs, targets, sources, valueAware, dirs);
      var c := CommandIndex(sources, valueAware, dirs);
      && (forall j :: 0 <= j < |p| ==> (p[j].Put? <==> 1 + |dirs| <= j < c))
      && (forall j :: 0 <= j < |p| ==> (p[j].Get? <==> c < j < c + 1 + |targets|))
      && (forall j :: 0 <= j < |p| && p[j].Run? && p[j].hidden ==> j == c)
  {
    StagePuts(cmd, cmdArgs, targets, sources, valueAware, dirs);
    StageGets(cmd, cmdArgs, targets, sources, valueAware, dirs);
    StageHiddenRun(cmd, cmdArgs, targets, sources, valueAware, dirs);
  }

  lemma StagePuts(cmd: string, cmdArgs: string, targets: seq<string>, sources: seq<Source>,
                  valueAware: bool, dirs: seq<string>)
    ensures var p := StagePlan(cmd, cmdArgs, targets, sources, valueAware, dirs);
      forall j :: 0 <= j < |p| ==> (p[j].Put? <==> 1 + |dirs| <= j < CommandIndex(sources, valueAware, dirs))
  {
    var h := PlanHead(sources, valueAware, dirs);
    var p := StagePlan(cmd, cmdArgs, targets, sources, valueAware, dirs);
    HeadLayout(sources, valueAware, dirs);
    HeadKinds(sources, valueAware, dirs);
    StageLayout(cmd, cmdArgs, targets, sources, valueAware, dirs);
    assert forall j :: 0 <= j < |h| ==> p[j] == h[j];
  }

  lemma StageGets(cmd: string, cmdArgs: string, targets: seq<string>, sources: seq<Source>,
                  valueAware: bool, dirs: seq<string>)
    ensures var p := StagePlan(cmd, cmdArgs, targets, sources, valueAware, dirs);
      var c := CommandIndex(sources, valueAware, dirs);
      forall j :: 0 <= j < |p| ==> (p[j].Get? <==> c < j < c + 1 + |targets|)
  {
    var h := PlanHead(sources, valueAware, dirs);
    var p := StagePlan(cmd, cmdArgs, targets, sources, valueAware, dirs);
    HeadLayout(sources, valueAware, dirs);
    HeadKinds(sources, valueAware, dirs);
    StageLayout(cmd, cmdArgs, targets, sources, valueAware, dirs);
    assert forall j :: 0 <= j < |h| ==> p[j] == h[j];
  }

  lemma StageHiddenRun(cmd: string, cmdArgs: string, targets: seq<string>, sources: seq<Source>,
                       valueAware: bool, dirs: seq<string>)
    ensures var p := StagePlan(cmd, cmdArgs, targets, sources, valueAware, dirs);
      forall j :: 0 <= j < |p| && p[j].Run? && p[j].hidden ==> j == CommandIndex(sources, valueAware, dirs)
  {
    var h := PlanHead(sources, valueAware, dirs);
    var p := StagePlan(cmd, cmdArgs, targets, sources, valueAware, dirs);
    HeadLayout(sources, valueAware, dirs);
    HeadKinds(sources, valueAware, dirs);
    StageLayout(cmd, cmdArgs, targets, sources, valueAware, dirs);
    assert forall j :: 0 <= j < |h| ==> p[j] == h[j];
    assert forall j :: 0 <= j < |h| ==> !(h[j].Run? && h[j].hidden);
  }

  /** Every directory creation precedes every upload, every download follows the
      command, and the cleanup is the last operation. */
  lemma StageOrder(cmd: string, cmdArgs: string, targets: seq<string>, sources: seq<Source>,
                   valueAware: bool, dirs: seq<string>)
    ensures var p := StagePlan(cmd, cmdArgs, targets, sources, valueAware, dirs);
      var c := CommandIndex(sources, valueAware, dirs);
      && (forall i, j :: 0 <= i < |p| && 0 <= j < |p| && IsMkdir(p[i]) && p[j].Put? ==> i < j)
      && p[c].Run? && p[c].hidden
      && (forall j :: 0 <= j < |p| && p[j].Get? ==> c < j)
      && p[|p| - 1] == Event.Run(CleanupCommand, false)
  {
    StageLayout(cmd, cmdArgs, targets, sources, valueAware, dirs);
    StageKinds(cmd, cmdArgs, targets, sources, valueAware, dirs);
    var p := StagePlan(cmd, cmdArgs, targets, sources, valueAware, dirs);
    assert !IsMkdir(Event.Run(CleanupCommand, false)) by {
      assert CleanupCommand[..6] == "rm sco";
    }
    forall i | 0 <= i < |p| && IsMkdir(p[i]) ensures i <= |dirs| {
    }
  }

  /** Every upload lands in a directory created before it: the root or one of
      the created parents. */
  lemma UploadParentsCreated(cmd: string, cmdArgs: string, targets: seq<string>, sources: seq<Source>,
                             valueAware: bool, dirs: seq<string>)
    requires Enumerates(dirs, RemoteDirs(targets, sources, valueAware))
    ensures var p := StagePlan(cmd, cmdArgs, targets, sources, valueAware, dirs);
      forall j :: 0 <= j < |p| && p[j].Put? ==>
        exists i :: 0 <= i < j && p[i] == MkdirOf(Dirname(p[j].remote))
  {
    var p := StagePlan(cmd, cmdArgs, targets, sources, valueAware, dirs);
    forall j | 0 <= j < |p| && p[j].Put?
      ensures exists i :: 0 <= i < j && p[i] == MkdirOf(Dirname(p[j].remote))
    {
      UploadPrecededByParent(cmd, cmdArgs, targets, sources, valueAware, dirs, j);
    }
  }

  lemma UploadPrecededByParent(cmd: string, cmdArgs: string, targets: seq<string>, sources: seq<Source>,
                               valueAware: bool, dirs: seq<string>, j: nat)
    requires Enumerates(dirs, RemoteDirs(targets, sources, valueAware))
    requires var p := StagePlan(cmd, cmdArgs, targets, sources, valueAware, dirs); j < |p| && p[j].Put?
    ensures var p := StagePlan(cmd, cmdArgs, targets, sources, valueAware, dirs);
      exists i :: 0 <= i < j && p[i] == MkdirOf(Dirname(p[j].remote))
  {
    var p := StagePlan(cmd, cmdArgs, targets, sources, valueAware, dirs);
    StageLayout(cmd, cmdArgs, targets, sources, valueAware, dirs);
    StageKinds(cmd, cmdArgs, targets, sources, valueAware, dirs);
    UploadHasParent(targets, sources, valueAware, dirs, j - 1 - |dirs|);
    var d := Dirname(p[j].remote);
    if d == Root {
      assert p[0] == MkdirOf(d);
    } else {
      var m :| 0 <= m < |dirs| && dirs[m] == d;
      assert p[1 + m] == MkdirOf(d);
    }
  }

  lemma UploadHasParent(targets: seq<string>, sources: seq<Source>, valueAware: bool, dirs: seq<string>, j: nat)
    requires Enumerates(dirs, RemoteDirs(targets, sources, valueAware))
    requires j < |PutOps(sources, valueAware)|
    ensures PutOps(sources, valueAware)[j].Put?
    ensures var d := Dirname(PutOps(sources, valueAware)[j].remote); d == Root || d in dirs
  {
    var puts := PutOps(sources, valueAware);
    PutOpsFromSources(sources, valueAware);
    var k :| 0 <= k < |sources| && UploadOf(puts[j], sources[k], valueAware);
    SourceParentCreated(targets, sources, valueAware, dirs, k);
  }

  /** The remote parent of an uploaded source is the root or one of the created
      directories. */
  lemma SourceParentCreated(targets: seq<string>, sources: seq<Source>, valueAware: bool, dirs: seq<string>, k: nat)
    requires Enumerates(dirs, RemoteDirs(targets, sources, valueAware))
    requires k < |sources| && Uploaded(sources[k], valueAware)
    ensures var d := Dirname(RemoteSource(sources[k], valueAware)); d == Root || d in dirs
  {
    var all := RemoteTargets(targets) + RemoteSources(sources, valueAware);
    var r := RemoteSource(sources[k], valueAware);
    assert all[|targets| + k] == r;
    var d := Dirname(r);
    assert d in Parents(all);
    RemoteParentNotEmpty(Normalise(sources[k].path));
    if d != Root {
      assert d !in set v | v in Excluded(valueAware);
      assert d in RemoteDirs(targets, sources, valueAware);
    }
  }

  // ---------------------------------------------------------------------------
  // The command line

  /** Split on single spaces, the command line is the command, the pieces of the
      argument string, the remote sources and the remote targets (an empty list
      leaves one empty piece), provided none of those holds a space itself. */
  lemma CommandLineFields(cmd: string, cmdArgs: string, remoteSources: seq<string>, remoteTargets: seq<string>)
    requires ' ' !in cmd && SpaceFree(remoteSources) && SpaceFree(remoteTargets)
    ensures Split(CommandLine(cmd, cmdArgs, remoteSources, remoteTargets))
         == [cmd] + Split(cmdArgs) + Fields(remoteSources) + Fields(remoteTargets)
  {
    var a := cmd + " " + cmdArgs + " " + JoinSpace(remoteSources);
    SplitAtSpace(a, JoinSpace(remoteTargets));
    SplitAtSpace(cmd + " " + cmdArgs, JoinSpace(remoteSources));
    SplitAtSpace(cmd, cmdArgs);
    SplitWord(cmd);
    SplitJoinSpace(remoteSources);
    SplitJoinSpace(remoteTargets);
  }
}
