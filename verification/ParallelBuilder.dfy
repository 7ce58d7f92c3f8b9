/** The build loop (src/graph_parallel_builder.cpp).  Which running command finishes next is
    arbitrary; how commands end, what the cache holds, what depfiles say and when the build is
    interrupted is given by an environment. */
module Building {
  import opened Reachability
  import opened Topology
  import opened DirtyTracking
  import opened GraphInvariant
  import opened Planning
  import opened DepfileParsing
  import opened DepfileLoading
  import opened Hashing
  import opened Rehashing

  datatype BuildResult = SUCCEEDED | INTERRUPTED | FAILED
  datatype ExitStatus = ExitSucceeded | ExitInterrupted | ExitFailed

  /** A rule without depfile, one whose depfile cannot be read, or what the depfile says. */
  datatype Depfile = NoDepfile | Unreadable | Contents(parsed: Parsed)

  /** When the interrupt arrives: never, or once so many actions have been taken. */
  datatype Stop = Never | After(count: nat)

  /** What the build does not decide itself; `data` is what a file that a depfile newly mentions holds,
      and `clock` the time at which a rule is collected or restored. */
  datatype Environment = Environment(
    restored: Vertex -> bool, exit: Vertex -> ExitStatus, depfile: Vertex -> Depfile, data: Vertex -> string,
    clock: Vertex -> int, stop: Stop)

  /** What a build does, in order: a rule is handed out, its command is spawned (unless the
      rule is phony or restored from the cache) and collected, and the rule is built, or its
      depfile is refused. */
  datatype Action =
    | Start(rule: Vertex) | Spawn(rule: Vertex) | Collect(rule: Vertex, status: ExitStatus)
    | Refuse(rule: Vertex) | Built(rule: Vertex)

  /** The interrupt is visible after `log`. */
  predicate Stopped(stop: Stop, log: seq<Action>) { stop.After? && |log| >= stop.count }

  function ResultOf(status: ExitStatus): BuildResult {
    match status
    case ExitSucceeded => SUCCEEDED
    case ExitInterrupted => INTERRUPTED
    case ExitFailed => FAILED
  }

  /** The first failure decides the result. */
  function Verdict(log: seq<Action>): BuildResult {
    if log == [] then SUCCEEDED
    else if Verdict(log[..|log| - 1]) != SUCCEEDED then Verdict(log[..|log| - 1])
    else if log[|log| - 1].Collect? then ResultOf(log[|log| - 1].status)
    else if log[|log| - 1].Refuse? then FAILED
    else SUCCEEDED
  }

  /** Every command that was collected succeeded and no depfile was refused. */
  ghost predicate NoFailure(log: seq<Action>) {
    forall a :: a in log ==> !a.Refuse? && (a.Collect? ==> a.status == ExitSucceeded)
  }

  lemma {:induction false} VerdictIff(log: seq<Action>)
    ensures Verdict(log) == SUCCEEDED <==> NoFailure(log)
  {
    if log != [] {
      VerdictIff(log[..|log| - 1]);
      assert log == log[..|log| - 1] + [log[|log| - 1]];
    }
  }

  /** The result is what the first failure says: an interrupted command interrupts the build, any other
      failing command and a refused depfile fail it. */
  lemma {:induction false} FirstFailure(log: seq<Action>, k: nat)
    requires k < |log| && NoFailure(log[..k])
    requires log[k].Refuse? || (log[k].Collect? && log[k].status != ExitSucceeded)
    ensures Verdict(log) == if log[k].Collect? && log[k].status == ExitInterrupted then INTERRUPTED else FAILED
    decreases |log|
  {
    var before := log[..|log| - 1];
    if k == |log| - 1 {
      VerdictIff(before);
    } else {
      assert before[..k] == log[..k];
      FirstFailure(before, k);
    }
  }

  /** The command of `r` need not run. */
  predicate Skipped(t: Topology, env: Environment, r: Vertex) { IsPhony(t, r) || env.restored(r) }

  /** What `r` does when its command succeeded is accepted. */
  predicate Accepted(t: Topology, env: Environment, r: Vertex) {
    match env.depfile(r)
    case NoDepfile => true
    case Unreadable => false
    case Contents(parsed) => Matches(t, r, parsed)
  }

  /** Each action is what the environment makes of it. */
  ghost predicate Faithful(t: Topology, env: Environment, log: seq<Action>) {
    forall a :: a in log ==>
      match a
      case Start(r) => true
      case Spawn(r) => !Skipped(t, env, r)
      case Collect(r, status) => !Skipped(t, env, r) && status == env.exit(r)
      case Refuse(r) => !Skipped(t, env, r) && env.exit(r) == ExitSucceeded && !Accepted(t, env, r)
      case Built(r) => Skipped(t, env, r) || (env.exit(r) == ExitSucceeded && Accepted(t, env, r))
  }

  /** The depfile that building `r` loads. */
  predicate LoadsFrom(t: Topology, env: Environment, r: Vertex) {
    !Skipped(t, env, r) && env.depfile(r).Contents? && env.depfile(r).parsed.Deps? && HasInputs(t, r)
  }

  /** The graph after the depfiles of the rules built in `log` have been loaded. */
  ghost function Reloaded(t: Topology, env: Environment, log: seq<Action>): Topology {
    if log == [] then t else
      var u, a := Reloaded(t, env, log[..|log| - 1]), log[|log| - 1];
      if a.Built? && LoadsFrom(u, env, a.rule) then Loaded(u, a.rule, env.depfile(a.rule).parsed.ins) else u
  }

  lemma ReloadedLast(t: Topology, env: Environment, log: seq<Action>, a: Action)
    ensures var u := Reloaded(t, env, log);
            Reloaded(t, env, log + [a])
            == if a.Built? && LoadsFrom(u, env, a.rule) then Loaded(u, a.rule, env.depfile(a.rule).parsed.ins) else u
  {
    hide LoadsFrom, Loaded;
    assert (log + [a])[..|log|] == log;
  }

  lemma VerdictLast(log: seq<Action>, a: Action)
    ensures Verdict(log + [a]) == if Verdict(log) != SUCCEEDED then Verdict(log)
                                  else if a.Collect? then ResultOf(a.status) else if a.Refuse? then FAILED
                                      else SUCCEEDED
  {
    assert (log + [a])[..|log|] == log;
  }

  /** Without depfiles the graph keeps its shape. */
  lemma {:induction false} NotReloaded(t: Topology, env: Environment, log: seq<Action>)
    requires forall r :: env.depfile(r).NoDepfile?
    ensures Reloaded(t, env, log) == t
  {
    hide Loaded;
    if log != [] {
      NotReloaded(t, env, log[..|log| - 1]);
    }
  }

  ghost function StartedRules(log: seq<Action>): set<Vertex> {
    set a | a in log && a.Start? :: a.rule
  }

  ghost function BuiltRules(log: seq<Action>): set<Vertex> {
    set a | a in log && a.Built? :: a.rule
  }

  /** How far a rule has come. */
  datatype Stage = Idle | Begun | Running | Ended(status: ExitStatus) | Over

  function StageAfter(a: Action): Stage {
    match a
    case Start(_) => Begun
    case Spawn(_) => Running
    case Collect(_, status) => Ended(status)
    case Refuse(_) => Over
    case Built(_) => Over
  }

  /** The stage of `r` after `log`: what its last action says. */
  function StageOf(log: seq<Action>, r: Vertex): Stage {
    if log == [] then Idle
    else if log[|log| - 1].rule == r then StageAfter(log[|log| - 1])
    else StageOf(log[..|log| - 1], r)
  }

  /** The stage that an action needs: a rule starts once, is spawned once after that unless its command
      need not run, is collected once while it runs, and is built once, after its command succeeded if
      it had to run; or its depfile is refused then. */
  predicate Follows(t: Topology, env: Environment, stage: Stage, a: Action) {
    match a
    case Start(_) => stage.Idle?
    case Spawn(r) => stage.Begun? && !Skipped(t, env, r)
    case Collect(_, _) => stage.Running?
    case Refuse(_) => stage == Ended(ExitSucceeded)
    case Built(r) => if Skipped(t, env, r) then stage.Begun? else stage == Ended(ExitSucceeded)
  }

  ghost predicate Lifecycle(t: Topology, env: Environment, log: seq<Action>) {
    forall k :: 0 <= k < |log| ==> Follows(t, env, StageOf(log[..k], log[k].rule), log[k])
  }

  /** The rules whose commands run after `log`. */
  ghost function RunningRules(log: seq<Action>): set<Vertex> {
    set a | a in log && StageOf(log, a.rule).Running? :: a.rule
  }

  /** A rule starts only once every planned rule that produces one of its inputs is built. */
  ghost predicate StartsAfterProducers(t: Topology, planned: set<Vertex>, log: seq<Action>) {
    forall k :: 0 <= k < |log| && log[k].Start? ==>
                  log[k].rule in planned && ProducersBuilt(t, planned, log[..k], log[k].rule)
  }

  ghost predicate ProducersBuilt(t: Topology, planned: set<Vertex>, log: seq<Action>, r: Vertex) {
    forall i :: r in t.inputs && i in t.inputs[r] && i in t.child && t.child[i] in planned
                ==> t.child[i] in BuiltRules(log)
  }

  ghost predicate WithinThreads(n: nat, log: seq<Action>) {
    forall k :: 0 <= k <= |log| ==> |RunningRules(log[..k])| <= n
  }

  /** Nothing can be started after `log`: all threads are taken, or each rule that has not started
      waits for another one. */
  ghost predicate Saturated(t: Topology, planned: set<Vertex>, n: nat, log: seq<Action>) {
    || |RunningRules(log)| == n
    || forall r :: r in planned - StartedRules(log) ==> !ProducersBuilt(t, planned, log, r)
  }

  /** The build goes on: nothing has failed and the interrupt has not come. */
  predicate Undecided(env: Environment, log: seq<Action>) {
    Verdict(log) == SUCCEEDED && !Stopped(env.stop, log)
  }

  /** As long as the build goes on, it waits for a command only when it can start nothing. */
  ghost predicate Eager(t: Topology, env: Environment, planned: set<Vertex>, n: nat, log: seq<Action>) {
    forall k :: 0 <= k < |log| && log[k].Collect? && Undecided(env, log[..k]) ==> Saturated(t, planned, n, log[..k])
  }

  /** What one schedule must look like, whatever finishes first. */
  ghost predicate Orderly(t: Topology, env: Environment, planned: set<Vertex>, n: nat, log: seq<Action>) {
    && Lifecycle(t, env, log) && StartsAfterProducers(t, planned, log) && WithinThreads(n, log)
    && Eager(t, env, planned, n, log)
  }

  // ----- What an orderly schedule means -----

  lemma StageLast(log: seq<Action>, a: Action, r: Vertex)
    ensures StageOf(log + [a], r) == if a.rule == r then StageAfter(a) else StageOf(log, r)
  {
    assert (log + [a])[..|log|] == log;
  }

  lemma {:induction false} RunningIff(log: seq<Action>, r: Vertex)
    ensures r in RunningRules(log) <==> StageOf(log, r).Running?
  {
    if StageOf(log, r).Running? {
      Mentioned(log, r);
    }
  }

  lemma {:induction false} Mentioned(log: seq<Action>, r: Vertex)
    requires !StageOf(log, r).Idle?
    ensures exists a :: a in log && a.rule == r
  {
    if log[|log| - 1].rule != r {
      Mentioned(log[..|log| - 1], r);
    } else {
      assert log[|log| - 1] in log;
    }
  }

  lemma LifecyclePrefix(t: Topology, env: Environment, log: seq<Action>, k: nat)
    requires Lifecycle(t, env, log) && k <= |log|
    ensures Lifecycle(t, env, log[..k])
  {
    hide Follows, StageOf;
    forall i | 0 <= i < k ensures log[..k][..i] == log[..i] {}
  }

  /** A rule that is not idle has started, and one that has been built is over. */
  lemma {:induction false} StageMeans(t: Topology, env: Environment, log: seq<Action>, r: Vertex)
    requires Lifecycle(t, env, log)
    ensures StageOf(log, r).Idle? <==> r !in StartedRules(log)
    ensures r in BuiltRules(log) ==> StageOf(log, r).Over?
  {
    hide *;
    if log == [] {
      NothingHappened(r);
    } else {
      var before, a := log[..|log| - 1], log[|log| - 1];
      LifecyclePrefix(t, env, log, |log| - 1);
      StageMeans(t, env, before, r);
      assert log == before + [a];
      LastFollows(t, env, before, a);
      StageMeansMore(t, env, before, a, r);
    }
  }

  lemma NothingHappened(r: Vertex)
    ensures StageOf([], r).Idle? && StartedRules([]) == {} && BuiltRules([]) == {}
  {
  }

  lemma LastFollows(t: Topology, env: Environment, log: seq<Action>, a: Action)
    requires Lifecycle(t, env, log + [a])
    ensures Follows(t, env, StageOf(log, a.rule), a)
  {
    hide Follows, StageOf;
    assert (log + [a])[..|log|] == log && (log + [a])[|log|] == a;
  }

  lemma StageMeansMore(t: Topology, env: Environment, log: seq<Action>, a: Action, r: Vertex)
    requires Follows(t, env, StageOf(log, a.rule), a) && (StageOf(log, r).Idle? <==> r !in StartedRules(log))
    requires r in BuiltRules(log) ==> StageOf(log, r).Over?
    ensures StageOf(log + [a], r).Idle? <==> r !in StartedRules(log + [a])
    ensures r in BuiltRules(log + [a]) ==> StageOf(log + [a], r).Over?
  {
    hide StageOf, StartedRules, BuiltRules, Skipped;
    LogLast(log, a);
    StageLast(log, a, r);
  }

  /** The start of a rule that is not idle any more. */
  lemma {:induction false} StartedAt(t: Topology, env: Environment, log: seq<Action>, r: Vertex) returns (k: nat)
    requires Lifecycle(t, env, log) && !StageOf(log, r).Idle?
    ensures k < |log| && log[k] == Start(r)
  {
    StageMeans(t, env, log, r);
    var a :| a in log && a.Start? && a.rule == r;
    k :| 0 <= k < |log| && log[k] == a;
  }

  /** Every action belongs to a planned rule, and by then all planned producers of its inputs are
      built: above all, a rule is built only after them. */
  lemma ProducersFirst(t: Topology, env: Environment, planned: set<Vertex>, n: nat, log: seq<Action>, k: nat)
    requires Orderly(t, env, planned, n, log) && k < |log|
    ensures log[k].rule in planned && ProducersBuilt(t, planned, log[..k], log[k].rule)
  {
    hide StageOf, WithinThreads, Eager;
    var r := log[k].rule;
    if !log[k].Start? {
      LifecyclePrefix(t, env, log, k);
      var j := StartedAt(t, env, log[..k], r);
      assert log[j] == Start(r) && log[..k][..j] == log[..j];
      forall p | p in BuiltRules(log[..j]) ensures p in BuiltRules(log[..k]) {}
    }
  }

  /** Nothing goes wrong with the planned rules: every command that runs succeeds, its depfile is
      accepted, and no interrupt comes. */
  ghost predicate Undisturbed(t: Topology, env: Environment, planned: set<Vertex>) {
    && env.stop.Never?
    && forall r :: r in planned && !Skipped(t, env, r) ==> env.exit(r) == ExitSucceeded && Accepted(t, env, r)
  }

  /** In an undisturbed build nothing fails. */
  lemma UndisturbedSucceeds(t: Topology, env: Environment, planned: set<Vertex>, n: nat, log: seq<Action>)
    requires Undisturbed(t, env, planned) && Faithful(t, env, log) && Orderly(t, env, planned, n, log)
    ensures NoFailure(log) && !Stopped(env.stop, log) && Verdict(log) == SUCCEEDED
  {
    hide Accepted, Skipped, Orderly;
    VerdictIff(log);
    forall a | a in log ensures !a.Refuse? && (a.Collect? ==> a.status == ExitSucceeded) {
      var k :| 0 <= k < |log| && log[k] == a;
      ProducersFirst(t, env, planned, n, log, k);
    }
  }

  /** A rule that is built was spawned exactly if it has a command and the cache did not restore it. */
  lemma SpawnedIff(t: Topology, env: Environment, planned: set<Vertex>, n: nat, log: seq<Action>, r: Vertex)
    requires Orderly(t, env, planned, n, log) && r in BuiltRules(log) && r in t.command
    ensures Spawn(r) in log <==> t.command[r] != "" && !env.restored(r)
  {
    hide StageOf, WithinThreads, Eager, StartsAfterProducers;
    var a :| a in log && a.Built? && a.rule == r;
    var k :| 0 <= k < |log| && log[k] == a;
    assert Follows(t, env, StageOf(log[..k], log[k].rule), log[k]);
    if Spawn(r) in log {
      var j :| 0 <= j < |log| && log[j] == Spawn(r);
      assert Follows(t, env, StageOf(log[..j], log[j].rule), log[j]);
    }
    if !Skipped(t, env, r) {
      LifecyclePrefix(t, env, log, k);
      WasSpawned(t, env, log[..k], r);
    }
  }

  lemma {:induction false} WasSpawned(t: Topology, env: Environment, log: seq<Action>, r: Vertex)
    requires Lifecycle(t, env, log) && (StageOf(log, r).Running? || StageOf(log, r).Ended?)
    ensures Spawn(r) in log
  {
    hide Skipped;
    var k := |log| - 1;
    assert Follows(t, env, StageOf(log[..k], log[k].rule), log[k]);
    if log[k] != Spawn(r) {
      LifecyclePrefix(t, env, log, k);
      WasSpawned(t, env, log[..k], r);
    }
  }

  /** No two actions of one kind on one rule. */
  lemma {:induction false} OnceEach(t: Topology, env: Environment, log: seq<Action>, i: nat, j: nat)
    requires Lifecycle(t, env, log) && i < j < |log| && log[i].rule == log[j].rule
    ensures StageAfter(log[i]) != StageAfter(log[j]) && !log[j].Start?
    ensures StageAfter(log[i]).Ended? ==> !StageAfter(log[j]).Ended?
  {
    hide StageOf;
    Advances(t, env, log, i, j);
  }

  /** How far a stage is. */
  function Progression(stage: Stage): nat {
    match stage
    case Idle => 0
    case Begun => 1
    case Running => 2
    case Ended(_) => 3
    case Over => 4
  }

  /** Each action on a rule takes it further than all earlier ones. */
  lemma {:induction false} Advances(t: Topology, env: Environment, log: seq<Action>, i: nat, j: nat)
    requires Lifecycle(t, env, log) && i < j < |log| && log[i].rule == log[j].rule
    ensures Progression(StageAfter(log[i])) <= Progression(StageOf(log[..j], log[j].rule))
    ensures Progression(StageAfter(log[i])) < Progression(StageAfter(log[j]))
    decreases j
  {
    var r := log[j].rule;
    assert Follows(t, env, StageOf(log[..j], r), log[j]);
    StageReached(t, env, log, i, j);
  }

  lemma {:induction false} StageReached(t: Topology, env: Environment, log: seq<Action>, i: nat, j: nat)
    requires Lifecycle(t, env, log) && i < j <= |log|
    ensures Progression(StageAfter(log[i])) <= Progression(StageOf(log[..j], log[i].rule))
    decreases j
  {
    assert log[..j][..j - 1] == log[..j - 1];
    if i < j - 1 {
      StageReached(t, env, log, i, j - 1);
      assert Follows(t, env, StageOf(log[..j - 1], log[j - 1].rule), log[j - 1]);
    }
  }

  /** What becomes clean when rule `r` is built. */
  ghost function Cleared(t: Topology, r: Vertex): set<Vertex> {
    {r} + (if r in t.outputs then Range(t.outputs[r]) else {}) + SourceInputs(t, r)
  }

  ghost function SourceInputs(t: Topology, r: Vertex): set<Vertex> {
    if r in t.inputs then set i | i in t.inputs[r] && IsSource(t, i) else {}
  }

  ghost function ClearedBy(t: Topology, rs: set<Vertex>): set<Vertex> {
    set r, v | r in rs && v in Cleared(t, r) :: v
  }

  /** The state of a build: of the `planned` rules, `started` were handed out and `built` are
      finished; `start` is the dirty set when the build began. */
  ghost predicate Progress(t: Topology, start: set<Vertex>, d: set<Vertex>, planned: set<Vertex>,
                           started: set<Vertex>, built: set<Vertex>) {
    && built <= started <= planned <= t.rules
    && d == start - ClearedBy(t, built)
    && (forall r :: r in planned - built ==> r in d && NeedsMet(t, d, planned - built, r))
    && (forall r, o :: r in planned - built && r in t.outputs && o in t.outputs[r] ==> o in d)
    && (forall r :: r in started ==> Blockers(t, d, r) == {})
  }

  /** Building a started rule keeps the invariant and makes progress; what newly becomes
      startable consumes an output of that rule. */
  lemma BuildOne(t: Topology, start: set<Vertex>, d: set<Vertex>, lazy: set<Vertex>, planned: set<Vertex>,
                 started: set<Vertex>, built: set<Vertex>, r: Vertex)
    requires WellFormed(t) && Consistent(t, d, lazy) && Progress(t, start, d, planned, started, built)
    requires r in started - built
    ensures Consistent(t, d - Cleared(t, r), lazy - Cleared(t, r))
    ensures Progress(t, start, d - Cleared(t, r), planned, started, built + {r})
    ensures r in t.outputs
    ensures Startable(t, d - Cleared(t, r), planned - started)
            == Startable(t, d, planned - started)
             + Startable(t, d - Cleared(t, r), planned * Consumers(t, t.outputs[r]))
  {
    hide WellFormed;
    RuleShape(t, r);
    StaysConsistent(t, d, lazy, r);
    MakesProgress(t, start, d, planned, started, built, r);
    NewlyStartable(t, start, d, planned, started, built, r);
  }

  lemma StaysConsistent(t: Topology, d: set<Vertex>, lazy: set<Vertex>, r: Vertex)
    requires WellFormed(t) && Consistent(t, d, lazy) && r in t.rules && Blockers(t, d, r) == {}
    ensures Consistent(t, d - Cleared(t, r), lazy - Cleared(t, r))
  {
    hide WellFormed;
    RuleShape(t, r);
    var d', lazy' := d - Cleared(t, r), lazy - Cleared(t, r);
    forall v | v in Cleared(t, r) ensures v == r || (v in t.child && t.child[v] == r)
        || (IsSource(t, v) && v in t.inputs[r]) {}
    forall n | n in t.child && n in d' ensures t.child[n] in d' {
      ChildIsNode(t, n);
      NodeShape(t, n);
      RuleShape(t, t.child[n]);
    }
    forall q, o | q in t.outputs && q in d' && o in t.outputs[q] ensures o in d' || o in lazy' {
      SameKeys(t);
      RuleShape(t, q);
    }
    forall q, i | q in t.inputs && i in t.inputs[q] && i in t.child && i in d' ensures q in d' {
      SameKeys(t);
      RuleShape(t, q);
      assert q == r ==> i in Blockers(t, d, r);
    }
    forall s | s in t.parents && IsSource(t, s) && s in d' && t.parents[s] != []
      ensures exists p :: p in t.parents[s] && p in d'
    {
      SameKeys(t);
      NodeShape(t, s);
      var p :| p in t.parents[s] && p in d;
      RuleShape(t, p);
      assert p in d';
    }
    forall q, o, o' | q in t.outputs && o in t.outputs[q] && o' in t.outputs[q] && o in d' ensures o' in d' {
      SameKeys(t);
      RuleShape(t, q);
    }
  }

  lemma MakesProgress(t: Topology, start: set<Vertex>, d: set<Vertex>, planned: set<Vertex>,
                      started: set<Vertex>, built: set<Vertex>, r: Vertex)
    requires WellFormed(t) && Progress(t, start, d, planned, started, built) && r in started - built
    ensures Progress(t, start, d - Cleared(t, r), planned, started, built + {r})
  {
    hide WellFormed;
    RuleShape(t, r);
    var d', built' := d - Cleared(t, r), built + {r};
    ClearedMore(t, built, r);
    forall q | q in planned - built' ensures q in d' && NeedsMet(t, d', planned - built', q) {
      RuleShape(t, q);
      forall i | i in Blockers(t, d', q) ensures t.child[i] in planned - built' {
        assert i in Blockers(t, d, q) && NeedsMet(t, d, planned - built, q);
        NodeShape(t, i);
        assert t.child[i] == r ==> i in Cleared(t, r);
      }
    }
    forall q, o | q in planned - built' && q in t.outputs && o in t.outputs[q] ensures o in d' {
      RuleShape(t, q);
    }
    forall q | q in started ensures Blockers(t, d', q) == {} {
      assert Blockers(t, d', q) <= Blockers(t, d, q);
    }
  }

  lemma NewlyStartable(t: Topology, start: set<Vertex>, d: set<Vertex>, planned: set<Vertex>,
                       started: set<Vertex>, built: set<Vertex>, r: Vertex)
    requires WellFormed(t) && Progress(t, start, d, planned, started, built) && r in started - built && r in t.outputs
    ensures Startable(t, d - Cleared(t, r), planned - started)
            == Startable(t, d, planned - started)
             + Startable(t, d - Cleared(t, r), planned * Consumers(t, t.outputs[r]))
  {
    hide WellFormed;
    RuleShape(t, r);
    var d' := d - Cleared(t, r);
    forall q | q in planned
      ensures Blockers(t, d', q) <= Blockers(t, d, q)
      ensures q in Consumers(t, t.outputs[r]) ==> Blockers(t, d, q) != {}
      ensures Blockers(t, d', q) == {} && Blockers(t, d, q) != {} ==> q in Consumers(t, t.outputs[r])
    {
      RuleShape(t, q);
      if q in Consumers(t, t.outputs[r]) {
        var o :| o in t.outputs[r] && o in t.parents && q in t.parents[o];
        NodeShape(t, o);
        assert o in Blockers(t, d, q);
      }
      if Blockers(t, d', q) == {} && Blockers(t, d, q) != {} {
        var i :| i in Blockers(t, d, q);
        assert i !in Blockers(t, d', q);
        NodeShape(t, i);
        assert i in t.outputs[r];
      }
    }
  }

  /** The commands `running` after `log`, within an orderly schedule. */
  ghost predicate Timetable(t: Topology, env: Environment, planned: set<Vertex>, n: nat, running: set<Vertex>,
                            log: seq<Action>) {
    running == RunningRules(log) && Orderly(t, env, planned, n, log)
  }

  /** What the stage of a rule says about the account of the build. */
  lemma StageParts(t: Topology, env: Environment, planned: set<Vertex>, n: nat, log: seq<Action>, r: Vertex)
    requires Orderly(t, env, planned, n, log)
    ensures StageOf(log, r).Idle? <==> r !in StartedRules(log)
    ensures StageOf(log, r).Running? <==> r in RunningRules(log)
    ensures r in BuiltRules(log) ==> StageOf(log, r).Over?
    ensures |RunningRules(log)| <= n
  {
    hide StageOf, RunningRules, StartedRules, BuiltRules, StartsAfterProducers, Eager;
    StageMeans(t, env, log, r);
    RunningIff(log, r);
    assert log[..|log|] == log;
  }

  /** One more action in an orderly schedule. */
  lemma TimetableLast(t: Topology, env: Environment, planned: set<Vertex>, n: nat, running: set<Vertex>,
                      log: seq<Action>, a: Action)
    requires Timetable(t, env, planned, n, running, log) && Follows(t, env, StageOf(log, a.rule), a)
    requires a.Start? ==> a.rule in planned && ProducersBuilt(t, planned, log, a.rule)
    requires a.Spawn? ==> |running| < n
    requires a.Collect? && Undecided(env, log) ==> Saturated(t, planned, n, log)
    ensures Timetable(t, env, planned, n, if a.Spawn? then running + {a.rule} else running - {a.rule}, log + [a])
    ensures StageOf(log + [a], a.rule) == StageAfter(a)
    ensures !a.Spawn? && !a.Collect? ==> running - {a.rule} == running
  {
    hide Follows, StageOf, RunningRules, Undecided, Saturated, ProducersBuilt, Orderly;
    StageLast(log, a, a.rule);
    RunningLast(log, a);
    NotRunning(t, env, planned, n, log, a);
    StageParts(t, env, planned, n, log, a.rule);
    SmallerSet(running, a.rule);
    OrderlyLast(t, env, planned, n, log, a);
  }

  lemma SmallerSet(s: set<Vertex>, r: Vertex)
    ensures |s - {r}| <= |s| && |s + {r}| <= |s| + 1
  {
    SubsetSize(s - {r}, s);
  }

  lemma NotRunning(t: Topology, env: Environment, planned: set<Vertex>, n: nat, log: seq<Action>, a: Action)
    requires Orderly(t, env, planned, n, log) && Follows(t, env, StageOf(log, a.rule), a)
    ensures !a.Spawn? && !a.Collect? ==> a.rule !in RunningRules(log)
  {
    hide StageOf, Orderly, RunningRules;
    RunningIff(log, a.rule);
  }

  lemma RunningLast(log: seq<Action>, a: Action)
    ensures RunningRules(log + [a]) == if a.Spawn? then RunningRules(log) + {a.rule} else RunningRules(log) - {a.rule}
  {
    hide RunningRules, StageOf;
    forall r ensures r in RunningRules(log + [a]) <==>
                     r in if a.Spawn? then RunningRules(log) + {a.rule} else RunningRules(log) - {a.rule} {
      RunningIff(log + [a], r);
      RunningIff(log, r);
      StageLast(log, a, r);
    }
  }

  lemma OrderlyLast(t: Topology, env: Environment, planned: set<Vertex>, n: nat, log: seq<Action>, a: Action)
    requires Orderly(t, env, planned, n, log) && |RunningRules(log + [a])| <= n
    requires Follows(t, env, StageOf(log, a.rule), a)
    requires a.Start? ==> a.rule in planned && ProducersBuilt(t, planned, log, a.rule)
    requires a.Collect? && Undecided(env, log) ==> Saturated(t, planned, n, log)
    ensures Orderly(t, env, planned, n, log + [a])
  {
    hide ProducersBuilt, RunningRules, Saturated, Undecided, StageOf, Follows;
    var more := log + [a];
    forall k | 0 <= k <= |log| ensures more[..k] == log[..k] {}
    assert more[..|more|] == more && more[..|log|] == log;
  }

  // ----- Depfiles during a build -----

  /** What loading leaves of the graph `t0`: rules that are not built yet are as they were. */
  ghost predicate Kept(t0: Topology, t: Topology, built: set<Vertex>) {
    && t.rules == t0.rules && t.outputs == t0.outputs && t.child == t0.child && t.command == t0.command
    && t.inputs.Keys == t0.inputs.Keys && t.implicits.Keys == t0.implicits.Keys
    && (forall r :: r in t0.inputs && r !in built ==> t.inputs[r] == t0.inputs[r])
    && (forall r :: r in t0.implicits && r !in built ==> t.implicits[r] == t0.implicits[r])
  }

  /** A rule whose depfile is accepted may list any source, any clean node, and whatever dirty node
      it needs anyway; one whose depfile is refused has no implicit inputs to lose. */
  ghost predicate MayList(t0: Topology, first: set<Vertex>, env: Environment, r: Vertex) {
    env.depfile(r).Contents? ==>
      var parsed := env.depfile(r).parsed;
      if Matches(t0, r, parsed) then
        forall dep :: dep in parsed.ins && Node(dep) in t0.child && Node(dep) in first ==>
                        Reaches(NeedEdges(t0, first), r, Node(dep))
      else ImplicitInputs(t0, r) == []
  }

  /** The ranks of the graph grow from every file that a depfile lists to its rule as well. */
  ghost predicate Layered(t: Topology, env: Environment, planned: set<Vertex>, rank: map<Vertex, nat>) {
    && Ranked(t, rank)
    && forall r, dep :: r in planned && env.depfile(r).Contents? && Matches(t, r, env.depfile(r).parsed)
                        && dep in env.depfile(r).parsed.ins ==>
                          r in rank && Node(dep) in rank && rank[Node(dep)] < rank[r]
  }

  /** The graph and all that the depfiles of the planned rules list have no cycle. */
  ghost predicate Layers(t: Topology, env: Environment, planned: set<Vertex>) {
    exists rank :: Layered(t, env, planned, rank)
  }

  /** All consumers of a dirty source that some depfile listed are dirty. */
  ghost predicate Droppable(t: Topology, d: set<Vertex>) {
    forall s, q, p ::
      s in d && s in t.parents && IsSource(t, s) && q in t.rules && s in ImplicitInputs(t, q) && p in t.parents[s]
      ==> p in d
  }

  /** A started rule has all the producers of its once dirty inputs built. */
  ghost predicate ProducersDone(t0: Topology, first: set<Vertex>, started: set<Vertex>, built: set<Vertex>) {
    forall p, i :: p in started && p in t0.inputs && i in t0.inputs[p] && i in t0.child && i in first ==>
        t0.child[i] in built
  }

  predicate UsesDepfiles(env: Environment, planned: set<Vertex>) {
    exists r :: r in planned && !env.depfile(r).NoDepfile?
  }

  /** What keeps depfiles harmless during a build that began with the dirty set `first`. */
  ghost predicate Loading(t0: Topology, first: set<Vertex>, env: Environment, planned: set<Vertex>, t: Topology,
                          d: set<Vertex>, started: set<Vertex>, built: set<Vertex>) {
    && WellFormed(t0) && ImplicitRoots(t) && Droppable(t, d) && ProducersDone(t0, first, started, built)
    && (UsesDepfiles(env, planned) ==>
          Layers(t, env, planned) && forall r :: r in planned ==> MayList(t0, first, env, r))
  }

  /** Every rule that started has built the dirty nodes that it needs. */
  lemma BelowIsBuilt(t0: Topology, first: set<Vertex>, started: set<Vertex>, built: set<Vertex>, n: Vertex, r: Vertex)
    requires WellFormed(t0) && ProducersDone(t0, first, started, built) && built <= started <= t0.rules
    requires n in t0.child && n in first && r in started && Reaches(NeedEdges(t0, first), r, n)
    ensures t0.child[n] in built
  {
    hide WellFormed, Reaches;
    var g := NeedEdges(t0, first);
    forall q | q in started ensures q !in t0.child {
      RuleShape(t0, q);
    }
    var s := started + set v | v in t0.child && t0.child[v] in built;
    forall u, v | u in s && Step(g, u, v) ensures v in s {
      if u !in t0.child {
        assert u in started && v in t0.inputs[u] && v in t0.child && v in first;
      }
    }
    ClosedContains(g, s, r, n);
  }

  /** The depfile of a rule whose command has succeeded can be loaded. */
  lemma ReadyToLoad(t0: Topology, first: set<Vertex>, env: Environment, planned: set<Vertex>, t: Topology,
                    start: set<Vertex>, d: set<Vertex>, started: set<Vertex>, built: set<Vertex>, r: Vertex)
    requires WellFormed(t) && Kept(t0, t, built) && Progress(t, start, d, planned, started, built) && start <= first
    requires Loading(t0, first, env, planned, t, d, started, built)
    requires r in started - built && env.depfile(r).Contents? && HasInputs(t, r)
    ensures Matches(t, r, env.depfile(r).parsed) == Matches(t0, r, env.depfile(r).parsed)
    ensures Matches(t, r, env.depfile(r).parsed) ==>
              && Settled(t, d, r, env.depfile(r).parsed.ins) && SourcesCovered(t, d, r, env.depfile(r).parsed.ins)
    ensures !Matches(t, r, env.depfile(r).parsed) ==> ImplicitInputs(t, r) == []
  {
    hide WellFormed, Consistent, NeedsMet, Blockers, ClearedBy, NewInputs, ImplicitRoots, Above, Droppable,
         ProducersDone, Matches, Reaches, NeedEdges, Layers;
    var parsed := env.depfile(r).parsed;
    assert UsesDepfiles(env, planned) && MayList(t0, first, env, r);
    assert Matches(t, r, parsed) == Matches(t0, r, parsed) by { SameOutputs(t0, t, r, parsed); }
    if Matches(t, r, parsed) {
      MatchesMeans(t, r, parsed);
      forall n | n in NewInputs(ExplicitInputs(t, r), parsed.ins) && n in t.child ensures n !in d {
        if n in first {
          assert n == Node(n.path);
          BelowIsBuilt(t0, first, started, built, n, r);
          BuiltIsClean(t, start, d, planned, started, built, n);
        }
      }
      DropsCovered(t, d, r, parsed.ins);
    }
  }

  lemma SameOutputs(t0: Topology, t: Topology, r: Vertex, parsed: Parsed)
    requires t.outputs == t0.outputs
    ensures Matches(t, r, parsed) == Matches(t0, r, parsed)
  {
  }

  lemma MatchesMeans(t: Topology, r: Vertex, parsed: Parsed)
    requires Matches(t, r, parsed)
    ensures parsed.Deps?
  {
  }

  lemma BuiltIsClean(t: Topology, start: set<Vertex>, d: set<Vertex>, planned: set<Vertex>, started: set<Vertex>,
                     built: set<Vertex>, n: Vertex)
    requires WellFormed(t) && Progress(t, start, d, planned, started, built) && n in t.child && t.child[n] in built
    ensures n !in d
  {
    hide WellFormed, NeedsMet, Blockers;
    ChildIsNode(t, n);
    NodeShape(t, n);
    assert n in Cleared(t, t.child[n]);
  }

  lemma DropsCovered(t: Topology, d: set<Vertex>, r: Vertex, deps: seq<string>)
    requires WellFormed(t) && Droppable(t, d) && r in t.rules && r in d && HasInputs(t, r)
    ensures SourcesCovered(t, d, r, deps)
  {
    hide WellFormed, NewInputs;
    forall s | s in t.parents && IsSource(t, s) && s in d && s in ImplicitInputs(t, r)
      ensures OtherDirty(t, d, r, s) || t.parents[s] == [r]
    {
      SameKeys(t);
      NodeShape(t, s);
      InputHasParent(t, r, s);
      if t.parents[s] != [r] {
        var k := if t.parents[s][0] == r then 1 else 0;
        assert t.parents[s][k] in t.parents[s] && t.parents[s][k] != r;
      }
    }
  }

  /** Loading the depfile of a running rule leaves the account of the build as it is. */
  lemma LoadKeepsProgress(t: Topology, start: set<Vertex>, d: set<Vertex>, planned: set<Vertex>, started: set<Vertex>,
                          built: set<Vertex>, r: Vertex, deps: seq<string>)
    requires WellFormed(t) && Progress(t, start, d, planned, started, built) && r in started - built && HasInputs(t, r)
    requires Settled(t, d, r, deps)
    ensures var t' := Loaded(t, r, deps);
            var v := t'.nodes + t'.rules;
            && Progress(t', start * v, d * v, planned, started, built)
            && Startable(t', d * v, planned - started) == Startable(t, d, planned - started)
  {
    hide WellFormed, NewInputs, Loaded, ExplicitInputs, Settled, ClearedBy, Blockers;
    var t' := Loaded(t, r, deps);
    var v := t'.nodes + t'.rules;
    LoadedFrame(t, r, deps);
    LoadKeepsCleared(t, r, deps, built);
    forall q | q in planned ensures Blockers(t', d * v, q) == Blockers(t, d, q) {
      LoadKeepsBlockers(t, d, r, deps, q);
    }
    forall q, o | q in planned - built && q in t.outputs && o in t.outputs[q] ensures o in d * v {
      RuleShape(t, q);
    }
  }

  lemma LoadKeepsBlockers(t: Topology, d: set<Vertex>, r: Vertex, deps: seq<string>, q: Vertex)
    requires WellFormed(t) && r in t.rules && q in t.rules && HasInputs(t, r) && Settled(t, d, r, deps)
             && Blockers(t, d, r) == {}
    ensures var t' := Loaded(t, r, deps); Blockers(t', d * (t'.nodes + t'.rules), q) == Blockers(t, d, q)
  {
    hide WellFormed, NewInputs, Loaded;
    LoadedFrame(t, r, deps);
    Parts(t, r, deps);
  }

  lemma LoadKeepsCleared(t: Topology, r: Vertex, deps: seq<string>, built: set<Vertex>)
    requires WellFormed(t) && r in t.rules && HasInputs(t, r) && r !in built
    ensures ClearedBy(Loaded(t, r, deps), built) == ClearedBy(t, built)
  {
    hide WellFormed, NewInputs, Loaded, ExplicitInputs;
    LoadedFrame(t, r, deps);
    assert forall q :: q in built ==> Cleared(Loaded(t, r, deps), q) == Cleared(t, q);
  }

  /** The vertices of `s` that are left after `log`: what is built is cleared, and what a load deletes
      is gone. */
  ghost function Left(t: Topology, env: Environment, log: seq<Action>, s: set<Vertex>): set<Vertex> {
    if log == [] then s else
      var rest, a, u := Left(t, env, log[..|log| - 1], s), log[|log| - 1], Reloaded(t, env, log);
      if a.Built? then rest * (u.nodes + u.rules) - Cleared(u, a.rule) else rest
  }

  lemma LeftLast(t: Topology, env: Environment, log: seq<Action>, s: set<Vertex>, a: Action)
    ensures var u := Reloaded(t, env, log + [a]);
            Left(t, env, log + [a], s)
            == if a.Built? then Left(t, env, log, s) * (u.nodes + u.rules) - Cleared(u, a.rule)
               else Left(t, env, log, s)
  {
    hide Reloaded, Cleared;
    assert (log + [a])[..|log|] == log;
  }

  /** What has been read of each file after `log`. */
  ghost function ReadBy(t: Topology, env: Environment, log: seq<Action>, content: Hashes): Hashes {
    if log == [] then content else
      var u := Reloaded(t, env, log[..|log| - 1]);
      Reread(ReadBy(t, env, log[..|log| - 1], content), u, Reloaded(t, env, log), env.data)
  }

  lemma ReadLast(t: Topology, env: Environment, log: seq<Action>, content: Hashes, a: Action)
    ensures ReadBy(t, env, log + [a], content)
            == Reread(ReadBy(t, env, log, content), Reloaded(t, env, log), Reloaded(t, env, log + [a]), env.data)
    ensures Reloaded(t, env, log + [a]) == Reloaded(t, env, log) ==>
              ReadBy(t, env, log + [a], content) == ReadBy(t, env, log, content)
  {
    hide Reloaded;
    assert (log + [a])[..|log|] == log;
  }

  /** Building `r` means noting the time at which the cache restored it. */
  predicate NotedWhenBuilt(t: Topology, env: Environment, r: Vertex) { !IsPhony(t, r) && env.restored(r) }

  /** The timestamps after `log`: a rule gets one when its command is collected and when the cache
      restores it, and a file that a depfile newly mentions has none yet. */
  ghost function Stamped(t: Topology, env: Environment, log: seq<Action>, stamp: map<Vertex, int>): map<Vertex, int> {
    if log == [] then stamp else
      var s, a := Stamped(t, env, log[..|log| - 1], stamp), log[|log| - 1];
      StampedBy(t, env, Reloaded(t, env, log), s, a)
  }

  ghost function StampedBy(t: Topology, env: Environment, u: Topology, stamp: map<Vertex, int>, a: Action):
    map<Vertex, int>
  {
    match a
    case Collect(r, _) => stamp[r := env.clock(r)]
    case Built(r) => Extended(if NotedWhenBuilt(t, env, r) then stamp[r := env.clock(r)] else stamp, u)
    case _ => stamp
  }

  ghost function Extended(stamp: map<Vertex, int>, u: Topology): map<Vertex, int> {
    map v | v in u.nodes + u.rules :: if v in stamp then stamp[v] else 0
  }

  lemma StampedLast(t: Topology, env: Environment, log: seq<Action>, stamp: map<Vertex, int>, a: Action)
    ensures Stamped(t, env, log + [a], stamp)
            == StampedBy(t, env, Reloaded(t, env, log + [a]), Stamped(t, env, log, stamp), a)
  {
    hide Reloaded, StampedBy;
    assert (log + [a])[..|log|] == log;
  }

  lemma ExtendedSame(stamp: map<Vertex, int>, u: Topology)
    requires stamp.Keys == u.nodes + u.rules
    ensures Extended(stamp, u) == stamp
  {
  }

  /** The time of `r` is noted in `log`. */
  ghost predicate Noted(t: Topology, env: Environment, log: seq<Action>, r: Vertex) {
    || (exists status :: Collect(r, status) in log)
    || (Built(r) in log && r in t.command && t.command[r] != "" && env.restored(r))
  }

  /** A rule whose command was collected, or that the cache restored, has the time of that; every other
      rule and every output keeps its timestamp, and new files have none. */
  lemma {:induction false} StampsAre(t: Topology, env: Environment, log: seq<Action>, stamp: map<Vertex, int>,
                                     v: Vertex)
    requires stamp.Keys == t.nodes + t.rules && t.child.Keys <= t.nodes && t.command.Keys == t.rules
    requires (forall k :: 0 <= k < |log| ==> log[k].rule in t.rules) && t.rules !! t.nodes
    requires forall r :: r in t.rules ==> r.Rule?
    ensures var u, s := Reloaded(t, env, log), Stamped(t, env, log, stamp);
            && s.Keys == u.nodes + u.rules
            && (v in t.rules ==> v in s && s[v] == if Noted(t, env, log, v) then env.clock(v) else stamp[v])
            && (v in t.child && v !in t.rules ==> v in s && s[v] == stamp[v])
            && (v in u.nodes && v !in t.nodes ==> v in s && s[v] == 0)
  {
    hide Reloaded, Stamped, Noted, StampedBy;
    NothingNoted(t, env, stamp, v);
    if log != [] {
      var before, a := log[..|log| - 1], log[|log| - 1];
      assert log == before + [a] && a in log;
      GeneratedStay(t, env, log);
      GeneratedStay(t, env, before);
      StampsAre(t, env, before, stamp, v);
      StampedLast(t, env, before, stamp, a);
      NotedLast(t, env, before, a, v);
      ReloadedLast(t, env, before, a);
      OneStamp(t, env, Reloaded(t, env, before), Reloaded(t, env, log), Stamped(t, env, before, stamp), a, v);
    }
  }

  /** What one action does to the time of `v`. */
  lemma OneStamp(t: Topology, env: Environment, u: Topology, u': Topology, s: map<Vertex, int>, a: Action, v: Vertex)
    requires s.Keys == u.nodes + u.rules && u.rules == u'.rules && a.rule in u.rules && (!a.Built? ==> u' == u)
    ensures var s' := StampedBy(t, env, u', s, a);
            && s'.Keys == u'.nodes + u'.rules
            && (v in s' ==> s'[v] == if a.rule == v && (a.Collect? || (a.Built? && NotedWhenBuilt(t, env, v)))
                                     then env.clock(v)
                                     else if v in s then s[v] else 0)
  {
    hide NotedWhenBuilt;
  }

  /** A file that no depfile deletes on the way keeps its time. */
  lemma {:induction false} SurvivorKeepsStamp(t: Topology, env: Environment, log: seq<Action>, stamp: map<Vertex, int>,
                                              v: Vertex)
    requires stamp.Keys == t.nodes + t.rules && t.child.Keys <= t.nodes && t.command.Keys == t.rules
    requires (forall k :: 0 <= k < |log| ==> log[k].rule in t.rules) && t.rules !! t.nodes
    requires forall r :: r in t.rules ==> r.Rule?
    requires v in t.nodes && forall k :: 0 <= k <= |log| ==> v in Reloaded(t, env, log[..k]).nodes
    ensures v in Stamped(t, env, log, stamp) && Stamped(t, env, log, stamp)[v] == stamp[v]
  {
    hide Reloaded, Stamped, Noted, StampedBy;
    NothingNoted(t, env, stamp, v);
    if log != [] {
      var before, a := log[..|log| - 1], log[|log| - 1];
      assert log == before + [a] && a in log && log[..|log|] == log;
      forall k | 0 <= k <= |before| ensures before[..k] == log[..k] {
      }
      SurvivorKeepsStamp(t, env, before, stamp, v);
      GeneratedStay(t, env, log);
      GeneratedStay(t, env, before);
      StampsAre(t, env, before, stamp, v);
      StampedLast(t, env, before, stamp, a);
      ReloadedLast(t, env, before, a);
      OneStamp(t, env, Reloaded(t, env, before), Reloaded(t, env, log), Stamped(t, env, before, stamp), a, v);
    }
  }

  lemma NothingNoted(t: Topology, env: Environment, stamp: map<Vertex, int>, r: Vertex)
    ensures Reloaded(t, env, []) == t && Stamped(t, env, [], stamp) == stamp && !Noted(t, env, [], r)
  {
  }

  /** Depfiles never delete a generated node or a rule, and only building loads one. */
  lemma {:induction false} GeneratedStay(t: Topology, env: Environment, log: seq<Action>)
    requires t.child.Keys <= t.nodes
    ensures var u := Reloaded(t, env, log);
            && u.rules == t.rules && u.child == t.child && t.child.Keys <= u.nodes
            && forall n :: n in u.nodes && n !in t.nodes ==> n.Node?
  {
    hide LoadsFrom, NewInputs, Without;
    if log != [] {
      GeneratedStay(t, env, log[..|log| - 1]);
    }
  }

  /** The times of rules, outputs and new files after a build, told by its log. */
  ghost predicate StampsTold(t: Topology, env: Environment, log: seq<Action>, before: map<Vertex, int>, u: Topology,
                             after: map<Vertex, int>) {
    && (forall r :: r in t.rules ==>
          r in before && r in after && after[r] == if Noted(t, env, log, r) then env.clock(r) else before[r])
    && (forall n :: n in t.child ==> n in before && n in after && after[n] == before[n])
    && (forall n :: n in u.nodes - t.nodes ==> n in after && after[n] == 0)
  }

  lemma NotedLast(t: Topology, env: Environment, log: seq<Action>, a: Action, r: Vertex)
    ensures Noted(t, env, log + [a], r) <==>
              Noted(t, env, log, r) || (a.rule == r && (a.Collect? || (a.Built? && r in t.command && t.command[r] != ""
                                                                      && env.restored(r))))
  {
    if a.Collect? && a.rule == r {
      assert Collect(r, a.status) in log + [a];
    }
    if status :| Collect(r, status) in log {
      assert Collect(r, status) in log + [a];
    }
  }

  /** The graph before a build, and what had been read of its files. */
  datatype Origin = Origin(t: Topology, dirty: set<Vertex>, lazy: set<Vertex>, content: Hashes,
                           stamp: map<Vertex, int>)

  /** The graph during a build; `start` is what is left of the dirty vertices at the beginning, without
      deleted sources. */
  datatype Present = Present(t: Topology, start: set<Vertex>, dirty: set<Vertex>, lazy: set<Vertex>, content: Hashes,
                             stamp: map<Vertex, int>)

  /** The account of a build that loads depfiles, beside its schedule. */
  ghost predicate Traced(o: Origin, env: Environment, planned: set<Vertex>, p: Present, log: seq<Action>) {
    && p.t == Reloaded(o.t, env, log) && Kept(o.t, p.t, BuiltRules(log)) && Faithful(o.t, env, log)
    && p.dirty == Left(o.t, env, log, o.dirty) && p.lazy == Left(o.t, env, log, o.lazy)
    && p.content == ReadBy(o.t, env, log, o.content) && p.stamp == Stamped(o.t, env, log, o.stamp)
    && p.start <= o.dirty && (forall v :: v in o.dirty - p.start ==> v !in o.t.child && v !in o.t.rules)
    && (!UsesDepfiles(env, planned) ==> p.start == o.dirty && p.t == o.t)
    && Loading(o.t, o.dirty, env, planned, p.t, p.dirty, StartedRules(log), BuiltRules(log))
  }

  /** An action that builds nothing and starts nothing. */
  lemma TracedOther(o: Origin, env: Environment, planned: set<Vertex>, p: Present, log: seq<Action>, a: Action)
    requires Traced(o, env, planned, p, log) && !a.Start? && !a.Built? && Faithful(o.t, env, [a])
    ensures Traced(o, env, planned, p.(stamp := if a.Collect? then p.stamp[a.rule := env.clock(a.rule)] else p.stamp),
                   log + [a])
  {
    hide Reloaded, Kept, Loading, UsesDepfiles, StartedRules, BuiltRules, Left, ReadBy, Faithful, Stamped;
    StampedLast(o.t, env, log, o.stamp, a);
    ReloadedLast(o.t, env, log, a);
    LeftLast(o.t, env, log, o.dirty, a);
    LeftLast(o.t, env, log, o.lazy, a);
    ReadLast(o.t, env, log, o.content, a);
    LogLast(log, a);
    FaithfulLast(o.t, env, log, a);
    assert StartedRules(log) + {} == StartedRules(log) && BuiltRules(log) + {} == BuiltRules(log);
  }

  lemma TracedStart(o: Origin, env: Environment, planned: set<Vertex>, p: Present, log: seq<Action>, r: Vertex)
    requires Traced(o, env, planned, p, log) && WellFormed(p.t) && r in p.t.rules && r !in BuiltRules(log)
    requires Progress(p.t, p.start, p.dirty, planned, StartedRules(log), BuiltRules(log))
    requires Blockers(p.t, p.dirty, r) == {}
    ensures Traced(o, env, planned, p, log + [Start(r)])
  {
    hide Reloaded, UsesDepfiles, StartedRules, BuiltRules, WellFormed, Consistent, ImplicitRoots, Droppable, MayList,
         NeedsMet, Progress, Blockers, ProducersDone, Left, ReadBy, Layers, Faithful, Stamped;
    StampedLast(o.t, env, log, o.stamp, Start(r));
    ReloadedLast(o.t, env, log, Start(r));
    LeftLast(o.t, env, log, o.dirty, Start(r));
    LeftLast(o.t, env, log, o.lazy, Start(r));
    ReadLast(o.t, env, log, o.content, Start(r));
    LogLast(log, Start(r));
    FaithfulStart(o.t, env, r);
    FaithfulLast(o.t, env, log, Start(r));
    assert BuiltRules(log) + {} == BuiltRules(log);
    StartKeepsDone(o.t, o.dirty, planned, p.t, p.start, p.dirty, StartedRules(log), BuiltRules(log), r);
  }

  lemma FaithfulStart(t: Topology, env: Environment, r: Vertex)
    ensures Faithful(t, env, [Start(r)])
  {
  }

  lemma StartKeepsDone(t0: Topology, first: set<Vertex>, planned: set<Vertex>, t: Topology, start: set<Vertex>,
                       d: set<Vertex>, started: set<Vertex>, built: set<Vertex>, r: Vertex)
    requires WellFormed(t) && Kept(t0, t, built) && r in t.rules && r !in built
    requires Progress(t, start, d, planned, started, built) && Blockers(t, d, r) == {}
    requires forall v :: v in first - start ==> v !in t0.child && v !in t0.rules
    requires ProducersDone(t0, first, started, built)
    ensures ProducersDone(t0, first, started + {r}, built)
  {
    hide WellFormed, NeedsMet;
    forall i | r in t0.inputs && i in t0.inputs[r] && i in t0.child && i in first ensures t0.child[i] in built {
      assert i !in Blockers(t, d, r);
      assert i in ClearedBy(t, built);
      var q :| q in built && i in Cleared(t, q);
      ChildIsNode(t, i);
      NodeShape(t, i);
      RuleShape(t, q);
    }
  }

  /** Building a rule without loading anything. */
  lemma TracedBuilt(o: Origin, env: Environment, planned: set<Vertex>, p: Present, log: seq<Action>, r: Vertex)
    requires Traced(o, env, planned, p, log) && WellFormed(p.t) && r in p.t.rules
    requires p.dirty <= p.t.nodes + p.t.rules && p.lazy <= p.t.nodes + p.t.rules
    requires p.stamp.Keys == p.t.nodes + p.t.rules
    requires Skipped(o.t, env, r) || (env.exit(r) == ExitSucceeded && env.depfile(r).NoDepfile?)
    ensures var stamp := if NotedWhenBuilt(p.t, env, r) then p.stamp[r := env.clock(r)] else p.stamp;
            Traced(o, env, planned, AfterBuilt(p.(stamp := stamp), r), log + [Built(r)])
  {
    hide Reloaded, UsesDepfiles, StartedRules, BuiltRules, WellFormed, Consistent, ImplicitRoots, Droppable, MayList,
         Cleared, ProducersDone, Loaded, Left, ReadBy, Layers, Faithful, Stamped, Extended;
    StampedLast(o.t, env, log, o.stamp, Built(r));
    ExtendedSame(if NotedWhenBuilt(p.t, env, r) then p.stamp[r := env.clock(r)] else p.stamp, p.t);
    SkippedSame(o.t, p.t, env, r);
    ReloadedLast(o.t, env, log, Built(r));
    LeftLast(o.t, env, log, o.dirty, Built(r));
    LeftLast(o.t, env, log, o.lazy, Built(r));
    ReadLast(o.t, env, log, o.content, Built(r));
    LogLast(log, Built(r));
    FaithfulPlain(o.t, env, r);
    FaithfulLast(o.t, env, log, Built(r));
    assert StartedRules(log) + {} == StartedRules(log);
    DroppableBuilt(p.t, p.dirty, r);
    MoreBuilt(o.t, o.dirty, StartedRules(log), BuiltRules(log), r);
    InsideStays(p.dirty, p.lazy, p.t);
  }

  lemma NotSkippedNotNoted(t: Topology, env: Environment, r: Vertex)
    ensures !Skipped(t, env, r) ==> !NotedWhenBuilt(t, env, r)
  {
  }

  lemma InsideStays(d: set<Vertex>, lazy: set<Vertex>, t: Topology)
    requires d <= t.nodes + t.rules && lazy <= t.nodes + t.rules
    ensures d * (t.nodes + t.rules) == d && lazy * (t.nodes + t.rules) == lazy
  {
  }

  lemma FaithfulPlain(t: Topology, env: Environment, r: Vertex)
    requires Skipped(t, env, r) || (env.exit(r) == ExitSucceeded && env.depfile(r).NoDepfile?)
    ensures Faithful(t, env, [Built(r)])
  {
  }

  lemma MoreBuilt(t0: Topology, first: set<Vertex>, started: set<Vertex>, built: set<Vertex>, r: Vertex)
    requires ProducersDone(t0, first, started, built)
    ensures ProducersDone(t0, first, started, built + {r})
  {
  }

  lemma DroppableBuilt(t: Topology, d: set<Vertex>, r: Vertex)
    requires WellFormed(t) && Droppable(t, d) && r in t.rules
    ensures Droppable(t, d - Cleared(t, r))
  {
    hide WellFormed;
    RuleShape(t, r);
    var d' := d - Cleared(t, r);
    forall s, q, p | s in d' && s in t.parents && IsSource(t, s) && q in t.rules && s in ImplicitInputs(t, q)
        && p in t.parents[s]
      ensures p in d'
    {
      SameKeys(t);
      NodeShape(t, s);
    }
  }

  /** The graph once the depfile `deps` of `r` is loaded, and once `r` is built after that. */
  ghost function AfterLoad(p: Present, r: Vertex, deps: seq<string>, data: Vertex -> string): Present
    requires HasInputs(p.t, r)
  {
    var t' := Loaded(p.t, r, deps);
    var v := t'.nodes + t'.rules;
    Present(t', p.start * v, p.dirty * v, p.lazy * v, Reread(p.content, p.t, t', data), Extended(p.stamp, t'))
  }

  ghost function AfterBuilt(p: Present, r: Vertex): Present {
    p.(dirty := p.dirty - Cleared(p.t, r), lazy := p.lazy - Cleared(p.t, r))
  }

  /** Building a rule after its depfile has been loaded. */
  lemma TracedLoaded(o: Origin, env: Environment, planned: set<Vertex>, p: Present, log: seq<Action>, r: Vertex)
    requires Traced(o, env, planned, p, log) && WellFormed(p.t) && r in planned && r in p.t.rules && HasInputs(p.t, r)
    requires !Skipped(o.t, env, r) && env.exit(r) == ExitSucceeded
    requires env.depfile(r).Contents? && Matches(p.t, r, env.depfile(r).parsed) && r !in BuiltRules(log)
    requires var t' := Loaded(p.t, r, env.depfile(r).parsed.ins); WellFormed(t') && ImplicitRoots(t')
    requires p.start <= p.t.nodes + p.t.rules
    ensures Traced(o, env, planned, AfterBuilt(AfterLoad(p, r, env.depfile(r).parsed.ins, env.data), r),
                   log + [Built(r)])
  {
    hide Reloaded, StartedRules, BuiltRules, WellFormed, Consistent, ImplicitRoots, Droppable, MayList, Cleared,
         ProducersDone, Loaded, Matches, Faithful, Skipped, NewInputs, ExplicitInputs, Left, ReadBy, Layers, Reread,
         Stamped, Extended, NotedWhenBuilt;
    StampedLast(o.t, env, log, o.stamp, Built(r));
    NotSkippedNotNoted(o.t, env, r);
    var parsed, built := env.depfile(r).parsed, BuiltRules(log);
    MatchesMeans(p.t, r, parsed);
    SameOutputs(o.t, p.t, r, parsed);
    SkippedSame(o.t, p.t, env, r);
    FaithfulBuilt(o.t, env, r);
    FaithfulLast(o.t, env, log, Built(r));
    assert UsesDepfiles(env, planned);
    ReloadedLast(o.t, env, log, Built(r));
    LeftLast(o.t, env, log, o.dirty, Built(r));
    LeftLast(o.t, env, log, o.lazy, Built(r));
    ReadLast(o.t, env, log, o.content, Built(r));
    LogLast(log, Built(r));
    LoadedFrame(p.t, r, parsed.ins);
    KeptLoaded(o.t, p.t, built, r, parsed.ins);
    assert StartedRules(log) + {} == StartedRules(log);
    DroppableLoaded(p.t, p.dirty, r, parsed.ins);
    LayersLoaded(p.t, env, planned, r);
    MoreBuilt(o.t, o.dirty, StartedRules(log), built, r);
  }

  /** A load adds only edges that the ranks allow. */
  lemma LayersLoaded(t: Topology, env: Environment, planned: set<Vertex>, r: Vertex)
    requires WellFormed(t) && Layers(t, env, planned) && r in planned && r in t.rules && HasInputs(t, r)
    requires env.depfile(r).Contents? && Matches(t, r, env.depfile(r).parsed)
    requires WellFormed(Loaded(t, r, env.depfile(r).parsed.ins))
    ensures var t' := Loaded(t, r, env.depfile(r).parsed.ins); Layers(t', env, planned) && Acyclic(t')
  {
    hide WellFormed, Loaded, Ranked;
    LoadedFrame(t, r, env.depfile(r).parsed.ins);
    var rank :| Layered(t, env, planned, rank);
    RankedLoaded(t, r, env.depfile(r).parsed.ins, rank);
    assert Layered(Loaded(t, r, env.depfile(r).parsed.ins), env, planned, rank);
    AcyclicWitness(Loaded(t, r, env.depfile(r).parsed.ins), rank);
  }

  lemma RankedLoaded(t: Topology, r: Vertex, deps: seq<string>, rank: map<Vertex, nat>)
    requires WellFormed(t) && Ranked(t, rank) && r in t.rules && HasInputs(t, r) && WellFormed(Loaded(t, r, deps))
    requires forall dep :: dep in deps ==> r in rank && Node(dep) in rank && rank[Node(dep)] < rank[r]
    ensures Ranked(Loaded(t, r, deps), rank)
  {
    hide WellFormed, Loaded, UpEdges, NewInputs, ExplicitInputs;
    var t' := Loaded(t, r, deps);
    LoadedNodes(t, r, deps);
    forall u, v | Step(UpEdges(t'), u, v) ensures u in rank && v in rank && rank[u] < rank[v] {
      NewEdge(t, r, deps, u, v);
    }
  }

  lemma LoadedNodes(t: Topology, r: Vertex, deps: seq<string>)
    requires WellFormed(t) && r in t.rules && HasInputs(t, r)
    ensures var t' := Loaded(t, r, deps);
            t'.rules == t.rules && t'.nodes <= t.nodes + Range(NewInputs(ExplicitInputs(t, r), deps))
  {
    hide WellFormed, NewInputs, ExplicitInputs, Without;
  }

  lemma KeptLoaded(t0: Topology, t: Topology, built: set<Vertex>, r: Vertex, deps: seq<string>)
    requires WellFormed(t) && Kept(t0, t, built) && r in t.rules && HasInputs(t, r)
    ensures Kept(t0, Loaded(t, r, deps), built + {r})
  {
    hide WellFormed, Loaded, NewInputs, ExplicitInputs;
    LoadedFrame(t, r, deps);
  }

  lemma FaithfulLast(t: Topology, env: Environment, log: seq<Action>, a: Action)
    requires Faithful(t, env, log) && Faithful(t, env, [a])
    ensures Faithful(t, env, log + [a])
  {
    assert a in [a];
  }

  /** What the environment makes of the end of a command. */
  lemma FaithfulCommand(t: Topology, env: Environment, r: Vertex)
    requires !Skipped(t, env, r)
    ensures Faithful(t, env, [Spawn(r)]) && Faithful(t, env, [Collect(r, env.exit(r))])
    ensures env.exit(r) == ExitSucceeded && !Accepted(t, env, r) ==> Faithful(t, env, [Refuse(r)])
  {
    hide Skipped, Accepted;
  }

  lemma FaithfulBuilt(t: Topology, env: Environment, r: Vertex)
    requires env.exit(r) == ExitSucceeded && env.depfile(r).Contents? && Matches(t, r, env.depfile(r).parsed)
    ensures Faithful(t, env, [Built(r)])
  {
  }

  lemma SkippedSame(t0: Topology, t: Topology, env: Environment, r: Vertex)
    requires t.command == t0.command
    ensures Skipped(t0, env, r) == Skipped(t, env, r)
  {
  }

  lemma DroppableLoaded(t: Topology, d: set<Vertex>, r: Vertex, deps: seq<string>)
    requires WellFormed(t) && Droppable(t, d) && r in t.rules && HasInputs(t, r) && WellFormed(Loaded(t, r, deps))
    ensures var t' := Loaded(t, r, deps); Droppable(t', d * (t'.nodes + t'.rules) - Cleared(t', r))
  {
    hide WellFormed, NewInputs, Loaded, Droppable, Cleared;
    var t' := Loaded(t, r, deps);
    var d' := d * (t'.nodes + t'.rules) - Cleared(t', r);
    forall s, q, p | s in d' && s in t'.parents && IsSource(t', s) && q in t'.rules && s in ImplicitInputs(t', q)
        && p in t'.parents[s]
      ensures p in d'
    {
      StillDroppable(t, d, r, deps, s, q, p);
    }
    DroppableMeans(t', d');
  }

  lemma DroppableMeans(t: Topology, d: set<Vertex>)
    requires forall s, q, p ::
      s in d && s in t.parents && IsSource(t, s) && q in t.rules && s in ImplicitInputs(t, q) && p in t.parents[s]
      ==> p in d
    ensures Droppable(t, d)
  {
  }

  lemma StillDroppable(t: Topology, d: set<Vertex>, r: Vertex, deps: seq<string>, s: Vertex, q: Vertex, p: Vertex)
    requires WellFormed(t) && Droppable(t, d) && r in t.rules && HasInputs(t, r) && WellFormed(Loaded(t, r, deps))
    requires var t' := Loaded(t, r, deps);
             && s in d * (t'.nodes + t'.rules) - Cleared(t', r) && s in t'.parents && IsSource(t', s)
             && q in t'.rules && s in ImplicitInputs(t', q) && p in t'.parents[s]
    ensures var t' := Loaded(t, r, deps); p in d * (t'.nodes + t'.rules) - Cleared(t', r)
  {
    hide WellFormed, NewInputs, Loaded, Without;
    var t' := Loaded(t, r, deps);
    LoadedFrame(t, r, deps);
    RuleShape(t', r);
    RuleShape(t', q);
    SameKeys(t');
    NodeShape(t', s);
    assert s !in t'.inputs[r] && q != r && p != r;
    RuleShape(t, q);
    assert ImplicitInputs(t', q) == ImplicitInputs(t, q);
    InputHasParent(t, q, s);
    ParentsAfter(t, r, deps, s, p);
  }

  class GraphParallelBuilder {
    const graph: Graph
    const plan: BuildPlan
    const hashes: GraphHash
    const numThreads: nat
    const env: Environment
    var result: BuildResult
    var running: set<Vertex>
    var log: seq<Action>
    ghost const origin: Origin
    ghost var start: set<Vertex>

    constructor (g: Graph, p: BuildPlan, h: GraphHash, n: nat, e: Environment)
      ensures graph == g && plan == p && hashes == h && numThreads == n && env == e
      ensures origin == Origin(g.topo, g.dirty, g.lazy, h.content, g.stamp) && start == g.dirty
      ensures result == SUCCEEDED && running == {} && log == []
    {
      graph, plan, hashes, numThreads, env := g, p, h, n, e;
      origin, start := Origin(g.topo, g.dirty, g.lazy, h.content, g.stamp), g.dirty;
      result, running, log := SUCCEEDED, {}, [];
    }

    ghost function Now(): Present
      reads this`start, graph, hashes
    {
      Present(graph.topo, start, graph.dirty, graph.lazy, hashes.content, graph.stamp)
    }

    /** The schedule and the state of the graph agree. */
    ghost predicate Scheduled()
      reads this`log, this`running, this`start, graph, plan
    {
      && Accounted(StartedRules(log), BuiltRules(log))
      && Timetable(origin.t, env, plan.rules, numThreads, running, log)
    }

    /** The graph and the plan when the rules `started` were handed out and `built` are finished. */
    ghost predicate Accounted(started: set<Vertex>, built: set<Vertex>)
      reads this`start, graph, plan
    {
      && plan.graph == graph && numThreads >= 1
      && Invariant(graph) && graph.lazy == origin.lazy - ClearedBy(graph.topo, built)
      && Progress(graph.topo, start, graph.dirty, plan.rules, started, built)
      && plan.ready == Startable(graph.topo, graph.dirty, plan.rules - started)
      && plan.numStarted == |started|
    }

    /** What holds of a build after `log`. */
    ghost predicate ValidAt(running: set<Vertex>, log: seq<Action>, stamp: map<Vertex, int>)
      reads this`start, graph, plan, hashes
    {
      && Accounted(StartedRules(log), BuiltRules(log))
      && Timetable(origin.t, env, plan.rules, numThreads, running, log)
      && start <= graph.topo.nodes + graph.topo.rules
      && Traced(origin, env, plan.rules, Now().(stamp := stamp), log)
    }

    ghost predicate Valid()
      reads this`log, this`running, this`start, graph, plan, hashes
    {
      Scheduled() && start <= graph.topo.nodes + graph.topo.rules && Traced(origin, env, plan.rules, Now(), log)
    }

    /** No command has failed: whatever started is built or still running. */
    ghost predicate AllWell()
      reads this
    {
      running == StartedRules(log) - BuiltRules(log)
    }

    /** Marks every output of `r` up to date.  The counters stay exact if and only if every output
        that some rule consumes was dirty. */
    method MarkOutputsUpToDate(r: Vertex)
      requires WellFormed(graph.topo) && graph.Counted() && graph.Exact() && r in graph.topo.rules
               && r in graph.topo.outputs
      modifies graph`dirty, graph`lazy, graph`numReady, graph`blocked
      ensures graph.dirty == old(graph.dirty) - Range(graph.topo.outputs[r])
      ensures graph.lazy == old(graph.lazy) - Range(graph.topo.outputs[r])
      ensures graph.Exact()
      ensures graph.Counted() <==>
                forall o :: o in graph.topo.outputs[r] && o in graph.topo.parents && graph.topo.parents[o] != [] ==>
                    o in old(graph.dirty)
    {
      hide WellFormed, Graph.Counted, Graph.Exact, NoDuplicates, Told, ReadyInputs;
      RuleShape(graph.topo, r);
      CountsMeans(graph);
      var outputs := graph.topo.outputs[r];
      ToldIff(graph.topo, graph.dirty, graph.numReady, outputs);
      NothingTold(graph.topo, graph.numReady);
      for k := 0 to |outputs|
        invariant graph.Exact() && graph.numReady.Keys == graph.topo.inputs.Keys
        invariant graph.numReady == Told(graph.topo, old(graph.numReady), outputs[..k])
        invariant graph.dirty == old(graph.dirty) - Range(outputs[..k])
        invariant graph.lazy == old(graph.lazy) - Range(outputs[..k])
      {
        assert outputs[..k + 1] == outputs[..k] + [outputs[k]];
        ToldMore(graph.topo, old(graph.numReady), outputs, k);
        MarkNodeUpToDate(graph, outputs[k]);
      }
      assert outputs[..|outputs|] == outputs;
      CountsMeans(graph);
    }

    method CleanSource(s: Vertex)
      requires graph.Counted() && graph.Exact() && s !in graph.topo.child
      modifies graph`dirty, graph`lazy
      ensures graph.Counted() && graph.Exact()
      ensures graph.dirty == old(graph.dirty) - {s} && graph.lazy == old(graph.lazy) - {s}
    {
      hide Graph.Counted;
      graph.SetNodeState(s, false);
      SameWaits(graph.topo, old(graph.dirty), s);
    }

    method CleanRule(r: Vertex)
      requires graph.Counted() && graph.Exact() && r !in graph.topo.child
      modifies graph`dirty
      ensures graph.Counted() && graph.Exact() && graph.dirty == old(graph.dirty) - {r}
    {
      hide Graph.Counted;
      graph.SetRuleState(r, false);
      SameWaits(graph.topo, old(graph.dirty), r);
    }

    /** The states of the outputs, the source inputs and the rule itself. */
    method MarkBuilt(r: Vertex)
      requires Invariant(graph) && r in graph.topo.rules && r in graph.topo.outputs
      requires forall o :: o in graph.topo.outputs[r] ==> o in graph.dirty
      modifies graph`dirty, graph`lazy, graph`numReady, graph`blocked
      ensures graph.Counted() && graph.Exact()
      ensures graph.dirty == old(graph.dirty) - Cleared(graph.topo, r)
      ensures graph.lazy == old(graph.lazy) - Cleared(graph.topo, r)
    {
      hide WellFormed, Acyclic, Graph.Counted, Graph.Exact, RuleOfDirtyNode, OutputsOfDirtyRule,
           DirtyGeneratedInput, DirtySource, UniformOutputs;
      MarkOutputsUpToDate(r);
      RuleShape(graph.topo, r);
      var inputs := graph.topo.inputs[r];
      ghost var d1, l1 := graph.dirty, graph.lazy;
      for k := 0 to |inputs|
        invariant graph.Counted() && graph.Exact()
        invariant graph.dirty == d1 - Sources(graph.topo, inputs[..k])
        invariant graph.lazy == l1 - Sources(graph.topo, inputs[..k])
      {
        assert inputs[..k + 1] == inputs[..k] + [inputs[k]];
        if inputs[k] !in graph.topo.child {
          CleanSource(inputs[k]);
        }
      }
      assert inputs[..|inputs|] == inputs;
      CleanRule(r);
    }

    method OnRuleFinished(r: Vertex)
      requires Scheduled() && Follows(origin.t, env, StageOf(log, r), Built(r))
      modifies this`log, graph`dirty, graph`lazy, graph`numReady, graph`blocked, plan`ready
      ensures Scheduled() && log == old(log) + [Built(r)]
      ensures graph.dirty == old(graph.dirty) - Cleared(graph.topo, r)
              && graph.lazy == old(graph.lazy) - Cleared(graph.topo, r)
      ensures StartedRules(log) == old(StartedRules(log)) && BuiltRules(log) == old(BuiltRules(log)) + {r}
    {
      hide WellFormed, Acyclic, Graph.Counted, Graph.Exact, RuleOfDirtyNode, OutputsOfDirtyRule,
           DirtyGeneratedInput, DirtySource, UniformOutputs, Consumers, Startable, Timetable, StageOf,
           StartedRules, BuiltRules, Cleared, Progress, Consistent;
      ghost var S, B := StartedRules(log), BuiltRules(log);
      ScheduleBuilt(this, r);
      RunningRule(graph.topo, start, graph.dirty, plan.rules, S, B, r);
      BuildOne(graph.topo, start, graph.dirty, graph.lazy, plan.rules, S, B, r);
      NotStartable(graph.topo, graph.dirty, plan.rules, S, r);
      ClearedMore(graph.topo, B, r);
      MarkBuilt(r);
      plan.NotifyRuleBuilt(r);
      log := log + [Built(r)];
    }

    /** BuildPlan::findWork as the build loop uses it. */
    method TakeWork() returns (r: Vertex)
      requires Valid() && plan.ready != {}
      modifies this`log, plan`ready, plan`numStarted
      ensures Valid() && log == old(log) + [Start(r)] && StageOf(log, r).Begun?
      ensures r !in old(StartedRules(log)) && r in plan.rules && Verdict(log) == old(Verdict(log))
      ensures StartedRules(log) == old(StartedRules(log)) + {r} && BuiltRules(log) == old(BuiltRules(log))
    {
      hide WellFormed, Acyclic, Graph.Counted, Graph.Exact, Consistent, Startable, Timetable, StageOf,
           StartedRules, BuiltRules, Progress, Blockers, Traced, Skipped, Verdict, ProducersBuilt, ClearedBy;
      ghost var S, B, ready := StartedRules(log), BuiltRules(log), plan.ready;
      var work := plan.FindWork();
      r := work.rule;
      StartOne(graph.topo, start, graph.dirty, plan.rules, S, B, log, r);
      StartFacts(this, r);
      ScheduleStart(this, r);
      TracedStart(origin, env, plan.rules, Now(), log, r);
      VerdictLast(log, Start(r));
      LogLast(log, Start(r));
      assert BuiltRules(log) + {} == BuiltRules(log);
      log := log + [Start(r)];
    }

    /** Starts a rule that has been handed out: a phony or restored rule is finished at once. */
    method BuildRule(r: Vertex)
      requires Valid() && StageOf(log, r).Begun? && |running| < numThreads
      modifies this`log, this`running, graph`dirty, graph`lazy, graph`numReady, graph`blocked, graph`stamp, plan`ready
      ensures Valid() && StartedRules(log) == old(StartedRules(log)) && Verdict(log) == old(Verdict(log))
      ensures log == old(log) + [if Skipped(origin.t, env, r) then Built(r) else Spawn(r)]
      ensures running == old(running) + if Skipped(origin.t, env, r) then {} else {r}
      ensures BuiltRules(log) == old(BuiltRules(log)) + if Skipped(origin.t, env, r) then {r} else {}
      ensures graph.stamp == if !IsPhony(graph.topo, r) && env.restored(r) then old(graph.stamp)[r := env.clock(r)]
              else old(graph.stamp)
    {
      hide *;
      SameCommand(this);
      FinishesSkipped(this, r);
      if IsPhony(graph.topo, r) {
        Finish(r);
        return;
      }
      if env.restored(r) {
        Finish(r);
        return;
      }
      AddProcess(r);
    }

    /** A rule that loads no depfile is built; if the cache restored it, the time is noted first. */
    method Finish(r: Vertex)
      requires Valid() && Follows(origin.t, env, StageOf(log, r), Built(r))
      requires Skipped(origin.t, env, r) || (env.exit(r) == ExitSucceeded && env.depfile(r).NoDepfile?)
      modifies this`log, graph`dirty, graph`lazy, graph`numReady, graph`blocked, graph`stamp, plan`ready
      ensures Valid() && log == old(log) + [Built(r)] && Verdict(log) == old(Verdict(log))
      ensures StartedRules(log) == old(StartedRules(log)) && BuiltRules(log) == old(BuiltRules(log)) + {r}
      ensures graph.stamp == if !IsPhony(graph.topo, r) && env.restored(r) then old(graph.stamp)[r := env.clock(r)]
              else old(graph.stamp)
    {
      hide WellFormed, Acyclic, Graph.Counted, Graph.Exact, Consistent, Startable, StageOf, Follows,
           StartedRules, BuiltRules, Progress, Blockers, Traced, Skipped, Verdict, Cleared, Scheduled,
           ClearedBy, Invariant;
      ghost var p := Now();
      ScheduledParts(this);
      ScheduleBuilt(this, r);
      PlannedRule(this, r);
      TracedBuilt(origin, env, plan.rules, Now(), log, r);
      VerdictLast(log, Built(r));
      if !IsPhony(graph.topo, r) && env.restored(r) {
        NoteTime(r);
      }
      OnRuleFinished(r);
    }

    /** The rule is noted to have run now. */
    method NoteTime(r: Vertex)
      requires Scheduled() && r in graph.topo.rules
      modifies graph`stamp
      ensures Scheduled() && graph.stamp == old(graph.stamp)[r := env.clock(r)]
    {
      hide WellFormed, Acyclic, Graph.Counted, Graph.Exact, Consistent, Startable, Timetable,
           StartedRules, BuiltRules, Progress, Blockers, ClearedBy;
      graph.stamp := graph.stamp[r := env.clock(r)];
    }

    method AddProcess(r: Vertex)
      requires Valid() && StageOf(log, r).Begun? && |running| < numThreads && !Skipped(origin.t, env, r)
      modifies this`log, this`running
      ensures Valid() && log == old(log) + [Spawn(r)] && running == old(running) + {r}
              && Verdict(log) == old(Verdict(log))
      ensures StartedRules(log) == old(StartedRules(log)) && BuiltRules(log) == old(BuiltRules(log))
    {
      hide *;
      Spawned(this, r);
      ValidIs(this);
      running := running + {r};
      log := log + [Spawn(r)];
      ValidIs(this);
    }

    /** A running command is collected with the status that the environment gives it. */
    method CollectCommand(r: Vertex)
      requires Valid() && r in running && (Undecided(env, log) ==> Full())
      modifies this`log, this`running, graph`stamp
      ensures Valid() && running == old(running) - {r} && log == old(log) + [Collect(r, env.exit(r))]
      ensures StageOf(log, r) == Ended(env.exit(r)) && !Skipped(origin.t, env, r)
      ensures graph.stamp == old(graph.stamp)[r := env.clock(r)]
      ensures Verdict(log) == if old(Verdict(log)) != SUCCEEDED then old(Verdict(log)) else ResultOf(env.exit(r))
      ensures StartedRules(log) == old(StartedRules(log)) && BuiltRules(log) == old(BuiltRules(log))
    {
      hide WellFormed, Acyclic, Graph.Counted, Graph.Exact, Consistent, Startable, Timetable, StageOf,
           StartedRules, BuiltRules, Progress, Blockers, Traced, Verdict, Skipped, ClearedBy, Undecided;
      Collected(this, r);
      RunningIsPlanned(this, r);
      running := running - {r};
      log := log + [Collect(r, env.exit(r))];
      graph.stamp := graph.stamp[r := env.clock(r)];
    }

    /** The depfile of `r` cannot be used. */
    method RefuseDepfile(r: Vertex)
      requires Valid() && StageOf(log, r) == Ended(ExitSucceeded)
      requires !Skipped(origin.t, env, r) && env.exit(r) == ExitSucceeded && !Accepted(origin.t, env, r)
      modifies this`log
      ensures Valid() && log == old(log) + [Refuse(r)]
      ensures Verdict(log) == if old(Verdict(log)) != SUCCEEDED then old(Verdict(log)) else FAILED
      ensures StartedRules(log) == old(StartedRules(log)) && BuiltRules(log) == old(BuiltRules(log))
    {
      hide *;
      Refused(this, r);
      ValidIs(this);
      log := log + [Refuse(r)];
      ValidIs(this);
    }

    /** Loads the depfile of a rule whose command succeeded; the schedule goes on as it was, and all
        hashes are right for the new graph. */
    method LoadGraph(r: Vertex) returns (ok: bool)
      requires Valid() && HashesHold(hashes, graph.topo) && StageOf(log, r) == Ended(ExitSucceeded)
      requires !Skipped(origin.t, env, r) && env.exit(r) == ExitSucceeded && env.depfile(r).Contents?
      modifies this`start, graph, hashes`topo, hashes`content, hashes`hash, hashes`hashDep
      ensures HashesHold(hashes, graph.topo)
      ensures ok == Matches(origin.t, r, env.depfile(r).parsed)
      ensures !ok ==> Valid()
      ensures ok ==> WaitsForBuilt(r)
      ensures Restamped(old(graph.stamp), graph.stamp)
    {
      hide WellFormed, Acyclic, Graph.Counted, Graph.Exact, Consistent, Startable, Timetable, StageOf,
           StartedRules, BuiltRules, Progress, Blockers, Traced, Verdict, Cleared, ClearedBy, Skipped,
           ImplicitRoots, Settled, SourcesCovered, Loaded, NewInputs, ExplicitInputs, ImplicitInputs,
           WithImplicit, Above, Matches, HashesHold, StaysPositive, CountsBut, Misleading;
      ghost var p := Now();
      SameStamps(graph.stamp);
      LoadParts(this, r);
      HashesOf(hashes, graph.topo);
      ok := Load(graph, r, env.depfile(r).parsed);
      if ok {
        start := start * (graph.topo.nodes + graph.topo.rules);
        Rehash(hashes, r, graph.topo, env.data, env.depfile(r).parsed.ins, SomeRank(graph.topo));
        assert graph.lazy == p.lazy;
        assert Now() == AfterLoad(p, r, env.depfile(r).parsed.ins, env.data);
      }
    }

    /** The graph has been loaded for `r` and only waits for it to be built. */
    ghost predicate WaitsForBuilt(r: Vertex)
      reads this`log, this`running, this`start, graph, plan, hashes
    {
      && Scheduled() && start <= graph.topo.nodes + graph.topo.rules
      && Traced(origin, env, plan.rules, AfterBuilt(Now(), r), log + [Built(r)])
    }

    /** The depfile of a rule whose command succeeded is loaded, and the rule is built. */
    method LoadDepfile(r: Vertex) returns (ok: bool)
      requires Valid() && HashesHold(hashes, graph.topo) && StageOf(log, r) == Ended(ExitSucceeded)
      requires !Skipped(origin.t, env, r) && env.exit(r) == ExitSucceeded && env.depfile(r).Contents?
      modifies this`log, this`start, graph, plan`ready, hashes`topo, hashes`content, hashes`hash, hashes`hashDep
      ensures Valid() && HashesHold(hashes, graph.topo)
      ensures ok == Accepted(origin.t, env, r) && log == old(log) + [if ok then Built(r) else Refuse(r)]
      ensures Verdict(log) == if old(Verdict(log)) != SUCCEEDED then old(Verdict(log)) else if ok then SUCCEEDED
              else FAILED
      ensures StartedRules(log) == old(StartedRules(log))
              && BuiltRules(log) == old(BuiltRules(log)) + if ok then {r} else {}
      ensures Restamped(old(graph.stamp), graph.stamp)
    {
      hide Scheduled, StartedRules, BuiltRules, Traced, Verdict, Cleared, Skipped, Accepted, Matches, HashesHold,
           StageOf, Restamped;
      VerdictLast(log, Built(r));
      AcceptedMeans(origin.t, env, r);
      ok := LoadGraph(r);
      if ok {
        OnRuleFinished(r);
      } else {
        RefuseDepfile(r);
      }
    }

    /** Nothing can be started now. */
    predicate Full()
      reads this`running, plan`ready
    {
      |running| >= numThreads || plan.ready == {}
    }

    /** Some running command completes, with the status that the environment gives it. */
    method WaitForNext() returns (res: BuildResult, ghost r: Vertex)
      requires Valid() && HashesHold(hashes, graph.topo) && running != {} && (Undecided(env, log) ==> Full())
      modifies this`log, this`running, this`start, graph, plan`ready, hashes`topo, hashes`content, hashes`hash,
               hashes`hashDep
      ensures Valid() && HashesHold(hashes, graph.topo)
      ensures r in old(running) && running == old(running) - {r} && log == old(log) + Completion(origin.t, env, r)
      ensures StartedRules(log) == old(StartedRules(log)) && BuiltRules(log) >= old(BuiltRules(log))
      ensures res == SUCCEEDED && old(AllWell()) ==> AllWell()
      ensures res == ResultOfRule(origin.t, env, r)
      ensures Restamped(old(graph.stamp)[r := env.clock(r)], graph.stamp)
      ensures Verdict(log) == if old(Verdict(log)) != SUCCEEDED then old(Verdict(log)) else res
    {
      hide *;
      var next :| next in running;
      r := next;
      AllWellMeans(this);
      CollectCommand(next);
      SameStamps(graph.stamp);
      CompletionIs(this, old(log), next);
      if env.exit(next) != ExitSucceeded {
        res := ResultOf(env.exit(next));
        return;
      }
      SucceededIs();
      FinishesCollected(this, next);
      AcceptedMeans(origin.t, env, next);
      match env.depfile(next) {
        case NoDepfile =>
          Finish(next);
          res := SUCCEEDED;
        case Unreadable =>
          RefuseDepfile(next);
          res := FAILED;
        case Contents(_) =>
          var ok := LoadDepfile(next);
          res := if ok then SUCCEEDED else FAILED;
      }
      if res == SUCCEEDED {
        OneBuilt(old(StartedRules(log)), old(BuiltRules(log)), old(running), next);
      }
      AllWellMeans(this);
    }

    /** Rules not handed out yet count twice, running commands once: this bounds the loop. */
    ghost function Remaining(): nat
      reads this, plan
    {
      2 * |plan.rules - StartedRules(log)| + |running|
    }

    /** Spawn as many ready commands as possible. */
    method StartReady()
      requires Valid()
      modifies this`log, this`running, graph`dirty, graph`lazy, graph`numReady, graph`blocked, graph`stamp,
               plan`ready, plan`numStarted
      ensures Valid() && Remaining() <= old(Remaining()) && running >= old(running) && Verdict(log) == old(Verdict(log))
      ensures old(plan.ready) != {} && |old(running)| < numThreads ==> Remaining() < old(Remaining())
      ensures (old(AllWell()) ==> AllWell()) && Full() && |log| >= old(|log|)
    {
      hide *;
      RemainingMeans(this);
      while plan.ready != {} && |running| < numThreads
        invariant Valid() && Remaining() <= old(Remaining()) && running >= old(running)
                  && Verdict(log) == old(Verdict(log)) && |log| >= old(|log|)
        invariant Remaining() < old(Remaining()) || (plan.ready == old(plan.ready) && running == old(running))
        invariant old(AllWell()) ==> AllWell()
        decreases Remaining()
      {
        ghost var before, was, b := StartedRules(log), running, BuiltRules(log);
        RemainingMeans(this);
        AllWellMeans(this);
        BuiltStarted(this);
        var r := TakeWork();
        BuildRule(r);
        StartedOne(plan.rules, before, was, running, r);
        StillWell(before, b, was, running, StartedRules(log), BuiltRules(log), r);
        RemainingMeans(this);
        AllWellMeans(this);
      }
      FullMeans(this);
    }

    /** The main loop of buildThread. */
    method RunPlan()
      requires Valid() && HashesHold(hashes, graph.topo) && log == [] && running == {} && result == SUCCEEDED
      modifies this`log, this`running, this`start, this`result, graph, plan`ready, plan`numStarted, hashes`topo,
               hashes`content, hashes`hash, hashes`hashDep
      ensures Valid() && HashesHold(hashes, graph.topo) && result == Verdict(log) && (result == SUCCEEDED ==> AllWell())
      ensures Undecided(env, log) ==> StartedRules(log) == plan.rules
    {
      hide *;
      NothingStarted(this);
      DoneMeans(this);
      UndecidedMeans(this);
      while result == SUCCEEDED && plan.numStarted != |plan.rules| && !Stopped(env.stop, log)
        invariant Valid() && HashesHold(hashes, graph.topo) && result == Verdict(log)
        invariant result == SUCCEEDED ==> AllWell()
        invariant plan.numStarted == |plan.rules| <==> StartedRules(log) == plan.rules
        invariant Undecided(env, log) <==> result == SUCCEEDED && !Stopped(env.stop, log)
        decreases Remaining()
      {
        if running == {} {
          NoDeadlock(this);
        }
        StartReady();
        RemainingMeans(this);
        if |running| > 0 {
          ghost var started, was := StartedRules(log), running;
          ghost var next;
          result, next := WaitForNext();
          OneFewer(was, running, next);
        }
        RemainingMeans(this);
        DoneMeans(this);
        UndecidedMeans(this);
      }
    }

    /** The loop that waits for what is still running. */
    method Drain()
      requires Valid() && HashesHold(hashes, graph.topo) && result == Verdict(log)
      requires result == SUCCEEDED ==> AllWell()
      requires Undecided(env, log) ==> StartedRules(log) == plan.rules
      modifies this`log, this`running, this`start, this`result, graph, plan`ready, hashes`topo, hashes`content,
               hashes`hash, hashes`hashDep
      ensures Valid() && HashesHold(hashes, graph.topo) && result == Verdict(log) && (result == SUCCEEDED ==> AllWell())
      ensures running == {} && (Undecided(env, log) ==> StartedRules(log) == plan.rules)
    {
      hide *;
      while |running| > 0
        invariant Valid() && HashesHold(hashes, graph.topo) && result == Verdict(log)
        invariant result == SUCCEEDED ==> AllWell()
        invariant Undecided(env, log) ==> StartedRules(log) == plan.rules
        decreases |running|
      {
        ghost var before, was := log, running;
        if StartedRules(log) == plan.rules {
          AllStarted(this);
        }
        var tmp, next := WaitForNext();
        OneFewer(was, running, next);
        StillUndecided(this, before);
        if result == SUCCEEDED {
          result := tmp;
        }
      }
    }

    /** GraphParallelBuilder::buildThread.  Every run terminates, keeps to an orderly schedule, and the
        first failure is its result; a run without failure that the interrupt does not reach builds the
        whole plan. */
    method BuildThread()
      requires Valid() && HashesHold(hashes, graph.topo) && log == [] && running == {} && result == SUCCEEDED
      requires origin.stamp.Keys == origin.t.nodes + origin.t.rules
      modifies this, graph, plan, hashes`topo, hashes`content, hashes`hash, hashes`hashDep
      ensures Invariant(graph) && HashesHold(hashes, graph.topo) && ImplicitRoots(graph.topo)
      ensures Droppable(graph.topo, graph.dirty)
      ensures plan.rules == old(plan.rules) && BuiltRules(log) <= plan.rules && RunningRules(log) == {}
      ensures result == Verdict(log) && (result == SUCCEEDED <==> NoFailure(log))
      ensures Faithful(origin.t, env, log) && Orderly(origin.t, env, plan.rules, numThreads, log)
      ensures NoFailure(log) && !Stopped(env.stop, log) ==> BuiltRules(log) == plan.rules
      ensures graph.topo == Reloaded(origin.t, env, log) && hashes.content == ReadBy(origin.t, env, log, origin.content)
      ensures graph.dirty == Left(origin.t, env, log, origin.dirty)
      ensures graph.lazy == Left(origin.t, env, log, origin.lazy)
      ensures graph.stamp == Stamped(origin.t, env, log, origin.stamp)
      ensures StampsTold(origin.t, env, log, origin.stamp, graph.topo, graph.stamp)
      ensures Kept(origin.t, graph.topo, BuiltRules(log))
      ensures graph.dirty <= origin.dirty - ClearedBy(graph.topo, BuiltRules(log))
    {
      hide *;
      RunPlan();
      Drain();
      VerdictIff(log);
      UndecidedMeans(this);
      BuildEnds(this);
      StampsEnd(origin, env, plan.rules, numThreads, log);
    }
  }

  /** What an orderly build leaves as timestamps. */
  lemma StampsEnd(o: Origin, env: Environment, planned: set<Vertex>, n: nat, log: seq<Action>)
    requires WellFormed(o.t) && o.stamp.Keys == o.t.nodes + o.t.rules && planned <= o.t.rules
    requires Orderly(o.t, env, planned, n, log)
    ensures StampsTold(o.t, env, log, o.stamp, Reloaded(o.t, env, log), Stamped(o.t, env, log, o.stamp))
  {
    hide WellFormed, Orderly, Reloaded, Stamped, Noted;
    forall k | 0 <= k < |log| ensures log[k].rule in o.t.rules {
      ProducersFirst(o.t, env, planned, n, log, k);
    }
    SameKeys(o.t);
    RulesApart(o.t);
    forall v ensures var u, s := Reloaded(o.t, env, log), Stamped(o.t, env, log, o.stamp);
                     && (v in o.t.rules ==>
                           v in s && s[v] == if Noted(o.t, env, log, v) then env.clock(v) else o.stamp[v])
                     && (v in o.t.child && v !in o.t.rules ==> v in s && s[v] == o.stamp[v])
                     && (v in u.nodes && v !in o.t.nodes ==> v in s && s[v] == 0) {
      StampsAre(o.t, env, log, o.stamp, v);
    }
  }

  lemma RulesApart(t: Topology)
    requires WellFormed(t)
    ensures t.rules !! t.nodes && t.command.Keys == t.rules && t.child.Keys <= t.nodes && t.child.Keys !! t.rules
    ensures forall r :: r in t.rules ==> r.Rule?
  {
  }

  lemma ValidIs(b: GraphParallelBuilder)
    ensures b.Valid() <==> b.ValidAt(b.running, b.log, b.graph.stamp)
  {
    hide GraphParallelBuilder.Accounted, Timetable, Traced;
  }

  /** A command is added to those that run. */
  lemma Spawned(b: GraphParallelBuilder, r: Vertex)
    requires b.Valid() && StageOf(b.log, r).Begun? && |b.running| < b.numThreads && !Skipped(b.origin.t, b.env, r)
    ensures b.ValidAt(b.running + {r}, b.log + [Spawn(r)], b.graph.stamp)
    ensures Verdict(b.log + [Spawn(r)]) == Verdict(b.log)
    ensures StartedRules(b.log + [Spawn(r)]) == StartedRules(b.log)
            && BuiltRules(b.log + [Spawn(r)]) == BuiltRules(b.log)
  {
    hide StartedRules, BuiltRules, Traced, Verdict, Skipped, Faithful, GraphParallelBuilder.Accounted, Timetable,
         StageOf;
    TimetableLast(b.origin.t, b.env, b.plan.rules, b.numThreads, b.running, b.log, Spawn(r));
    FaithfulCommand(b.origin.t, b.env, r);
    TracedOther(b.origin, b.env, b.plan.rules, b.Now(), b.log, Spawn(r));
    VerdictLast(b.log, Spawn(r));
    LogLast(b.log, Spawn(r));
    NothingMore(b.log);
  }

  lemma HashesOf(h: GraphHash, t: Topology)
    requires HashesHold(h, t)
    ensures h.topo == t
  {
  }

  lemma NothingMore(log: seq<Action>)
    ensures StartedRules(log) + {} == StartedRules(log) && BuiltRules(log) + {} == BuiltRules(log)
  {
  }

  /** A running command has come to its end. */
  lemma Collected(b: GraphParallelBuilder, r: Vertex)
    requires b.Valid() && r in b.running && (Undecided(b.env, b.log) ==> b.Full())
    ensures var a := Collect(r, b.env.exit(r));
            && b.ValidAt(b.running - {r}, b.log + [a], b.graph.stamp[r := b.env.clock(r)])
            && StageOf(b.log + [a], r) == Ended(b.env.exit(r))
            && Verdict(b.log + [a]) == (if Verdict(b.log) != SUCCEEDED then Verdict(b.log) else ResultOf(b.env.exit(r)))
            && StartedRules(b.log + [a]) == StartedRules(b.log) && BuiltRules(b.log + [a]) == BuiltRules(b.log)
    ensures !Skipped(b.origin.t, b.env, r)
  {
    hide StartedRules, BuiltRules, Traced, Verdict, Skipped, Faithful, GraphParallelBuilder.Accounted, Orderly,
         StageOf, RunningRules, Undecided, Saturated;
    var t, env, rules, n, log := b.origin.t, b.env, b.plan.rules, b.numThreads, b.log;
    var a := Collect(r, env.exit(r));
    StageParts(t, env, rules, n, log, r);
    RunsUnskipped(t, env, rules, n, log, r);
    if Undecided(env, log) {
      FullIsSaturated(b);
    }
    TimetableLast(t, env, rules, n, b.running, log, a);
    FaithfulCommand(t, env, r);
    TracedOther(b.origin, env, rules, b.Now(), log, a);
    VerdictLast(log, a);
    LogLast(log, a);
    NothingMore(log);
  }

  lemma RunningIsPlanned(b: GraphParallelBuilder, r: Vertex)
    requires b.Scheduled() && r in b.running
    ensures r in b.graph.topo.rules
  {
    hide WellFormed, StartedRules, BuiltRules, Orderly, Startable, NeedsMet, Blockers, StageOf, RunningRules;
    StageParts(b.origin.t, b.env, b.plan.rules, b.numThreads, b.log, r);
    PlannedRule(b, r);
  }

  /** A rule that runs was spawned. */
  lemma {:induction false} RunsUnskipped(t: Topology, env: Environment, planned: set<Vertex>, n: nat, log: seq<Action>,
                                         r: Vertex)
    requires Orderly(t, env, planned, n, log) && StageOf(log, r).Running?
    ensures !Skipped(t, env, r)
  {
    hide Skipped;
    SpawnedUnskipped(t, env, log, r);
  }

  lemma {:induction false} SpawnedUnskipped(t: Topology, env: Environment, log: seq<Action>, r: Vertex)
    requires Lifecycle(t, env, log) && StageOf(log, r).Running?
    ensures !Skipped(t, env, r)
  {
    hide Skipped;
    assert Follows(t, env, StageOf(log[..|log| - 1], log[|log| - 1].rule), log[|log| - 1]);
    if log[|log| - 1].rule != r {
      LifecyclePrefix(t, env, log, |log| - 1);
      SpawnedUnskipped(t, env, log[..|log| - 1], r);
    }
  }

  /** If no rule is ready, each that has not started waits for a planned one. */
  lemma FullIsSaturated(b: GraphParallelBuilder)
    requires b.Valid() && b.Full()
    ensures Saturated(b.origin.t, b.plan.rules, b.numThreads, b.log)
  {
    hide StartedRules, BuiltRules, Verdict, Skipped, Faithful, Orderly, StageOf, RunningRules, WellFormed, Acyclic,
         Graph.Counted, Graph.Exact, Consistent, Reloaded, Left, ReadBy, Loading;
    var t0, t, d, S := b.origin.t, b.graph.topo, b.graph.dirty, StartedRules(b.log);
    if b.plan.ready != {} {
      StageParts(t0, b.env, b.plan.rules, b.numThreads, b.log, Node(""));
    } else {
      forall r | r in b.plan.rules - S ensures !ProducersBuilt(t0, b.plan.rules, b.log, r) {
        assert r !in Startable(t, d, b.plan.rules - S);
        var i :| i in Blockers(t, d, r);
        assert NeedsMet(t, d, b.plan.rules - BuiltRules(b.log), r);
        assert t.child[i] in b.plan.rules - BuiltRules(b.log);
      }
    }
  }

  /** A depfile is refused. */
  lemma Refused(b: GraphParallelBuilder, r: Vertex)
    requires b.Valid() && StageOf(b.log, r) == Ended(ExitSucceeded)
    requires !Skipped(b.origin.t, b.env, r) && b.env.exit(r) == ExitSucceeded && !Accepted(b.origin.t, b.env, r)
    ensures b.ValidAt(b.running, b.log + [Refuse(r)], b.graph.stamp)
    ensures Verdict(b.log + [Refuse(r)]) == if Verdict(b.log) != SUCCEEDED then Verdict(b.log) else FAILED
    ensures StartedRules(b.log + [Refuse(r)]) == StartedRules(b.log)
            && BuiltRules(b.log + [Refuse(r)]) == BuiltRules(b.log)
  {
    hide StartedRules, BuiltRules, Traced, Verdict, Skipped, Faithful, GraphParallelBuilder.Accounted, Timetable,
         StageOf, Accepted;
    TimetableLast(b.origin.t, b.env, b.plan.rules, b.numThreads, b.running, b.log, Refuse(r));
    FaithfulCommand(b.origin.t, b.env, r);
    TracedOther(b.origin, b.env, b.plan.rules, b.Now(), b.log, Refuse(r));
    VerdictLast(b.log, Refuse(r));
    LogLast(b.log, Refuse(r));
    NothingMore(b.log);
  }

  /** The schedule when a rule is built, or handed out. */
  lemma ScheduleBuilt(b: GraphParallelBuilder, r: Vertex)
    requires b.Scheduled() && Follows(b.origin.t, b.env, StageOf(b.log, r), Built(r))
    ensures Timetable(b.origin.t, b.env, b.plan.rules, b.numThreads, b.running, b.log + [Built(r)])
    ensures !StageOf(b.log, r).Idle?
    ensures r in StartedRules(b.log) - BuiltRules(b.log) && StartedRules(b.log + [Built(r)]) == StartedRules(b.log)
    ensures BuiltRules(b.log + [Built(r)]) == BuiltRules(b.log) + {r}
  {
    hide StartedRules, BuiltRules, GraphParallelBuilder.Accounted, StageOf, Orderly;
    TimetableLast(b.origin.t, b.env, b.plan.rules, b.numThreads, b.running, b.log, Built(r));
    StageParts(b.origin.t, b.env, b.plan.rules, b.numThreads, b.log, r);
    LogLast(b.log, Built(r));
    NothingMore(b.log);
  }

  lemma ScheduleStart(b: GraphParallelBuilder, r: Vertex)
    requires Timetable(b.origin.t, b.env, b.plan.rules, b.numThreads, b.running, b.log)
    requires r in b.plan.rules && r !in StartedRules(b.log) && ProducersBuilt(b.origin.t, b.plan.rules, b.log, r)
    ensures Timetable(b.origin.t, b.env, b.plan.rules, b.numThreads, b.running, b.log + [Start(r)])
    ensures StageOf(b.log + [Start(r)], r).Begun?
  {
    hide StartedRules, BuiltRules, StageOf, Orderly, ProducersBuilt;
    StageParts(b.origin.t, b.env, b.plan.rules, b.numThreads, b.log, r);
    TimetableLast(b.origin.t, b.env, b.plan.rules, b.numThreads, b.running, b.log, Start(r));
  }

  lemma FinishesSkipped(b: GraphParallelBuilder, r: Vertex)
    requires StageOf(b.log, r).Begun?
    ensures Skipped(b.origin.t, b.env, r) ==> Follows(b.origin.t, b.env, StageOf(b.log, r), Built(r))
    ensures !StageOf(b.log, r).Idle?
  {
    hide Skipped;
  }

  lemma FinishesCollected(b: GraphParallelBuilder, r: Vertex)
    requires StageOf(b.log, r) == Ended(ExitSucceeded) && !Skipped(b.origin.t, b.env, r)
    ensures Follows(b.origin.t, b.env, StageOf(b.log, r), Built(r)) && !b.env.restored(r)
  {
  }

  /** What is logged when the command of `r` completes. */
  function Completion(t: Topology, env: Environment, r: Vertex): seq<Action> {
    [Collect(r, env.exit(r))]
    + if env.exit(r) != ExitSucceeded then [] else if Accepted(t, env, r) then [Built(r)] else [Refuse(r)]
  }

  /** What that adds to the result. */
  function ResultOfRule(t: Topology, env: Environment, r: Vertex): BuildResult {
    if env.exit(r) != ExitSucceeded then ResultOf(env.exit(r)) else if Accepted(t, env, r) then SUCCEEDED else FAILED
  }

  lemma SucceededIs()
    ensures ResultOf(ExitSucceeded) == SUCCEEDED
  {
  }

  lemma CompletionIs(b: GraphParallelBuilder, log: seq<Action>, r: Vertex)
    requires b.log == log + [Collect(r, b.env.exit(r))]
    ensures var t, env := b.origin.t, b.env;
            && (env.exit(r) != ExitSucceeded ==>
                  b.log == log + Completion(t, env, r) && ResultOfRule(t, env, r) == ResultOf(env.exit(r)) != SUCCEEDED)
            && (env.exit(r) == ExitSucceeded && Accepted(t, env, r) ==>
                  b.log + [Built(r)] == log + Completion(t, env, r) && ResultOfRule(t, env, r) == SUCCEEDED)
            && (env.exit(r) == ExitSucceeded && !Accepted(t, env, r) ==>
                  b.log + [Refuse(r)] == log + Completion(t, env, r) && ResultOfRule(t, env, r) == FAILED)
  {
    hide Accepted;
  }

  lemma FullMeans(b: GraphParallelBuilder)
    ensures b.Full() <==> |b.running| >= b.numThreads || b.plan.ready == {}
  {
  }

  lemma BuiltStarted(b: GraphParallelBuilder)
    requires b.Valid()
    ensures BuiltRules(b.log) <= StartedRules(b.log) <= b.plan.rules
  {
    hide Invariant, ClearedBy, Timetable, Traced, StartedRules, BuiltRules, Startable, NeedsMet, Blockers;
  }

  lemma AllWellMeans(b: GraphParallelBuilder)
    ensures b.AllWell() <==> b.running == StartedRules(b.log) - BuiltRules(b.log)
  {
  }

  lemma UndecidedMeans(b: GraphParallelBuilder)
    ensures Undecided(b.env, b.log) <==> Verdict(b.log) == SUCCEEDED && !Stopped(b.env.stop, b.log)
  {
  }

  /** Handing out one rule brings the end nearer. */
  lemma StartedOne(rules: set<Vertex>, before: set<Vertex>, was: set<Vertex>, running: set<Vertex>, r: Vertex)
    requires r in rules && r !in before && (running == was + {r} || running == was + {})
    ensures 2 * |rules - (before + {r})| + |running| < 2 * |rules - before| + |was|
    ensures running >= was
  {
    assert rules - (before + {r}) == rules - before - {r};
    assert was + {} == was;
    SmallerSet(was, r);
  }

  lemma StillWell(started: set<Vertex>, built: set<Vertex>, was: set<Vertex>, running: set<Vertex>,
                  started': set<Vertex>, built': set<Vertex>, r: Vertex)
    requires started' == started + {r} && r !in started && built <= started
    requires (running == was + {r} && built' == built + {}) || (running == was + {} && built' == built + {r})
    ensures was == started - built ==> running == started' - built'
  {
  }

  lemma NoneLeft(a: set<Vertex>, b: set<Vertex>)
    ensures a - b == {} && b <= a ==> a == b
  {
    if a - b == {} && b <= a {
      forall v | v in a ensures v in b {
        assert v !in a - b;
      }
    }
  }

  lemma OneBuilt(started: set<Vertex>, built: set<Vertex>, running: set<Vertex>, r: Vertex)
    ensures running == started - built ==> running - {r} == started - (built + {r})
  {
  }

  lemma OneFewer(was: set<Vertex>, running: set<Vertex>, r: Vertex)
    requires r in was && running == was - {r}
    ensures |running| == |was| - 1
  {
  }

  /** Once everything has started nothing is ready. */
  lemma AllStarted(b: GraphParallelBuilder)
    requires b.Valid() && StartedRules(b.log) == b.plan.rules
    ensures b.Full()
  {
    hide StartedRules, BuiltRules, Timetable, Progress, Invariant, Traced, ClearedBy;
    assert b.plan.rules - StartedRules(b.log) == {};
  }

  /** A build that goes on has gone on before. */
  lemma StillUndecided(b: GraphParallelBuilder, before: seq<Action>)
    requires |before| <= |b.log| && (Verdict(before) != SUCCEEDED ==> Verdict(b.log) != SUCCEEDED)
    ensures Undecided(b.env, b.log) ==> Undecided(b.env, before)
  {
    hide Verdict;
  }

  lemma RemainingMeans(b: GraphParallelBuilder)
    ensures b.Remaining() == 2 * |b.plan.rules - StartedRules(b.log)| + |b.running|
  {
  }

  lemma ClearedMore(t: Topology, built: set<Vertex>, r: Vertex)
    ensures ClearedBy(t, built + {r}) == ClearedBy(t, built) + Cleared(t, r)
    ensures ClearedBy(t, {}) == {}
  {
  }

  lemma NothingTold(t: Topology, numReady: map<Vertex, nat>)
    requires numReady.Keys == t.inputs.Keys
    ensures forall os: seq<Vertex> {:trigger os[..0]} :: Told(t, numReady, os[..0]) == numReady
  {
    forall os: seq<Vertex> ensures Told(t, numReady, os[..0]) == numReady {
      assert forall r :: r in numReady ==> Taken(t, os[..0], r) == {};
    }
  }

  lemma ToldMore(t: Topology, numReady: map<Vertex, nat>, os: seq<Vertex>, k: nat)
    requires numReady.Keys == t.inputs.Keys && k < |os| && NoDuplicates(os)
    ensures Told(t, Told(t, numReady, os[..k]), [os[k]]) == Told(t, numReady, os[..k + 1])
  {
    hide Taken;
    forall r | r in numReady ensures |Taken(t, os[..k + 1], r)| == |Taken(t, os[..k], r)| + |Taken(t, [os[k]], r)| {
      TakenMore(t, os, k, r);
    }
  }

  lemma TakenMore(t: Topology, os: seq<Vertex>, k: nat, r: Vertex)
    requires r in t.inputs && k < |os| && NoDuplicates(os)
    ensures |Taken(t, os[..k + 1], r)| == |Taken(t, os[..k], r)| + |Taken(t, [os[k]], r)|
  {
    assert os[..k + 1] == os[..k] + [os[k]];
    assert Taken(t, os[..k + 1], r) == Taken(t, os[..k], r) + Taken(t, [os[k]], r);
    assert Taken(t, os[..k], r) !! Taken(t, [os[k]], r);
  }

  /** What handing out a ready rule relies on. */
  lemma StartFacts(b: GraphParallelBuilder, r: Vertex)
    requires WellFormed(b.graph.topo) && Progress(b.graph.topo, b.start, b.graph.dirty, b.plan.rules,
             StartedRules(b.log), BuiltRules(b.log))
    requires Traced(b.origin, b.env, b.plan.rules, b.Now(), b.log)
    requires r in Startable(b.graph.topo, b.graph.dirty, b.plan.rules - StartedRules(b.log))
    requires ProducersBuilt(b.graph.topo, b.plan.rules, b.log, r)
    ensures r in b.graph.topo.rules && r !in BuiltRules(b.log) && Blockers(b.graph.topo, b.graph.dirty, r) == {}
    ensures ProducersBuilt(b.origin.t, b.plan.rules, b.log, r)
  {
    hide WellFormed, StartedRules, BuiltRules, NeedsMet, Blockers, Loading, Reloaded, Faithful, Left, ReadBy;
    RuleShape(b.graph.topo, r);
  }

  lemma SameCommand(b: GraphParallelBuilder)
    requires b.Valid()
    ensures forall r :: Skipped(b.origin.t, b.env, r) <==> IsPhony(b.graph.topo, r) || b.env.restored(r)
  {
    hide GraphParallelBuilder.Scheduled, Loading, Reloaded, Faithful, BuiltRules, Left, ReadBy;
  }

  lemma ScheduledParts(b: GraphParallelBuilder)
    requires b.Scheduled()
    ensures WellFormed(b.graph.topo)
    ensures b.graph.dirty <= b.graph.topo.nodes + b.graph.topo.rules
    ensures b.graph.lazy <= b.graph.topo.nodes + b.graph.topo.rules
    ensures b.graph.stamp.Keys == b.graph.topo.nodes + b.graph.topo.rules
  {
    hide WellFormed;
    InsideGraph(b.graph.topo, b.graph.dirty, b.graph.lazy);
  }

  lemma PlannedRule(b: GraphParallelBuilder, r: Vertex)
    requires b.Scheduled() && !StageOf(b.log, r).Idle?
    ensures r in b.graph.topo.rules && r in b.plan.rules && r in StartedRules(b.log)
  {
    hide WellFormed, StartedRules, BuiltRules, Orderly, Startable, NeedsMet, Blockers, StageOf;
    StageParts(b.origin.t, b.env, b.plan.rules, b.numThreads, b.log, r);
  }

  lemma AcceptedMeans(t: Topology, env: Environment, r: Vertex)
    ensures env.depfile(r).NoDepfile? ==> Accepted(t, env, r)
    ensures env.depfile(r).Unreadable? ==> !Accepted(t, env, r)
    ensures env.depfile(r).Contents? ==> (Accepted(t, env, r) <==> Matches(t, r, env.depfile(r).parsed))
  {
  }

  /** What loading the depfile of a collected rule relies on, and what it leaves. */
  lemma LoadParts(b: GraphParallelBuilder, r: Vertex)
    requires b.Valid() && StageOf(b.log, r) == Ended(ExitSucceeded)
    requires !Skipped(b.origin.t, b.env, r) && b.env.exit(r) == ExitSucceeded && b.env.depfile(r).Contents?
    ensures var t, d, parsed := b.graph.topo, b.graph.dirty, b.env.depfile(r).parsed;
            && r in t.rules && r in d && HasInputs(t, r) && ImplicitRoots(t)
            && Matches(t, r, parsed) == Matches(b.origin.t, r, parsed)
            && (!Matches(t, r, parsed) ==> ImplicitInputs(t, r) == [])
            && (Matches(t, r, parsed) ==>
                  && parsed.Deps? && Settled(t, d, r, parsed.ins) && SourcesCovered(t, d, r, parsed.ins)
                  && StaysPositive(t, d, r, parsed.ins)
                  && var p := AfterLoad(b.Now(), r, parsed.ins, b.env.data);
                     && Acyclic(p.t) && p.lazy == b.graph.lazy && b.graph.lazy <= p.t.nodes
                     && Progress(p.t, p.start, p.dirty, b.plan.rules, StartedRules(b.log), BuiltRules(b.log))
                     && ClearedBy(p.t, BuiltRules(b.log)) == ClearedBy(t, BuiltRules(b.log))
                     && Startable(p.t, p.dirty, b.plan.rules - StartedRules(b.log))
                        == Startable(t, d, b.plan.rules - StartedRules(b.log))
                     && Traced(b.origin, b.env, b.plan.rules, AfterBuilt(p, r), b.log + [Built(r)]))
  {
    hide WellFormed, Acyclic, Graph.Counted, Graph.Exact, Startable, Orderly, StageOf, StartedRules,
         BuiltRules, Blockers, Verdict, Cleared, Skipped, Accepted, ImplicitRoots, Settled, SourcesCovered,
         Loaded, NewInputs, ExplicitInputs, ImplicitInputs, Matches, NeedsMet, ClearedBy, Kept, Droppable,
         ProducersDone, MayList, Faithful, Reloaded, Left, ReadBy, Layers, Reread, StaysPositive, RuleOfDirtyNode,
         OutputsOfDirtyRule, DirtyGeneratedInput, DirtySource, UniformOutputs, RunningRules;
    var t, d, S, B := b.graph.topo, b.graph.dirty, StartedRules(b.log), BuiltRules(b.log);
    var parsed := b.env.depfile(r).parsed;
    StageParts(b.origin.t, b.env, b.plan.rules, b.numThreads, b.log, r);
    assert r in b.plan.rules && UsesDepfiles(b.env, b.plan.rules);
    RuleShape(t, r);
    ReadyToLoad(b.origin.t, b.origin.dirty, b.env, b.plan.rules, t, b.start, d, S, B, r);
    if Matches(t, r, parsed) {
      MatchesMeans(t, r, parsed);
      LoadedWellFormed(t, r, parsed.ins);
      LoadedRoots(t, r, parsed.ins);
      SettledStaysPositive(t, d, r, parsed.ins);
      LoadKeepsProgress(t, b.start, d, b.plan.rules, S, B, r, parsed.ins);
      LoadKeepsCleared(t, r, parsed.ins, B);
      LayersLoaded(t, b.env, b.plan.rules, r);
      LoadedFrame(t, r, parsed.ins);
      TracedLoaded(b.origin, b.env, b.plan.rules, b.Now(), b.log, r);
    }
  }

  lemma NothingStarted(b: GraphParallelBuilder)
    requires b.log == [] && b.running == {}
    ensures b.AllWell() && Verdict(b.log) == SUCCEEDED
  {
  }

  lemma DoneMeans(b: GraphParallelBuilder)
    requires b.Valid()
    ensures b.plan.numStarted == |b.plan.rules| <==> StartedRules(b.log) == b.plan.rules
  {
    hide WellFormed, Acyclic, Graph.Counted, Graph.Exact, Consistent, Startable, Timetable, StartedRules,
         BuiltRules, Traced;
    SubsetSize(StartedRules(b.log), b.plan.rules);
  }

  /** Never "not done, nothing ready, nothing running" while the build is succeeding. */
  lemma NoDeadlock(b: GraphParallelBuilder)
    requires b.Valid() && b.AllWell() && b.running == {} && StartedRules(b.log) != b.plan.rules
    ensures b.plan.ready != {} && |b.running| < b.numThreads
  {
    hide WellFormed, Graph.Counted, Graph.Exact, Consistent, Startable, Timetable, StartedRules,
         BuiltRules, Blockers, NeedsMet, Ranked, Acyclic, Traced;
    BuiltStarted(b);
    NoneLeft(StartedRules(b.log), BuiltRules(b.log));
    var unbuilt := b.plan.rules - BuiltRules(b.log);
    assert unbuilt == b.plan.rules - StartedRules(b.log);
    NoneLeft(b.plan.rules, StartedRules(b.log));
    SomeReady(b.graph.topo, b.graph.dirty, SomeRank(b.graph.topo), unbuilt);
  }

  lemma BuildEnds(b: GraphParallelBuilder)
    requires b.Valid()
    ensures Invariant(b.graph) && ImplicitRoots(b.graph.topo) && Droppable(b.graph.topo, b.graph.dirty)
    ensures BuiltRules(b.log) <= b.plan.rules && RunningRules(b.log) == b.running
    ensures b.graph.topo == Reloaded(b.origin.t, b.env, b.log) && Kept(b.origin.t, b.graph.topo, BuiltRules(b.log))
    ensures b.graph.dirty == Left(b.origin.t, b.env, b.log, b.origin.dirty)
    ensures b.graph.lazy == Left(b.origin.t, b.env, b.log, b.origin.lazy)
    ensures b.graph.stamp == Stamped(b.origin.t, b.env, b.log, b.origin.stamp)
    ensures WellFormed(b.origin.t) && b.plan.rules <= b.origin.t.rules
    ensures b.graph.dirty <= b.origin.dirty - ClearedBy(b.graph.topo, BuiltRules(b.log))
    ensures b.hashes.content == ReadBy(b.origin.t, b.env, b.log, b.origin.content)
    ensures Faithful(b.origin.t, b.env, b.log) && Orderly(b.origin.t, b.env, b.plan.rules, b.numThreads, b.log)
    ensures b.AllWell() && b.running == {} && StartedRules(b.log) == b.plan.rules ==> BuiltRules(b.log) == b.plan.rules
  {
    hide WellFormed, Graph.Counted, Graph.Exact, Consistent, Startable, Orderly, StartedRules, RunningRules,
         BuiltRules, Blockers, NeedsMet, Acyclic, ClearedBy, Reloaded, Kept, Faithful, UsesDepfiles, ImplicitRoots,
         Droppable, Layers, MayList, ProducersDone, Left, ReadBy, Stamped;
    SameShape(b.origin.t, b.env, b.log);
    BuiltStarted(b);
    AllWellMeans(b);
    NoneLeft(StartedRules(b.log), BuiltRules(b.log));
  }

  /** What depfiles may say in a build of the rules `planned`. */
  ghost predicate DepfilesFit(t: Topology, d: set<Vertex>, env: Environment, planned: set<Vertex>) {
    UsesDepfiles(env, planned) ==>
      Layers(t, env, planned) && forall r :: r in planned ==> MayList(t, d, env, r)
  }

  /** While nothing is lazily fetched the planned rules cannot list anything above them, so that the
      whole is without a cycle: what is dirty lies above what is clean. */
  lemma LayersUnfetched(t: Topology, d: set<Vertex>, env: Environment, planned: set<Vertex>)
    requires WellFormed(t) && Acyclic(t) && Consistent(t, d, {}) && planned <= t.rules * d
    requires forall r :: r in planned ==> MayList(t, d, env, r)
    ensures Layers(t, env, planned)
  {
    hide WellFormed, Acyclic, Ranked, Consistent, MayList, UpEdges, Layer;
    var rank := SomeRank(t);
    RanksCover(t, rank);
    var top := Top(t, rank);
    var listed := set r, dep | r in planned && env.depfile(r).Contents? && env.depfile(r).parsed.Deps?
                               && dep in env.depfile(r).parsed.ins :: Node(dep);
    var layers := map v | v in t.nodes + t.rules + listed :: Layer(t, d, rank, top, v);
    assert Ranked(t, layers) by {
      forall u, v | Step(UpEdges(t), u, v) ensures u in layers && v in layers && layers[u] < layers[v] {
        UpStep(t, u, v);
        LayerStep(t, d, rank, top, u, v);
      }
      LayersRank(t, layers);
    }
    forall r, dep | r in planned && env.depfile(r).Contents? && Matches(t, r, env.depfile(r).parsed)
                    && dep in env.depfile(r).parsed.ins
      ensures r in layers && Node(dep) in layers && layers[Node(dep)] < layers[r]
    {
      ListedLower(t, d, env, rank, top, r, dep);
    }
    assert Layered(t, env, planned, layers);
  }

  /** Sources at the bottom, then what is clean, then what is dirty. */
  ghost function Layer(t: Topology, d: set<Vertex>, rank: map<Vertex, nat>, top: nat, v: Vertex): nat {
    if (v in t.rules || v in t.child) && v in rank then rank[v] + 1 + (if v in d then top + 1 else 0) else 0
  }

  lemma LayersRank(t: Topology, layers: map<Vertex, nat>)
    requires t.nodes + t.rules <= layers.Keys
    requires forall u, v :: Step(UpEdges(t), u, v) ==> u in layers && v in layers && layers[u] < layers[v]
    ensures Ranked(t, layers)
  {
    hide UpEdges;
  }

  lemma LayerStep(t: Topology, d: set<Vertex>, rank: map<Vertex, nat>, top: nat, u: Vertex, v: Vertex)
    requires WellFormed(t) && Ranked(t, rank) && Consistent(t, d, {}) && Step(UpEdges(t), u, v)
    ensures Layer(t, d, rank, top, u) < Layer(t, d, rank, top, v)
  {
    hide WellFormed, Ranked, UpEdges;
    UpStep(t, u, v);
    RankStep(t, rank, u, v);
    if u in t.nodes {
      NodeShape(t, u);
    } else {
      RuleShape(t, u);
    }
  }

  lemma ListedLower(t: Topology, d: set<Vertex>, env: Environment, rank: map<Vertex, nat>, top: nat, r: Vertex,
                    dep: string)
    requires WellFormed(t) && Ranked(t, rank) && r in t.rules && r in d && MayList(t, d, env, r)
    requires forall v :: v in t.nodes + t.rules ==> v in rank && rank[v] <= top
    requires env.depfile(r).Contents? && Matches(t, r, env.depfile(r).parsed) && dep in env.depfile(r).parsed.ins
    ensures Layer(t, d, rank, top, Node(dep)) < Layer(t, d, rank, top, r)
  {
    hide WellFormed, Ranked, Matches, Reaches, NeedEdges;
    var n := Node(dep);
    RuleNotNode(t, n);
    if n in t.child {
      ChildIsNode(t, n);
      if n in d {
        NeedsBelow(t, d, rank, r, n);
      }
    }
  }

  /** What a rule needs lies below it. */
  lemma NeedsBelow(t: Topology, d: set<Vertex>, rank: map<Vertex, nat>, r: Vertex, n: Vertex)
    requires WellFormed(t) && Ranked(t, rank) && r in t.rules && n.Node? && Reaches(NeedEdges(t, d), r, n)
    ensures n in rank && r in rank && rank[n] < rank[r]
  {
    hide WellFormed, Ranked, Reaches, UpEdges;
    RanksCover(t, rank);
    var s := {r} + set v | v in t.nodes + t.rules && rank[v] < rank[r];
    forall u, v | u in s && Step(NeedEdges(t, d), u, v) ensures v in s {
      if u in t.child {
        ChildIsNode(t, u);
        NodeShape(t, u);
        RuleShape(t, v);
        RankStep(t, rank, v, u);
      } else {
        SameKeys(t);
        RuleShape(t, u);
        NodeShape(t, v);
        RankStep(t, rank, v, u);
      }
    }
    ClosedContains(NeedEdges(t, d), s, r, n);
    RuleShape(t, r);
  }

  /** Building takes nothing away but what it clears, and outputs stay where they are. */
  lemma {:induction false} LeftBuilt(t: Topology, env: Environment, log: seq<Action>, s: set<Vertex>, r: Vertex)
    requires r in BuiltRules(log)
    ensures Left(t, env, log, s) <= s && r !in Left(t, env, log, s)
    ensures r in t.outputs ==> Left(t, env, log, s) !! Range(t.outputs[r])
  {
    hide Reloaded, SourceInputs, Range;
    var before, a := log[..|log| - 1], log[|log| - 1];
    assert log == before + [a];
    LogLast(before, a);
    LeftInside(t, env, log, s);
    LeftInside(t, env, before, s);
    SameShape(t, env, log);
    if a == Built(r) {
      assert r in Cleared(Reloaded(t, env, log), r);
    } else {
      LeftBuilt(t, env, before, s, r);
    }
  }

  lemma {:induction false} LeftInside(t: Topology, env: Environment, log: seq<Action>, s: set<Vertex>)
    ensures Left(t, env, log, s) <= s
  {
    hide Reloaded, Cleared;
    if log != [] {
      LeftInside(t, env, log[..|log| - 1], s);
    }
  }

  /** Depfiles do not change what rules there are and what they produce. */
  lemma {:induction false} SameShape(t: Topology, env: Environment, log: seq<Action>)
    ensures var u := Reloaded(t, env, log);
            u.rules == t.rules && u.outputs == t.outputs && u.child == t.child && u.command == t.command
  {
    hide LoadsFrom, NewInputs;
    if log != [] {
      SameShape(t, env, log[..|log| - 1]);
    }
  }

  /** Without depfiles, what is left is what no built rule clears. */
  lemma {:induction false} LeftPlain(t: Topology, env: Environment, log: seq<Action>, s: set<Vertex>)
    requires (forall r :: env.depfile(r).NoDepfile?) && s <= t.nodes + t.rules
    ensures Left(t, env, log, s) == s - ClearedBy(t, BuiltRules(log))
  {
    hide Reloaded, Cleared;
    if log == [] {
      ClearedMore(t, {}, Node(""));
    } else {
      var before, a := log[..|log| - 1], log[|log| - 1];
      assert log == before + [a];
      LogLast(before, a);
      LeftPlain(t, env, before, s);
      NotReloaded(t, env, log);
      if a.Built? {
        ClearedMore(t, BuiltRules(before), a.rule);
      } else {
        assert BuiltRules(before) + {} == BuiltRules(before);
      }
    }
  }

  /** A plan made for some targets of a consistent graph is a build that can begin. */
  lemma PlanCanRun(b: GraphParallelBuilder, targets: set<Vertex>)
    requires Invariant(b.graph) && b.plan.graph == b.graph && b.numThreads >= 1
    requires b.origin == Origin(b.graph.topo, b.graph.dirty, b.graph.lazy, b.hashes.content, b.graph.stamp)
    requires b.start == b.graph.dirty
    requires b.plan.rules == Needed(b.graph.topo, b.graph.dirty, targets) && b.plan.numStarted == 0
    requires targets <= b.graph.topo.nodes
    requires b.plan.ready == Startable(b.graph.topo, b.graph.dirty, b.plan.rules)
    requires forall r :: r in b.plan.rules ==> NeedsMet(b.graph.topo, b.graph.dirty, b.plan.rules, r)
    requires ImplicitRoots(b.graph.topo) && Droppable(b.graph.topo, b.graph.dirty)
    requires DepfilesFit(b.graph.topo, b.graph.dirty, b.env, b.plan.rules)
    requires b.log == [] && b.running == {}
    ensures b.Valid()
  {
    hide WellFormed, Graph.Counted, Graph.Exact, Startable, Blockers, NeedsMet, Acyclic, Needed, Consistent,
         MayList, Droppable, ImplicitRoots, UsesDepfiles, Layers;
    var t, d := b.graph.topo, b.graph.dirty;
    assert StartedRules([]) == {} && BuiltRules([]) == {};
    assert b.plan.rules - {} == b.plan.rules;
    assert d == d - ClearedBy(t, {});
    DirtyInside(b.graph);
    NothingYet(t, b.env, b.plan.rules, b.numThreads);
    forall r | r in b.plan.rules
      ensures r in t.rules && r in d && forall o :: r in t.outputs && o in t.outputs[r] ==> o in d
    {
      NeededIsDirty(t, d, b.graph.lazy, targets, r);
    }
  }

  lemma NothingYet(t: Topology, env: Environment, planned: set<Vertex>, n: nat)
    ensures Timetable(t, env, planned, n, {}, [])
  {
    assert RunningRules([]) == {};
  }

  lemma DirtyInside(g: Graph)
    requires Invariant(g)
    ensures g.dirty <= g.topo.nodes + g.topo.rules
  {
  }

  lemma NeededIsDirty(t: Topology, d: set<Vertex>, lazy: set<Vertex>, targets: set<Vertex>, r: Vertex)
    requires WellFormed(t) && Consistent(t, d, lazy) && targets <= t.nodes && r in Needed(t, d, targets)
    ensures r in t.rules && r in d && forall o :: r in t.outputs && o in t.outputs[r] ==> o in d
  {
    hide WellFormed;
    var g := NeedEdges(t, d);
    var n :| n in targets && Reaches(g, n, r);
    RuleShape(t, r);
    NodeShape(t, n);
    var w := ReachesSplitLast(g, n, r);
    if w in t.child {
      ChildIsNode(t, w);
      NodeShape(t, w);
    }
    assert w in t.child && t.child[w] == r && w in d;
  }

  ghost function Sources(t: Topology, ins: seq<Vertex>): set<Vertex> {
    set i | i in ins && IsSource(t, i)
  }

  /** Counters do not depend on the state of sources and rules. */
  lemma SameWaits(t: Topology, d: set<Vertex>, v: Vertex)
    requires v !in t.child
    ensures Waits(t, d - {v}) == Waits(t, d)
  {
  }

  lemma RunningRule(t: Topology, start: set<Vertex>, d: set<Vertex>, planned: set<Vertex>,
                    started: set<Vertex>, built: set<Vertex>, r: Vertex)
    requires WellFormed(t) && Progress(t, start, d, planned, started, built) && r in started - built
    ensures r in t.rules && r in planned && planned <= t.rules && r in t.outputs
    ensures forall o :: o in t.outputs[r] ==> o in d
  {
    hide WellFormed;
    RuleShape(t, r);
  }

  lemma NotStartable(t: Topology, d: set<Vertex>, planned: set<Vertex>, started: set<Vertex>, r: Vertex)
    requires r in started
    ensures r !in Startable(t, d, planned - started)
  {
  }

  /** Handing out a startable rule: all planned producers of its inputs are already built. */
  lemma StartOne(t: Topology, start: set<Vertex>, d: set<Vertex>, planned: set<Vertex>,
                 started: set<Vertex>, built: set<Vertex>, log: seq<Action>, r: Vertex)
    requires WellFormed(t) && Progress(t, start, d, planned, started, built) && built == BuiltRules(log)
    requires r in Startable(t, d, planned - started)
    ensures r in planned && r !in started && r !in built
    ensures Progress(t, start, d, planned, started + {r}, built)
    ensures Startable(t, d, planned - (started + {r})) == Startable(t, d, planned - started) - {r}
    ensures ProducersBuilt(t, planned, log, r)
  {
    hide WellFormed, BuiltRules;
    RuleShape(t, r);
    forall i | i in t.inputs[r] && i in t.child && t.child[i] in planned ensures t.child[i] in built {
      NodeShape(t, i);
      assert i !in Blockers(t, d, r);
    }
  }

  lemma LogLast(log: seq<Action>, a: Action)
    ensures StartedRules(log + [a]) == StartedRules(log) + (if a.Start? then {a.rule} else {})
    ensures BuiltRules(log + [a]) == BuiltRules(log) + (if a.Built? then {a.rule} else {})
  {
  }
}
