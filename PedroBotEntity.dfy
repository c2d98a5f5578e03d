/**
 * The simulated robot that follows a path chain: each tick maps the elapsed time
 * to a path of the chain, tells the chain's render cache which path is current,
 * and places the robot at the eased point of that path. Also the builder that
 * configures and creates the robot.
 */
module PedroBot {
  import opened Foreign
  import opened PathChainRendering

  /** The number of ticks skipped after start-up before time starts to advance (`SKIP_LOOPS`). */
  const SkipLoops: int := 2

  /** The fields of a `PedroBotEntity` that `update` and `followPath` read and write. */
  datatype BotState = BotState(
    chain: Option<PathChain>,
    executing: bool,
    elapsed: real,
    paused: bool,
    looping: bool,
    skippedLoops: int,
    pose: Pose)

  /** The state after one tick, and the path passed to `updateCurrentPath`, if any. */
  datatype TickResult = TickResult(state: BotState, shown: Option<Path>)

  /** A tick does anything at all only while a chain is being executed. */
  predicate Active(s: BotState) {
    s.executing && s.chain.Some?
  }

  /** The elapsed time after a tick that passed the warm-up: advanced by `deltaTime` nanoseconds unless paused. */
  function AdvancedElapsed(s: BotState, deltaTime: int): real {
    if !s.paused then s.elapsed + deltaTime as real / NanosPerSecond else s.elapsed
  }

  /** Which path of the chain `elapsed` falls in: `(elapsed / timePerPath).toInt()`. */
  function SegmentIndex(elapsed: real, timePerPath: real): (k: int)
    requires timePerPath > 0.0
    ensures IsInt32(k)
  {
    ToInt(elapsed / timePerPath)
  }

  /**
   * For non-negative time within the `Int` range, path k covers `[k*T, k*T + T)`;
   * beyond that range the index saturates at `Int.MAX_VALUE`. Time in `(-T, T)` is in
   * path 0, and time at or below `-T` has a negative index.
   */
  lemma SegmentIndexBounds(elapsed: real, timePerPath: real)
    requires timePerPath > 0.0
    ensures var k := SegmentIndex(elapsed, timePerPath);
      && (0.0 <= elapsed ==> 0 <= k && k as real * timePerPath <= elapsed)
      && (0.0 <= elapsed && elapsed / timePerPath < Int32Max as real + 1.0 ==>
            elapsed - k as real * timePerPath < timePerPath)
      && (Int32Max as real + 1.0 <= elapsed / timePerPath ==> k == Int32Max)
      && (-timePerPath < elapsed < timePerPath ==> k == 0)
      && (elapsed <= -timePerPath ==> k < 0)
  {
    var k := SegmentIndex(elapsed, timePerPath);
    QuotientBounds(elapsed, timePerPath);
    if 0.0 <= elapsed {
      RemScaled(elapsed, timePerPath, k as real);
      QuotientBounds(elapsed - timePerPath * k as real, timePerPath);
      if elapsed / timePerPath < Int32Max as real + 1.0 {
        RemBelow(elapsed, timePerPath, k as real);
      }
    }
  }

  /** The argument of the easing function: `(elapsed % timePerPath) / timePerPath`. */
  function Progress(elapsed: real, timePerPath: real): real
    requires timePerPath > 0.0
  {
    Rem(elapsed, timePerPath) / timePerPath
  }

  /**
   * The easing argument is in `[0, 1)` for non-negative time, where (within the `Int`
   * range of indices) it is the fraction of the current path's time already spent;
   * for negative time it is in `(-1, 0]`.
   */
  lemma ProgressBounds(elapsed: real, timePerPath: real)
    requires timePerPath > 0.0
    ensures 0.0 <= elapsed ==> 0.0 <= Progress(elapsed, timePerPath) < 1.0
    ensures 0.0 <= elapsed && elapsed / timePerPath < Int32Max as real + 1.0 ==>
      Progress(elapsed, timePerPath)
        == (elapsed - SegmentIndex(elapsed, timePerPath) as real * timePerPath) / timePerPath
    ensures elapsed < 0.0 ==> -1.0 < Progress(elapsed, timePerPath) <= 0.0
  {
    RemBounds(elapsed, timePerPath);
    RemScaled(elapsed, timePerPath, SegmentIndex(elapsed, timePerPath) as real);
    QuotientBounds(Rem(elapsed, timePerPath), timePerPath);
  }

  /** The pose at eased progress `t` along `path`. */
  function PoseOn(g: Geometry, path: Path, t: real): Pose {
    Pose(g.point(path, t).x, g.point(path, t).y, g.headingGoal(path, t))
  }

  /** One `update(deltaTime)`. */
  function Tick(g: Geometry, timePerPath: real, s: BotState, deltaTime: int): (r: TickResult)
    requires timePerPath > 0.0 && IsInt32(s.skippedLoops)
    ensures IsInt32(r.state.skippedLoops)
    ensures !Active(s) ==> r == TickResult(s, None)
    ensures Active(s) ==> r.state.skippedLoops == Inc32(s.skippedLoops)
    ensures r.state.chain == s.chain && r.state.paused == s.paused && r.state.looping == s.looping
    ensures r.state.executing ==> s.executing
    ensures r.shown.None? ==> r.state.pose == s.pose
    ensures r.shown.Some? ==> s.chain.Some? && r.shown.value in s.chain.value.paths
    ensures 0.0 <= s.elapsed && 0 <= deltaTime ==> 0.0 <= r.state.elapsed
  {
    if !s.executing || s.chain.None? then TickResult(s, None)
    else
      var counted := s.(skippedLoops := Inc32(s.skippedLoops));
      if s.skippedLoops < SkipLoops then TickResult(counted, None)
      else
        var elapsed := AdvancedElapsed(s, deltaTime);
        var index := SegmentIndex(elapsed, timePerPath);
        if index < 0 || index >= s.chain.value.Size() then
          TickResult(counted.(elapsed := 0.0, executing := if s.looping then s.executing else false), None)
        else
          var path := s.chain.value.GetPath(index);
          var t := g.ease(Progress(elapsed, timePerPath));
          TickResult(counted.(elapsed := elapsed, pose := PoseOn(g, path, t)), Some(path))
  }

  /** `followPath(chain)`: a new chain, executing, elapsed time back to 0; the warm-up counter is kept. */
  function AfterFollowPath(s: BotState, chain: PathChain): (r: BotState)
    ensures r.chain == Some(chain) && r.executing && r.elapsed == 0.0
    ensures r.paused == s.paused && r.looping == s.looping && r.skippedLoops == s.skippedLoops && r.pose == s.pose
  {
    s.(chain := Some(chain), executing := true, elapsed := 0.0)
  }

  /** The ticks `deltaTimes`, one after another. */
  function Run(g: Geometry, timePerPath: real, s: BotState, deltaTimes: seq<int>): (r: BotState)
    requires timePerPath > 0.0 && IsInt32(s.skippedLoops)
    ensures IsInt32(r.skippedLoops)
    decreases |deltaTimes|
  {
    if deltaTimes == [] then s
    else Run(g, timePerPath, Tick(g, timePerPath, s, deltaTimes[0]).state, deltaTimes[1..])
  }

  /** While the counter is below `SKIP_LOOPS`, a tick only increments it. */
  lemma WarmupTick(g: Geometry, timePerPath: real, s: BotState, deltaTime: int)
    requires timePerPath > 0.0 && IsInt32(s.skippedLoops)
    requires Active(s) && s.skippedLoops < SkipLoops
    ensures Tick(g, timePerPath, s, deltaTime) == TickResult(s.(skippedLoops := s.skippedLoops + 1), None)
  {
  }

  /**
   * After the warm-up, with `elapsed` the time advanced unless paused: when it falls in
   * path k of the chain, the cache is shown path k, the elapsed time is kept and the pose
   * is the point and heading of path k at the eased progress within it.
   */
  lemma TickInRange(g: Geometry, timePerPath: real, s: BotState, deltaTime: int)
    requires timePerPath > 0.0 && IsInt32(s.skippedLoops)
    requires Active(s) && SkipLoops <= s.skippedLoops
    requires var k := SegmentIndex(AdvancedElapsed(s, deltaTime), timePerPath); 0 <= k < s.chain.value.Size()
    ensures var elapsed := AdvancedElapsed(s, deltaTime);
      var k := SegmentIndex(elapsed, timePerPath);
      var r := Tick(g, timePerPath, s, deltaTime);
      && r.shown == Some(s.chain.value.paths[k])
      && r.state == s.(skippedLoops := Inc32(s.skippedLoops), elapsed := elapsed,
                       pose := PoseOn(g, s.chain.value.paths[k], g.ease(Progress(elapsed, timePerPath))))
      && (0.0 <= elapsed ==> 0.0 <= Progress(elapsed, timePerPath) < 1.0)
      && (0.0 <= elapsed ==> k as real * timePerPath <= elapsed)
      && (s.paused ==> elapsed == s.elapsed)
      && (!s.paused ==> elapsed == s.elapsed + deltaTime as real / NanosPerSecond)
  {
    SegmentIndexBounds(AdvancedElapsed(s, deltaTime), timePerPath);
    ProgressBounds(AdvancedElapsed(s, deltaTime), timePerPath);
  }

  /**
   * After the warm-up, when the time falls outside the chain (always so for an empty
   * chain): the elapsed time is zeroed whether or not the bot loops, nothing is shown,
   * the pose is kept, and execution stops exactly when not looping.
   */
  lemma TickExhausted(g: Geometry, timePerPath: real, s: BotState, deltaTime: int)
    requires timePerPath > 0.0 && IsInt32(s.skippedLoops)
    requires Active(s) && SkipLoops <= s.skippedLoops
    requires var k := SegmentIndex(AdvancedElapsed(s, deltaTime), timePerPath); k < 0 || k >= s.chain.value.Size()
    ensures var r := Tick(g, timePerPath, s, deltaTime);
      && r.shown.None?
      && r.state == s.(skippedLoops := Inc32(s.skippedLoops), elapsed := 0.0, executing := s.looping)
  {
  }

  /** An empty chain is exhausted on every tick after the warm-up. */
  lemma EmptyChainExhausted(g: Geometry, timePerPath: real, s: BotState, deltaTime: int)
    requires timePerPath > 0.0 && IsInt32(s.skippedLoops)
    requires Active(s) && SkipLoops <= s.skippedLoops && s.chain.value.paths == []
    ensures Tick(g, timePerPath, s, deltaTime).shown.None?
    ensures Tick(g, timePerPath, s, deltaTime).state.elapsed == 0.0
    ensures Tick(g, timePerPath, s, deltaTime).state.executing == s.looping
  {
  }

  /** Once the bot has stopped, no number of ticks changes anything. */
  lemma {:induction false} StoppedStaysStopped(g: Geometry, timePerPath: real, s: BotState, deltaTimes: seq<int>)
    requires timePerPath > 0.0 && IsInt32(s.skippedLoops)
    requires !Active(s)
    ensures Run(g, timePerPath, s, deltaTimes) == s
    decreases |deltaTimes|
  {
    if deltaTimes != [] {
      StoppedStaysStopped(g, timePerPath, s, deltaTimes[1..]);
    }
  }

  /** With non-negative deltas the elapsed time never becomes negative. */
  lemma {:induction false} ElapsedStaysNonNegative(g: Geometry, timePerPath: real, s: BotState, deltaTimes: seq<int>)
    requires timePerPath > 0.0 && IsInt32(s.skippedLoops)
    requires 0.0 <= s.elapsed && forall i :: 0 <= i < |deltaTimes| ==> 0 <= deltaTimes[i]
    ensures 0.0 <= Run(g, timePerPath, s, deltaTimes).elapsed
    decreases |deltaTimes|
  {
    if deltaTimes != [] {
      var next := Tick(g, timePerPath, s, deltaTimes[0]).state;
      assert forall i :: 0 <= i < |deltaTimes[1..]| ==> 0 <= deltaTimes[1..][i] by {
        forall i | 0 <= i < |deltaTimes[1..]| ensures 0 <= deltaTimes[1..][i] {
          assert deltaTimes[1..][i] == deltaTimes[i + 1];
        }
      }
      ElapsedStaysNonNegative(g, timePerPath, next, deltaTimes[1..]);
    }
  }

  /**
   * The warm-up happens once: once the counter has reached `SKIP_LOOPS` it stays at or
   * above it (for as long as it does not wrap around) and never falls, whatever the ticks do.
   */
  lemma {:induction false} WarmupNotRepeated(g: Geometry, timePerPath: real, s: BotState, deltaTimes: seq<int>)
    requires timePerPath > 0.0 && IsInt32(s.skippedLoops)
    requires SkipLoops <= s.skippedLoops && s.skippedLoops + |deltaTimes| <= Int32Max
    ensures s.skippedLoops <= Run(g, timePerPath, s, deltaTimes).skippedLoops <= s.skippedLoops + |deltaTimes|
    decreases |deltaTimes|
  {
    if deltaTimes != [] {
      var next := Tick(g, timePerPath, s, deltaTimes[0]).state;
      assert s.skippedLoops <= next.skippedLoops <= s.skippedLoops + 1;
      WarmupNotRepeated(g, timePerPath, next, deltaTimes[1..]);
    }
  }

  /**
   * `followPath` does not restart the warm-up: once it is over, the first tick after a
   * new `followPath` already advances the time and shows a path.
   */
  lemma FollowPathKeepsWarmup(g: Geometry, timePerPath: real, s: BotState, chain: PathChain, deltaTime: int)
    requires timePerPath > 0.0 && IsInt32(s.skippedLoops)
    requires SkipLoops <= s.skippedLoops && !s.paused && chain.paths != []
    requires 0 <= deltaTime && (deltaTime as real / NanosPerSecond) < timePerPath
    ensures var r := Tick(g, timePerPath, AfterFollowPath(s, chain), deltaTime);
      r.shown == Some(chain.paths[0]) && r.state.elapsed == deltaTime as real / NanosPerSecond
  {
    SegmentIndexBounds(deltaTime as real / NanosPerSecond, timePerPath);
  }

  /**
   * After a looping bot has run off the end of its chain (elapsed zeroed), the next tick
   * that advances by less than one path's time shows the first path again.
   */
  lemma LoopRestartsAtFirstPath(g: Geometry, timePerPath: real, s: BotState, deltaTime: int)
    requires timePerPath > 0.0 && IsInt32(s.skippedLoops)
    requires Active(s) && SkipLoops <= s.skippedLoops && s.chain.value.paths != []
    requires s.elapsed == 0.0 && 0 <= deltaTime && (deltaTime as real / NanosPerSecond) < timePerPath
    ensures Tick(g, timePerPath, s, deltaTime).shown == Some(s.chain.value.paths[0])
  {
    SegmentIndexBounds(AdvancedElapsed(s, deltaTime), timePerPath);
  }

  /**
   * Kotlin's `Int` wraps: a tick at the largest counter value sends it to the smallest,
   * after which ticks are skipped again as warm-up ticks.
   */
  lemma CounterWraps(g: Geometry, timePerPath: real, s: BotState, deltaTime: int)
    requires timePerPath > 0.0 && IsInt32(s.skippedLoops)
    requires Active(s) && s.skippedLoops == Int32Max
    ensures var next := Tick(g, timePerPath, s, deltaTime).state;
      next.skippedLoops == Int32Min &&
      (Active(next) ==> Tick(g, timePerPath, next, deltaTime) == TickResult(next.(skippedLoops := Int32Min + 1), None))
  {
  }

  /** The paths shown to the cache by the ticks `deltaTimes`, one entry per tick. */
  function Trace(g: Geometry, timePerPath: real, s: BotState, deltaTimes: seq<int>): (r: seq<Option<Path>>)
    requires timePerPath > 0.0 && IsInt32(s.skippedLoops)
    ensures |r| == |deltaTimes|
    decreases |deltaTimes|
  {
    if deltaTimes == [] then []
    else
      var step := Tick(g, timePerPath, s, deltaTimes[0]);
      [step.shown] + Trace(g, timePerPath, step.state, deltaTimes[1..])
  }

  /** A run is the trace of its single ticks: if each tick leads to the next state, the run ends in the last. */
  lemma {:induction false} RunFromSteps(g: Geometry, timePerPath: real, states: seq<BotState>,
                                        shown: seq<Option<Path>>, deltaTimes: seq<int>)
    requires timePerPath > 0.0
    requires |states| == |deltaTimes| + 1 && |shown| == |deltaTimes|
    requires forall i :: 0 <= i < |states| ==> IsInt32(states[i].skippedLoops)
    requires forall i :: 0 <= i < |deltaTimes| ==>
      Tick(g, timePerPath, states[i], deltaTimes[i]) == TickResult(states[i + 1], shown[i])
    ensures Trace(g, timePerPath, states[0], deltaTimes) == shown
    ensures Run(g, timePerPath, states[0], deltaTimes) == states[|deltaTimes|]
    decreases |deltaTimes|
  {
    if deltaTimes != [] {
      var rest := states[1..];
      assert forall i :: 0 <= i < |rest| ==> rest[i] == states[i + 1];
      RunFromSteps(g, timePerPath, rest, shown[1..], deltaTimes[1..]);
    }
  }

  /** Running `a` and then `b` is running `a + b`, and its trace is the two traces joined. */
  lemma {:induction false} RunAppend(g: Geometry, timePerPath: real, s: BotState, a: seq<int>, b: seq<int>)
    requires timePerPath > 0.0 && IsInt32(s.skippedLoops)
    ensures Run(g, timePerPath, s, a + b) == Run(g, timePerPath, Run(g, timePerPath, s, a), b)
    ensures Trace(g, timePerPath, s, a + b)
         == Trace(g, timePerPath, s, a) + Trace(g, timePerPath, Run(g, timePerPath, s, a), b)
    decreases |a|
  {
    if a == [] {
      assert a + b == b;
    } else {
      assert (a + b)[0] == a[0] && (a + b)[1..] == a[1..] + b;
      RunAppend(g, timePerPath, Tick(g, timePerPath, s, a[0]).state, a[1..], b);
    }
  }

  /** The state the two-path scenario below starts in, right after `followPath`. */
  function ScenarioStart(p0: Path, p1: Path, pose: Pose): BotState {
    AfterFollowPath(BotState(None, false, 0.0, false, false, 0, pose), PathChain([p0, p1]))
  }

  /** The scenario's first five ticks: two warm-up ticks, then 0.5 s, 1.0 s and 1.5 s on the first path. */
  lemma ScenarioFirstHalf(g: Geometry, p0: Path, p1: Path, pose: Pose)
    ensures var d := 500_000_000;
      && Trace(g, 2.0, ScenarioStart(p0, p1, pose), [d, d, d, d, d]) == [None, None, Some(p0), Some(p0), Some(p0)]
      && Run(g, 2.0, ScenarioStart(p0, p1, pose), [d, d, d, d, d])
         == ScenarioStart(p0, p1, pose).(skippedLoops := 5, elapsed := 1.5,
                                         pose := PoseOn(g, p0, g.ease(Progress(1.5, 2.0))))
  {
    var s0 := ScenarioStart(p0, p1, pose);
    var d := 500_000_000;
    var r0 := Tick(g, 2.0, s0, d);
    var r1 := Tick(g, 2.0, r0.state, d);
    var r2 := Tick(g, 2.0, r1.state, d);
    var r3 := Tick(g, 2.0, r2.state, d);
    var r4 := Tick(g, 2.0, r3.state, d);
    assert r0.shown == None && r0.state.skippedLoops == 1 && r0.state.elapsed == 0.0;
    assert r1.shown == None && r1.state.skippedLoops == 2 && r1.state.elapsed == 0.0;
    assert r2.state.elapsed == 0.5 && r2.shown == Some(p0);
    assert r3.state.elapsed == 1.0 && r3.shown == Some(p0);
    assert r4.state.elapsed == 1.5 && r4.shown == Some(p0);
    RunFromSteps(g, 2.0, [s0, r0.state, r1.state, r2.state, r3.state, r4.state],
                 [r0.shown, r1.shown, r2.shown, r3.shown, r4.shown], [d, d, d, d, d]);
  }

  /** The scenario's last five ticks: 2.0 s to 3.5 s on the second path, then at 4.0 s the chain is exhausted. */
  lemma ScenarioSecondHalf(g: Geometry, p0: Path, p1: Path, pose: Pose)
    ensures var d := 500_000_000;
      var mid := ScenarioStart(p0, p1, pose).(skippedLoops := 5, elapsed := 1.5,
                                              pose := PoseOn(g, p0, g.ease(Progress(1.5, 2.0))));
      && Trace(g, 2.0, mid, [d, d, d, d, d]) == [Some(p1), Some(p1), Some(p1), Some(p1), None]
      && !Run(g, 2.0, mid, [d, d, d, d, d]).executing && Run(g, 2.0, mid, [d, d, d, d, d]).elapsed == 0.0
  {
    var s0 := ScenarioStart(p0, p1, pose).(skippedLoops := 5, elapsed := 1.5,
                                           pose := PoseOn(g, p0, g.ease(Progress(1.5, 2.0))));
    var d := 500_000_000;
    var r5 := Tick(g, 2.0, s0, d);
    var r6 := Tick(g, 2.0, r5.state, d);
    var r7 := Tick(g, 2.0, r6.state, d);
    var r8 := Tick(g, 2.0, r7.state, d);
    var r9 := Tick(g, 2.0, r8.state, d);
    assert r5.state.elapsed == 2.0 && r5.shown == Some(p1);
    assert r6.state.elapsed == 2.5 && r6.shown == Some(p1);
    assert r7.state.elapsed == 3.0 && r7.shown == Some(p1);
    assert r8.state.elapsed == 3.5 && r8.shown == Some(p1);
    assert r9.shown == None && !r9.state.executing && r9.state.elapsed == 0.0;
    RunFromSteps(g, 2.0, [s0, r5.state, r6.state, r7.state, r8.state, r9.state],
                 [r5.shown, r6.shown, r7.shown, r8.shown, r9.shown], [d, d, d, d, d]);
  }

  /**
   * A chain of two paths, two seconds per path, ticks of half a second, not looping:
   * two warm-up ticks, three ticks on the first path (0.5 s to 1.5 s), four on the second
   * (2.0 s to 3.5 s), then at 4.0 s the chain is exhausted and the bot stops with its
   * elapsed time zeroed.
   */
  lemma TwoPathScenario(g: Geometry, p0: Path, p1: Path, pose: Pose)
    ensures var start := AfterFollowPath(BotState(None, false, 0.0, false, false, 0, pose), PathChain([p0, p1]));
      var d := 500_000_000;
      var dts := [d, d, d, d, d, d, d, d, d, d];
      && Trace(g, 2.0, start, dts)
         == [None, None, Some(p0), Some(p0), Some(p0), Some(p1), Some(p1), Some(p1), Some(p1), None]
      && !Run(g, 2.0, start, dts).executing && Run(g, 2.0, start, dts).elapsed == 0.0
  {
    var d := 500_000_000;
    var half := [d, d, d, d, d];
    ScenarioFirstHalf(g, p0, p1, pose);
    ScenarioSecondHalf(g, p0, p1, pose);
    RunAppend(g, 2.0, ScenarioStart(p0, p1, pose), half, half);
    assert half + half == [d, d, d, d, d, d, d, d, d, d];
  }

  /** The robot. Its `update` is what the host calls every frame. */
  class PedroBotEntity {
    const meepMeep: MeepMeep
    const constants: FollowerConstants
    const width: real
    const height: real
    const colorScheme: ColorScheme
    const opacity: real
    const timePerPath: real
    var pose: Pose
    var currentPathChain: Option<PathChain>
    var pathChainEntity: PathChainEntity?
    var looping: bool
    var isExecutingPath: bool
    var pathChainElapsedTime: real
    var isPathPaused: bool
    var skippedLoops: int

    ghost function State(): BotState
      reads this
    {
      BotState(currentPathChain, isExecutingPath, pathChainElapsedTime, isPathPaused, looping, skippedLoops, pose)
    }

    /** The counter is a Kotlin `Int`, and a chain always comes with a cache drawing that chain. */
    ghost predicate Valid()
      reads this, pathChainEntity
    {
      && IsInt32(skippedLoops)
      && (currentPathChain.Some? ==>
            && pathChainEntity != null
            && pathChainEntity.Valid()
            && pathChainEntity.pathChain == currentPathChain.value
            && pathChainEntity.meepMeep == meepMeep)
    }

    constructor (meepMeep: MeepMeep, constants: FollowerConstants, width: real, height: real, pose: Pose,
                 colorScheme: ColorScheme, opacity: real, timePerPath: real)
      ensures this.meepMeep == meepMeep && this.constants == constants && this.colorScheme == colorScheme
      ensures this.width == width && this.height == height && this.opacity == opacity && this.timePerPath == timePerPath
      ensures State() == BotState(None, false, 0.0, false, true, 0, pose)
      ensures pathChainEntity == null
      ensures Valid()
    {
      this.meepMeep := meepMeep;
      this.constants := constants;
      this.width := width;
      this.height := height;
      this.colorScheme := colorScheme;
      this.opacity := opacity;
      this.timePerPath := timePerPath;
      this.pose := Pose(pose.x, pose.y, pose.heading);
      currentPathChain := None;
      pathChainEntity := null;
      looping := true;
      isExecutingPath := false;
      pathChainElapsedTime := 0.0;
      isPathPaused := false;
      skippedLoops := 0;
    }

    method Update(deltaTime: int)
      requires Valid() && timePerPath > 0.0
      modifies this, pathChainEntity
      ensures Valid() && pathChainEntity == old(pathChainEntity)
      ensures State() == Tick(meepMeep.geo, timePerPath, old(State()), deltaTime).state
      ensures var shown := Tick(meepMeep.geo, timePerPath, old(State()), deltaTime).shown;
        && (shown.Some? ==>
              && pathChainEntity != null
              && pathChainEntity.State() == AfterUpdateCurrentPath(meepMeep.geo, old(pathChainEntity.State()), shown))
        && (shown.None? && pathChainEntity != null ==> pathChainEntity.State() == old(pathChainEntity.State()))
    {
      ghost var s0 := State();
      if !isExecutingPath || currentPathChain.None? {
        return;
      }

      var skipped := skippedLoops;
      skippedLoops := Inc32(skippedLoops);
      if skipped < SkipLoops {
        WarmupTick(meepMeep.geo, timePerPath, s0, deltaTime);
        return;
      }

      if !isPathPaused {
        pathChainElapsedTime := pathChainElapsedTime + deltaTime as real / NanosPerSecond;
      }

      var index := SegmentIndex(pathChainElapsedTime, timePerPath);
      if index < 0 || index >= currentPathChain.value.Size() {
        TickExhausted(meepMeep.geo, timePerPath, s0, deltaTime);
        pathChainElapsedTime := 0.0;
        if looping {
          // the sequence starts over
        } else {
          isExecutingPath := false;
        }
        return;
      }

      TickInRange(meepMeep.geo, timePerPath, s0, deltaTime);
      var path := currentPathChain.value.GetPath(index);
      pathChainEntity.UpdateCurrentPath(Some(path));

      var t := meepMeep.geo.ease(Rem(pathChainElapsedTime, timePerPath) / timePerPath);
      var position := meepMeep.geo.point(path, t);
      var heading := meepMeep.geo.headingGoal(path, t);
      pose := Pose(position.x, position.y, heading);
    }

    method FollowPath(pathChain: PathChain)
      requires Valid()
      modifies this
      ensures Valid()
      ensures State() == AfterFollowPath(old(State()), pathChain)
      ensures fresh(pathChainEntity) && pathChainEntity.pathChain == pathChain
      ensures pathChainEntity.State()
           == Initial(meepMeep.geo, pathChain, colorScheme, meepMeep.canvasWidth, meepMeep.canvasHeight)
    {
      currentPathChain := Some(pathChain);
      pathChainEntity := new PathChainEntity(meepMeep, pathChain, colorScheme);

      isExecutingPath := true;
      pathChainElapsedTime := 0.0;
    }
  }

  /** The builder's settings. */
  datatype BuilderConfig = BuilderConfig(
    constants: FollowerConstants,
    width: real,
    height: real,
    startPose: Pose,
    colorScheme: Option<ColorScheme>,
    opacity: real,
    timePerPath: real)

  /** The settings of a fresh builder. */
  const DefaultConfig := BuilderConfig(DefaultFollowerConstants, 18.0, 18.0, OriginPose, None, 0.8, 2.0)

  class PedroBotBuilder {
    const meepMeep: MeepMeep
    var constants: FollowerConstants
    var width: real
    var height: real
    var startPose: Pose
    var colorScheme: Option<ColorScheme>
    var opacity: real
    var timePerPath: real

    ghost function Config(): BuilderConfig
      reads this
    {
      BuilderConfig(constants, width, height, startPose, colorScheme, opacity, timePerPath)
    }

    constructor (meepMeep: MeepMeep)
      ensures this.meepMeep == meepMeep && Config() == DefaultConfig
    {
      this.meepMeep := meepMeep;
      constants := DefaultFollowerConstants;
      width := 18.0;
      height := 18.0;
      startPose := OriginPose;
      colorScheme := None;
      opacity := 0.8;
      timePerPath := 2.0;
    }

    method SetDimensions(width: real, height: real) returns (self: PedroBotBuilder)
      modifies this
      ensures self == this && Config() == old(Config()).(width := width, height := height)
    {
      this.width := width;
      this.height := height;
      return this;
    }

    method SetStartPose(pose: Pose) returns (self: PedroBotBuilder)
      modifies this
      ensures self == this && Config() == old(Config()).(startPose := pose)
    {
      this.startPose := pose;
      return this;
    }

    method SetConstants(constants: FollowerConstants) returns (self: PedroBotBuilder)
      modifies this
      ensures self == this && Config() == old(Config()).(constants := constants)
    {
      this.constants := constants;
      return this;
    }

    method SetColorScheme(scheme: ColorScheme) returns (self: PedroBotBuilder)
      modifies this
      ensures self == this && Config() == old(Config()).(colorScheme := Some(scheme))
    {
      this.colorScheme := Some(scheme);
      return this;
    }

    method SetTimePerPath(time: real) returns (self: PedroBotBuilder)
      modifies this
      ensures self == this && Config() == old(Config()).(timePerPath := time)
    {
      this.timePerPath := time;
      return this;
    }

    /** A robot with these settings; without a scheme of its own it takes the host's current theme. */
    method Build() returns (bot: PedroBotEntity)
      ensures fresh(bot) && bot.Valid() && bot.pathChainEntity == null
      ensures bot.meepMeep == meepMeep && bot.constants == constants
      ensures bot.width == width && bot.height == height && bot.opacity == opacity && bot.timePerPath == timePerPath
      ensures bot.colorScheme == if colorScheme.Some? then colorScheme.value else meepMeep.theme
      ensures bot.State() == BotState(None, false, 0.0, false, true, 0, startPose)
    {
      var scheme := if colorScheme.Some? then colorScheme.value else meepMeep.theme;
      bot := new PedroBotEntity(meepMeep, constants, width, height, startPose, scheme, opacity, timePerPath);
    }
  }
}
