/** The frame-stepped bird-and-pipes simulation as values: the world's state,
    one frame's transition `Step`, and what every transition preserves.
    Class `Game.GameState` performs the same transition in place and is
    proved equal to `Step`. */
module GameRules {
  import opened KotlinInt

  /** Vertical opening between the upper and the lower pipe of a pair. */
  const GapSize := 100
  /** Horizontal pipe velocity per frame. */
  const PipeVelX := -4
  const PlayerMaxVelY := 10
  const PlayerAccY := 1
  const PlayerFlapAcc := -9
  /** Per-frame advance of the ground strip's scroll offset. */
  const BaseScroll := 100
  /** Width of the window in which a pipe's midpoint counts as passed. */
  const ScoreWindow := 4
  /** Distance of the first pipe of a fresh world beyond the right edge. */
  const StartMargin := 100
  /** Distance of a newly spawned pipe beyond the right edge. */
  const SpawnMargin := 10
  /** Number of frames in one cycle of the cosmetic loop counter. */
  const LoopPeriod := 30

  const AliveReward: real := 0.1
  const PassReward: real := 1.0
  const CrashReward: real := -1.0

  /** One pipe sprite: its left edge and its top edge. */
  datatype Pipe = Pipe(x: int, y: int)

  /** An Android `Rect`: left, top, right, bottom. */
  datatype Rect = Rect(left: int, top: int, right: int, bottom: int)

  /** `Rect.intersects(a, b)`: the two rectangles share interior points. */
  predicate Intersects(a: Rect, b: Rect)
  {
    a.left < b.right && b.left < a.right && a.top < b.bottom && b.top < a.bottom
  }

  /** The constructor arguments of the game plus the four values the source
      derives from them with floating point: `playerX` (a fifth of the width),
      `groundY` (79% of the height), and the bounds `minY` and `maxY` of the
      random gap, `maxY` already lowered by `GapSize`. */
  datatype Config = Config(
    screenWidth: int, screenHeight: int,
    playerWidth: int, playerHeight: int,
    pipeWidth: int, pipeHeight: int,
    backgroundWidth: int, baseWidth: int,
    playerX: int, groundY: int, minY: int, maxY: int)
  {
    /** Width by which the ground strip wraps around. */
    function BaseShift(): int
    {
      if baseWidth > backgroundWidth then baseWidth - backgroundWidth else baseWidth
    }

    /** Sprite and screen sizes are positive, `Random.nextInt` gets a non-empty
        range, and the newest pipe cannot leave the screen before a newer one
        has been spawned (which keeps `upperPipes.last()` defined). */
    predicate Valid()
    {
      && screenWidth > 0 && screenHeight > 0
      && playerWidth > 0 && playerHeight > 0
      && pipeWidth > 0 && pipeHeight > 0
      && backgroundWidth > 0 && baseWidth > 0
      && minY + GapSize < maxY
      && SpawnThreshold() + PipeVelX >= -pipeWidth
    }

    /** Smallest gap value `Random.nextInt(minY + gapSize, maxY)` can return. */
    function GapLo(): int { minY + GapSize }
    /** Exclusive upper bound of the gap value. */
    function GapHi(): int { maxY }

    function StartX(): int { screenWidth + StartMargin }
    function SecondX(): int { StartX() + screenWidth / 2 + pipeWidth / 2 }
    function SpawnX(): int { screenWidth + SpawnMargin }
    /** A new pipe is spawned once the newest pipe is left of this x. */
    function SpawnThreshold(): int { screenWidth - screenWidth / 2 - pipeWidth / 2 }
    /** The player's y in a fresh world: vertically centred. */
    function StartY(): int { Div(screenHeight - playerHeight, 2) }
    function PlayerMid(): int { playerX + playerWidth / 2 }

    function PlayerRect(y: int): Rect
    {
      Rect(playerX, y, playerX + playerWidth, y + playerHeight)
    }

    function PipeRect(p: Pipe): Rect
    {
      Rect(p.x, p.y, p.x + pipeWidth, p.y + pipeHeight)
    }
  }

  /** The mutable fields of `GameState`. */
  datatype World = World(
    score: int, playerIndex: int, loopIter: int,
    playerY: int, baseX: int, playerVelY: int, playerFlapped: bool,
    upperPipes: seq<Pipe>, lowerPipes: seq<Pipe>)

  /** The random draws one frame may consume: one for a spawned pipe, two for
      the pipes of a reset world. */
  datatype Draws = Draws(spawn: int, first: int, second: int)
  {
    predicate InRange(cfg: Config)
    {
      && cfg.GapLo() <= spawn < cfg.GapHi()
      && cfg.GapLo() <= first < cfg.GapHi()
      && cfg.GapLo() <= second < cfg.GapHi()
    }
  }

  datatype StepResult = StepResult(world: World, reward: real, terminal: bool)

  // ----- pipes -------------------------------------------------------------

  /** The upper pipe `addPipe` builds for a gap value and an x. */
  function UpperPipe(cfg: Config, gapY: int, x: int): Pipe
  {
    Pipe(x, gapY - GapSize - cfg.pipeHeight)
  }

  /** The lower pipe `addPipe` builds: its top edge is the gap value. */
  function LowerPipe(gapY: int, x: int): Pipe
  {
    Pipe(x, gapY)
  }

  /** The upper and lower pipe at one index form a pair: same x, the gap of
      `GapSize` between them, and a gap value `Random.nextInt` can return. */
  predicate PipePair(cfg: Config, u: Pipe, l: Pipe)
  {
    && u.x == l.x
    && l.y - u.y == GapSize + cfg.pipeHeight
    && cfg.GapLo() <= l.y < cfg.GapHi()
  }

  predicate StrictlyAscending(ps: seq<Pipe>)
  {
    forall i, j :: 0 <= i < j < |ps| ==> ps[i].x < ps[j].x
  }

  /** The two pipe lists are parallel, paired and ordered by x. */
  predicate PairedAscending(cfg: Config, upper: seq<Pipe>, lower: seq<Pipe>)
  {
    && |upper| == |lower|
    && (forall i :: 0 <= i < |upper| ==> PipePair(cfg, upper[i], lower[i]))
    && StrictlyAscending(upper)
  }

  /** Parallel, paired and ordered pipe lists whose newest pipe has not yet
      passed the spawn threshold. */
  predicate PipesOk(cfg: Config, upper: seq<Pipe>, lower: seq<Pipe>)
  {
    && PairedAscending(cfg, upper, lower)
    && (|upper| > 0 ==> upper[|upper| - 1].x >= cfg.SpawnThreshold())
  }

  /** The cosmetic counters stay in their ranges. */
  predicate CountersOk(cfg: Config, w: World)
  {
    && 0 <= w.loopIter < LoopPeriod
    && 0 <= w.playerIndex <= 2
    && -cfg.BaseShift() < w.baseX <= 0
  }

  /** What holds of the world between two frames. */
  predicate Inv(cfg: Config, w: World)
  {
    && CountersOk(cfg, w)
    && PlayerFlapAcc <= w.playerVelY <= PlayerMaxVelY
    && !w.playerFlapped
    && PipesOk(cfg, w.upperPipes, w.lowerPipes)
  }

  /** Every pipe moved left by `PipeVelX`. */
  function Shifted(ps: seq<Pipe>): (r: seq<Pipe>)
    ensures |r| == |ps|
    ensures StrictlyAscending(ps) ==> StrictlyAscending(r)
    ensures |ps| > 0 ==> r[|r| - 1].x == ps[|ps| - 1].x + PipeVelX
  {
    seq(|ps|, i requires 0 <= i < |ps| => Pipe(ps[i].x + PipeVelX, ps[i].y))
  }

  // ----- the stages of one frame ----------------------------------------

  /** `reset()`: counters, score and velocity zero, player centred, and
      exactly two pipe pairs.  The flap flag is not touched. */
  function ResetWorld(cfg: Config, w: World, first: int, second: int): World
  {
    w.(score := 0, playerIndex := 0, loopIter := 0, playerY := cfg.StartY(),
       baseX := 0, playerVelY := 0,
       upperPipes := [UpperPipe(cfg, first, cfg.StartX()), UpperPipe(cfg, second, cfg.SecondX())],
       lowerPipes := [LowerPipe(first, cfg.StartX()), LowerPipe(second, cfg.SecondX())])
  }

  /** A flap is accepted only when requested and the player is not far above
      the screen. */
  predicate FlapAccepted(cfg: Config, w: World, flap: bool)
  {
    flap && w.playerY > -2 * cfg.playerHeight
  }

  function Flap(cfg: Config, w: World, flap: bool): World
  {
    if FlapAccepted(cfg, w, flap) then w.(playerVelY := PlayerFlapAcc, playerFlapped := true) else w
  }

  /** The player's midpoint lies in the passing window of this pipe. */
  predicate Passing(cfg: Config, p: Pipe)
  {
    var pipeMid := p.x + cfg.pipeWidth / 2;
    pipeMid <= cfg.PlayerMid() < pipeMid + ScoreWindow
  }

  /** Number of pipes the player is passing. */
  function PassedCount(cfg: Config, ps: seq<Pipe>): (n: nat)
    ensures n <= |ps|
  {
    if ps == [] then 0
    else PassedCount(cfg, ps[..|ps| - 1]) + (if Passing(cfg, ps[|ps| - 1]) then 1 else 0)
  }

  /** Score every pipe the player is passing. */
  function AddScore(cfg: Config, w: World): World
  {
    w.(score := w.score + PassedCount(cfg, w.upperPipes))
  }

  /** The animation frame advances 0, 1, 2, 1, 2, ... */
  function NextPlayerIndex(i: int): int
  {
    var n := Rem(i + 1, 4);
    if n == 3 then 1 else n
  }

  function AdvanceCounters(cfg: Config, w: World): World
    requires cfg.Valid()
  {
    w.(playerIndex := if Rem(w.loopIter + 1, 3) == 0 then NextPlayerIndex(w.playerIndex) else w.playerIndex,
       loopIter := Rem(w.loopIter + 1, LoopPeriod),
       baseX := -Rem(-w.baseX + BaseScroll, cfg.BaseShift()))
  }

  function Min(a: int, b: int): int
  {
    if a <= b then a else b
  }

  /** Gravity unless the player flapped this frame, then move by the velocity
      without sinking through the ground or rising above the screen. */
  function Fall(cfg: Config, w: World): World
  {
    var vy := if w.playerVelY < PlayerMaxVelY && !w.playerFlapped then w.playerVelY + PlayerAccY else w.playerVelY;
    var y := w.playerY + Min(vy, cfg.groundY - w.playerY - cfg.playerHeight);
    w.(playerVelY := vy, playerFlapped := false, playerY := if y < 0 then 0 else y)
  }

  /** The pipes are usable by `MovePipes`: parallel lists whose newest pipe has
      not yet passed the spawn threshold. */
  predicate PipesMovable(cfg: Config, w: World)
  {
    && |w.upperPipes| == |w.lowerPipes|
    && (|w.upperPipes| > 0 ==> w.upperPipes[|w.upperPipes| - 1].x >= cfg.SpawnThreshold())
  }

  /** Every pipe of both lists moved left by `PipeVelX`. */
  function ShiftPipes(w: World): World
  {
    w.(upperPipes := Shifted(w.upperPipes), lowerPipes := Shifted(w.lowerPipes))
  }

  /** The front pair has left the screen. */
  predicate DropsFront(cfg: Config, ps: seq<Pipe>)
  {
    |ps| > 0 && ps[0].x < -cfg.pipeWidth
  }

  /** `removeAt(0)` on both lists once the front pair has left the screen. */
  function DropGone(cfg: Config, w: World): World
    requires |w.upperPipes| == |w.lowerPipes|
  {
    if DropsFront(cfg, w.upperPipes) then w.(upperPipes := w.upperPipes[1..], lowerPipes := w.lowerPipes[1..]) else w
  }

  /** A new pair is due when no pipe is left or the newest one has passed the
      spawn threshold. */
  predicate SpawnDue(cfg: Config, w: World)
  {
    |w.upperPipes| == 0 || w.upperPipes[|w.upperPipes| - 1].x < cfg.SpawnThreshold()
  }

  /** Append a new pipe pair at `SpawnX` around the drawn gap value. */
  function Spawn(cfg: Config, w: World, gapY: int): World
  {
    w.(upperPipes := w.upperPipes + [UpperPipe(cfg, gapY, cfg.SpawnX())],
       lowerPipes := w.lowerPipes + [LowerPipe(gapY, cfg.SpawnX())])
  }

  /** Shift every pipe, drop the front pair when it has left the screen, and
      spawn a pair at `SpawnX` when one is due.  When the lists were not empty
      the newest pipe is read after the drop, so `PipesMovable` is what keeps
      that read defined. */
  function MovePipes(cfg: Config, w: World, gapY: int): World
    requires cfg.Valid() && PipesMovable(cfg, w)
  {
    var w1 := DropGone(cfg, ShiftPipes(w));
    if SpawnDue(cfg, w1) then Spawn(cfg, w1, gapY) else w1
  }

  predicate GroundHit(cfg: Config, y: int)
  {
    y + cfg.playerHeight >= cfg.groundY - 1
  }

  /** The player's box overlaps the upper or the lower pipe of this pair. */
  predicate PairHit(cfg: Config, y: int, u: Pipe, l: Pipe)
  {
    Intersects(cfg.PlayerRect(y), cfg.PipeRect(u)) || Intersects(cfg.PlayerRect(y), cfg.PipeRect(l))
  }

  predicate PipeHit(cfg: Config, w: World)
  {
    exists i :: 0 <= i < |w.upperPipes| && i < |w.lowerPipes| && PairHit(cfg, w.playerY, w.upperPipes[i], w.lowerPipes[i])
  }

  /** The world after every stage of `frameStep` up to the terminal test. */
  function Advance(cfg: Config, w: World, flap: bool, spawnGap: int): World
    requires cfg.Valid() && PipesMovable(cfg, w)
  {
    MovePipes(cfg, Fall(cfg, AdvanceCounters(cfg, AddScore(cfg, Flap(cfg, w, flap)))), spawnGap)
  }

  /** `frameStep`: one frame of the game, with the random gap values supplied
      by `d`. */
  function Step(cfg: Config, w: World, flap: bool, d: Draws): StepResult
    requires cfg.Valid() && PipesMovable(cfg, w)
  {
    var reward := if PassedCount(cfg, w.upperPipes) > 0 then PassReward else AliveReward;
    var w5 := Advance(cfg, w, flap, d.spawn);
    if GroundHit(cfg, w5.playerY) || PipeHit(cfg, w5) then
      StepResult(ResetWorld(cfg, w5, d.first, d.second), CrashReward, true)
    else
      StepResult(w5, reward, false)
  }

  // ----- properties ------------------------------------------------------

  /** A reset world satisfies the invariant. */
  lemma ResetEstablishesInv(cfg: Config, w: World, first: int, second: int)
    requires cfg.Valid() && !w.playerFlapped
    requires cfg.GapLo() <= first < cfg.GapHi() && cfg.GapLo() <= second < cfg.GapHi()
    ensures Inv(cfg, ResetWorld(cfg, w, first, second))
    ensures |ResetWorld(cfg, w, first, second).upperPipes| == 2
  {
    assert cfg.screenWidth / 2 + cfg.pipeWidth / 2 > 0;
  }

  /** There is a pipe being passed exactly when the count is positive. */
  lemma {:induction false} PassedCountPositive(cfg: Config, ps: seq<Pipe>)
    ensures PassedCount(cfg, ps) > 0 <==> exists i :: 0 <= i < |ps| && Passing(cfg, ps[i])
  {
    if ps != [] {
      var init := ps[..|ps| - 1];
      PassedCountPositive(cfg, init);
      if exists i :: 0 <= i < |init| && Passing(cfg, init[i]) {
        var i :| 0 <= i < |init| && Passing(cfg, init[i]);
        assert ps[i] == init[i];
      }
      if exists i :: 0 <= i < |ps| && Passing(cfg, ps[i]) {
        var i :| 0 <= i < |ps| && Passing(cfg, ps[i]);
        if i < |ps| - 1 {
          assert init[i] == ps[i];
        }
      }
    }
  }

  /** The cosmetic counters stay in range across a frame. */
  lemma CountersStayBounded(cfg: Config, w: World)
    requires cfg.Valid() && CountersOk(cfg, w)
    ensures CountersOk(cfg, AdvanceCounters(cfg, w))
  {
  }

  /** Falling keeps the player on screen: never above the top, and never
      below the ground when the player fits above it. */
  lemma FallClamps(cfg: Config, w: World)
    ensures 0 <= Fall(cfg, w).playerY
    ensures cfg.groundY >= cfg.playerHeight ==> Fall(cfg, w).playerY + cfg.playerHeight <= cfg.groundY
    ensures !Fall(cfg, w).playerFlapped
  {
  }

  lemma ShiftKeepsPairedAscending(cfg: Config, u: seq<Pipe>, l: seq<Pipe>)
    requires PairedAscending(cfg, u, l)
    ensures PairedAscending(cfg, Shifted(u), Shifted(l))
  {
  }

  lemma DropFrontKeepsPairedAscending(cfg: Config, u: seq<Pipe>, l: seq<Pipe>)
    requires PairedAscending(cfg, u, l) && |u| > 0
    ensures PairedAscending(cfg, u[1..], l[1..])
  {
  }

  lemma SpawnKeepsPairedAscending(cfg: Config, u: seq<Pipe>, l: seq<Pipe>, gapY: int, x: int)
    requires PairedAscending(cfg, u, l) && (|u| > 0 ==> u[|u| - 1].x < x)
    requires cfg.GapLo() <= gapY < cfg.GapHi()
    ensures PairedAscending(cfg, u + [UpperPipe(cfg, gapY, x)], l + [LowerPipe(gapY, x)])
  {
    var u2 := u + [UpperPipe(cfg, gapY, x)];
    var l2 := l + [LowerPipe(gapY, x)];
    assert forall i :: 0 <= i < |u| ==> u2[i] == u[i] && l2[i] == l[i];
    assert PipePair(cfg, u2[|u|], l2[|u|]);
  }

  /** Moving the pipes keeps them parallel, paired, ordered by x, and the
      newest pipe at or beyond the spawn threshold. */
  lemma ShiftDropKeepsPairedAscending(cfg: Config, w: World)
    requires PairedAscending(cfg, w.upperPipes, w.lowerPipes)
    ensures PairedAscending(cfg, DropGone(cfg, ShiftPipes(w)).upperPipes, DropGone(cfg, ShiftPipes(w)).lowerPipes)
  {
    var w0 := ShiftPipes(w);
    ShiftKeepsPairedAscending(cfg, w.upperPipes, w.lowerPipes);
    if DropsFront(cfg, w0.upperPipes) {
      DropFrontKeepsPairedAscending(cfg, w0.upperPipes, w0.lowerPipes);
    }
  }

  lemma MovePipesKeepsPipesOk(cfg: Config, w: World, gapY: int)
    requires cfg.Valid() && PipesOk(cfg, w.upperPipes, w.lowerPipes)
    requires cfg.GapLo() <= gapY < cfg.GapHi()
    ensures PipesOk(cfg, MovePipes(cfg, w, gapY).upperPipes, MovePipes(cfg, w, gapY).lowerPipes)
  {
    ShiftDropKeepsPairedAscending(cfg, w);
    var w1 := DropGone(cfg, ShiftPipes(w));
    if SpawnDue(cfg, w1) {
      SpawnKeepsPairedAscending(cfg, w1.upperPipes, w1.lowerPipes, gapY, cfg.SpawnX());
    }
  }

  /** How `MovePipes` changes the pipe list: the kept pipes are the old ones
      shifted by `PipeVelX`, at most the front one is gone, and at most one
      pipe is appended, at `SpawnX`, exactly when the list would otherwise be
      empty or its newest pipe has passed the spawn threshold. */
  lemma MovePipesShape(cfg: Config, w: World, gapY: int)
    requires cfg.Valid() && PipesMovable(cfg, w)
    ensures var r := MovePipes(cfg, w, gapY).upperPipes;
            var n := |w.upperPipes|;
            var dropped := if DropsFront(cfg, Shifted(w.upperPipes)) then 1 else 0;
            var kept := n - dropped;
            && kept <= |r| <= kept + 1
            && (forall i :: 0 <= i < kept ==> r[i] == Pipe(w.upperPipes[i + dropped].x + PipeVelX, w.upperPipes[i + dropped].y))
            && (|r| == kept + 1 <==> (kept == 0 || w.upperPipes[n - 1].x + PipeVelX < cfg.SpawnThreshold()))
            && (|r| == kept + 1 ==> r[kept] == UpperPipe(cfg, gapY, cfg.SpawnX()))
            && (dropped == 1 ==> n >= 2)
  {
    var n := |w.upperPipes|;
    if n == 1 {
      assert w.upperPipes[0].x >= cfg.SpawnThreshold();
    }
  }

  /** The reward of a frame is one of three values; it is the crash reward
      exactly on a terminal frame, and the pass reward exactly when the frame
      is not terminal and the player passes some pipe. */
  lemma StepReward(cfg: Config, w: World, flap: bool, d: Draws)
    requires cfg.Valid() && PipesMovable(cfg, w)
    ensures var r := Step(cfg, w, flap, d);
            && (r.reward == AliveReward || r.reward == PassReward || r.reward == CrashReward)
            && (r.reward == CrashReward <==> r.terminal)
            && (r.reward == PassReward <==>
                  !r.terminal && exists i :: 0 <= i < |w.upperPipes| && Passing(cfg, w.upperPipes[i]))
  {
    PassedCountPositive(cfg, w.upperPipes);
  }

  /** A non-terminal frame adds the number of passed pipes to the score, so the
      score never decreases within an episode; a terminal frame leaves the
      world as `reset()` makes it. */
  lemma StepScore(cfg: Config, w: World, flap: bool, d: Draws)
    requires cfg.Valid() && PipesMovable(cfg, w)
    ensures var r := Step(cfg, w, flap, d);
            && (!r.terminal ==> r.world.score == w.score + PassedCount(cfg, w.upperPipes) >= w.score)
            && (r.terminal ==> r.world.score == 0 && |r.world.upperPipes| == 2 && |r.world.lowerPipes| == 2)
            && (r.terminal ==> r.world == ResetWorld(cfg, Advance(cfg, w, flap, d.spawn), d.first, d.second))
  {
  }

  /** The frame is terminal exactly when, after moving, the player touches the
      ground line or overlaps one of the moved pipes. */
  lemma StepTerminal(cfg: Config, w: World, flap: bool, d: Draws)
    requires cfg.Valid() && PipesMovable(cfg, w)
    ensures var a := Advance(cfg, w, flap, d.spawn);
            Step(cfg, w, flap, d).terminal <==>
              (GroundHit(cfg, a.playerY)
               || exists i :: 0 <= i < |a.upperPipes| && i < |a.lowerPipes| &&
                    (Intersects(cfg.PlayerRect(a.playerY), cfg.PipeRect(a.upperPipes[i])) ||
                     Intersects(cfg.PlayerRect(a.playerY), cfg.PipeRect(a.lowerPipes[i]))))
  {
  }

  /** The player's motion in a frame: an accepted flap sets the velocity to
      `PlayerFlapAcc` and skips gravity; otherwise gravity adds `PlayerAccY`
      below the maximum.  On a frame that is not terminal the player ends on
      screen and above the ground line, and the flap flag is clear. */
  lemma StepKinematics(cfg: Config, w: World, flap: bool, d: Draws)
    requires cfg.Valid() && Inv(cfg, w)
    ensures var r := Step(cfg, w, flap, d);
            !r.terminal ==>
              && r.world.playerVelY == (if FlapAccepted(cfg, w, flap) then PlayerFlapAcc
                                        else if w.playerVelY < PlayerMaxVelY then w.playerVelY + PlayerAccY
                                        else w.playerVelY)
              && !r.world.playerFlapped
              && 0 <= r.world.playerY
              && r.world.playerY + cfg.playerHeight < cfg.groundY - 1
  {
    FallClamps(cfg, AdvanceCounters(cfg, AddScore(cfg, Flap(cfg, w, flap))));
  }

  /** The stages before the terminal test keep the invariant. */
  lemma AdvanceKeepsInv(cfg: Config, w: World, flap: bool, gapY: int)
    requires cfg.Valid() && Inv(cfg, w) && cfg.GapLo() <= gapY < cfg.GapHi()
    ensures Inv(cfg, Advance(cfg, w, flap, gapY))
  {
    var w2 := AddScore(cfg, Flap(cfg, w, flap));
    CountersStayBounded(cfg, w2);
    var w4 := Fall(cfg, AdvanceCounters(cfg, w2));
    assert CountersOk(cfg, w4) && !w4.playerFlapped;
    assert PlayerFlapAcc <= w4.playerVelY <= PlayerMaxVelY;
    MovePipesKeepsPipesOk(cfg, w4, gapY);
  }

  /** Every frame preserves the invariant, whatever the action and the draws. */
  lemma StepPreservesInv(cfg: Config, w: World, flap: bool, d: Draws)
    requires cfg.Valid() && Inv(cfg, w) && d.InRange(cfg)
    ensures Inv(cfg, Step(cfg, w, flap, d).world)
  {
    AdvanceKeepsInv(cfg, w, flap, d.spawn);
    ResetEstablishesInv(cfg, Advance(cfg, w, flap, d.spawn), d.first, d.second);
  }

  /** The world after a sequence of frames, with one action and one set of
      draws per frame; the invariant holds after any number of frames. */
  function Run(cfg: Config, w: World, flaps: seq<bool>, draws: seq<Draws>): (r: World)
    requires cfg.Valid() && Inv(cfg, w) && |flaps| == |draws|
    requires forall i :: 0 <= i < |draws| ==> draws[i].InRange(cfg)
    ensures Inv(cfg, r)
    decreases |flaps|
  {
    if flaps == [] then w
    else
      StepPreservesInv(cfg, w, flaps[0], draws[0]);
      Run(cfg, Step(cfg, w, flaps[0], draws[0]).world, flaps[1..], draws[1..])
  }
}
