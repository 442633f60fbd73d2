/** The game object: its fields are updated in place by `Reset` and
    `FrameStep`, and each method is proved to perform the transition that
    `GameRules` describes as a function on `World` values. */
module Game {
  import opened KotlinInt
  import opened GameRules

  class GameState {
    const cfg: Config

    var score: int
    var playerIndex: int
    var loopIter: int
    var playerY: int
    var baseX: int
    var playerVelY: int
    var playerFlapped: bool
    var upperPipes: seq<Pipe>
    var lowerPipes: seq<Pipe>

    /** The fields as a `World` value. */
    function AsWorld(): World
      reads this
    {
      World(score, playerIndex, loopIter, playerY, baseX, playerVelY, playerFlapped, upperPipes, lowerPipes)
    }

    ghost predicate Valid()
      reads this
    {
      cfg.Valid() && Inv(cfg, AsWorld())
    }

    /** A new game: the constructor starts the first episode by resetting. */
    constructor (cfg: Config)
      requires cfg.Valid()
      ensures Valid() && this.cfg == cfg
      ensures score == 0 && playerIndex == 0 && loopIter == 0 && baseX == 0 && playerVelY == 0
      ensures playerY == cfg.StartY() && !playerFlapped
      ensures |upperPipes| == 2 && upperPipes[0].x == cfg.StartX() && upperPipes[1].x == cfg.SecondX()
    {
      this.cfg := cfg;
      playerFlapped := false;
      new;
      ghost var first, second := Reset();
      ResetEstablishesInv(cfg, AsWorld(), first, second);
    }

    /** `getRandomPipe`: a gap value drawn from `[minY + gapSize, maxY)`,
        paired with the given x. */
    method RandomPipe(xPos: int) returns (gapY: int, x: int)
      requires cfg.Valid()
      ensures cfg.GapLo() <= gapY < cfg.GapHi() && x == xPos
    {
      gapY :| cfg.GapLo() <= gapY < cfg.GapHi();
      x := xPos;
    }

    /** `addPipe`: append one pipe pair around the gap value. */
    method AddPipe(gapY: int, x: int)
      modifies this`upperPipes, this`lowerPipes
      ensures upperPipes == old(upperPipes) + [UpperPipe(cfg, gapY, x)]
      ensures lowerPipes == old(lowerPipes) + [LowerPipe(gapY, x)]
    {
      var upperY := gapY - GapSize - cfg.pipeHeight;
      var lowerY := gapY;
      upperPipes := upperPipes + [Pipe(x, upperY)];
      lowerPipes := lowerPipes + [Pipe(x, lowerY)];
    }

    /** `reset()`; the two gap values drawn are returned as ghosts. */
    method Reset() returns (ghost first: int, ghost second: int)
      requires cfg.Valid()
      modifies this
      ensures cfg.GapLo() <= first < cfg.GapHi() && cfg.GapLo() <= second < cfg.GapHi()
      ensures AsWorld() == ResetWorld(cfg, old(AsWorld()), first, second)
    {
      score := 0;
      playerIndex := 0;
      loopIter := 0;
      playerY := Div(cfg.screenHeight - cfg.playerHeight, 2);
      baseX := 0;
      playerVelY := 0;
      upperPipes := [];
      lowerPipes := [];

      var startX := cfg.screenWidth + StartMargin;
      var gap1, x1 := RandomPipe(startX);
      var gap2, x2 := RandomPipe(startX + cfg.screenWidth / 2 + cfg.pipeWidth / 2);
      AddPipe(gap1, x1);
      AddPipe(gap2, x2);
      first, second := gap1, gap2;
    }

    /** The scoring loop of `frameStep`: one point for every upper pipe whose
        midpoint window holds the player's midpoint; the reward is the pass
        reward when there was one, the alive reward otherwise. */
    method ScorePipes() returns (reward: real)
      modifies this`score
      ensures score == old(score) + PassedCount(cfg, upperPipes)
      ensures reward == if PassedCount(cfg, upperPipes) > 0 then PassReward else AliveReward
    {
      reward := AliveReward;
      var playerMidPos := cfg.playerX + cfg.playerWidth / 2;
      var i := 0;
      while i < |upperPipes|
        invariant 0 <= i <= |upperPipes|
        invariant score == old(score) + PassedCount(cfg, upperPipes[..i])
        invariant reward == if PassedCount(cfg, upperPipes[..i]) > 0 then PassReward else AliveReward
      {
        var pipeMidPos := upperPipes[i].x + cfg.pipeWidth / 2;
        assert upperPipes[..i + 1][..i] == upperPipes[..i];
        if pipeMidPos <= playerMidPos && playerMidPos < pipeMidPos + ScoreWindow {
          score := score + 1;
          reward := PassReward;
        }
        i := i + 1;
      }
      assert upperPipes[..i] == upperPipes;
    }

    /** The index loop of `frameStep` that moves every pipe by `PipeVelX`. */
    method ShiftAllPipes()
      requires |upperPipes| == |lowerPipes|
      modifies this`upperPipes, this`lowerPipes
      ensures upperPipes == Shifted(old(upperPipes)) && lowerPipes == Shifted(old(lowerPipes))
    {
      var j := 0;
      while j < |upperPipes|
        invariant 0 <= j <= |upperPipes| == |lowerPipes| == |old(upperPipes)|
        invariant forall k :: 0 <= k < j ==> upperPipes[k] == Pipe(old(upperPipes)[k].x + PipeVelX, old(upperPipes)[k].y)
        invariant forall k :: 0 <= k < j ==> lowerPipes[k] == Pipe(old(lowerPipes)[k].x + PipeVelX, old(lowerPipes)[k].y)
        invariant forall k :: j <= k < |upperPipes| ==> upperPipes[k] == old(upperPipes)[k] && lowerPipes[k] == old(lowerPipes)[k]
      {
        upperPipes := upperPipes[j := Pipe(upperPipes[j].x + PipeVelX, upperPipes[j].y)];
        lowerPipes := lowerPipes[j := Pipe(lowerPipes[j].x + PipeVelX, lowerPipes[j].y)];
        j := j + 1;
      }
    }

    /** The animation stage of `frameStep`: the player's sprite index every
        third frame, the loop counter, and the ground strip's scroll offset. */
    method AdvanceCountersStep()
      requires cfg.Valid()
      modifies this`playerIndex, this`loopIter, this`baseX
      ensures AsWorld() == AdvanceCounters(cfg, old(AsWorld()))
    {
      if Rem(loopIter + 1, 3) == 0 {
        playerIndex := Rem(playerIndex + 1, 4);
        if playerIndex == 3 {
          playerIndex := 1;
        }
      }
      loopIter := Rem(loopIter + 1, LoopPeriod);
      baseX := -Rem(-baseX + BaseScroll, cfg.BaseShift());
    }

    /** The physics stage of `frameStep`: gravity unless the player just
        flapped, clear the flap flag, then move and clamp the player. */
    method ApplyGravity()
      modifies this`playerVelY, this`playerFlapped, this`playerY
      ensures AsWorld() == Fall(cfg, old(AsWorld()))
    {
      if playerVelY < PlayerMaxVelY && !playerFlapped {
        playerVelY := playerVelY + PlayerAccY;
      }
      if playerFlapped {
        playerFlapped := false;
      }
      playerY := playerY + Min(playerVelY, cfg.groundY - playerY - cfg.playerHeight);
      if playerY < 0 {
        playerY := 0;
      }
    }

    /** The pipe stage of `frameStep`: shift every pipe, drop the front pair
        once it has left the screen, and spawn a pair when one is due.  The
        gap value of a spawned pair is returned as a ghost. */
    method MoveAllPipes() returns (ghost spawnGap: int)
      requires cfg.Valid() && PipesMovable(cfg, AsWorld())
      modifies this`upperPipes, this`lowerPipes
      ensures cfg.GapLo() <= spawnGap < cfg.GapHi()
      ensures AsWorld() == MovePipes(cfg, old(AsWorld()), spawnGap)
    {
      ghost var w := AsWorld();
      spawnGap := cfg.GapLo();
      ShiftAllPipes();
      assert AsWorld() == ShiftPipes(w);
      if |upperPipes| > 0 {
        var firstPipeX := upperPipes[0].x;
        if firstPipeX < -cfg.pipeWidth {
          upperPipes := upperPipes[1..];
          lowerPipes := lowerPipes[1..];
        }
        assert AsWorld() == DropGone(cfg, ShiftPipes(w));
        var lastPipeX := upperPipes[|upperPipes| - 1].x;
        if lastPipeX < cfg.screenWidth - cfg.screenWidth / 2 - cfg.pipeWidth / 2 {
          var newGap, newX := RandomPipe(cfg.screenWidth + SpawnMargin);
          AddPipe(newGap, newX);
          spawnGap := newGap;
        }
      } else {
        var newGap, newX := RandomPipe(cfg.screenWidth + SpawnMargin);
        AddPipe(newGap, newX);
        spawnGap := newGap;
      }
    }

    /** The collision loop of `frameStep`: whether the player's box overlaps
        the upper or the lower pipe of some pair. */
    method HitsPipe() returns (hit: bool)
      requires |upperPipes| == |lowerPipes|
      ensures hit <==> exists i :: 0 <= i < |upperPipes| && PairHit(cfg, playerY, upperPipes[i], lowerPipes[i])
    {
      var playerRect := cfg.PlayerRect(playerY);
      var k := 0;
      while k < |upperPipes|
        invariant 0 <= k <= |upperPipes|
        invariant forall m :: 0 <= m < k ==> !PairHit(cfg, playerY, upperPipes[m], lowerPipes[m])
      {
        var u := upperPipes[k];
        var l := lowerPipes[k];
        if Intersects(playerRect, cfg.PipeRect(u)) || Intersects(playerRect, cfg.PipeRect(l)) {
          return true;
        }
        k := k + 1;
      }
      return false;
    }

    /** The stages of `frameStep` before the terminal test: the flap, the
        scoring loop, the counters, gravity and the pipes.  Returns the
        frame's reward so far and, as a ghost, the gap value of a spawned
        pair. */
    method AdvanceFrame(inputActions: seq<int>) returns (reward: real, ghost spawnGap: int)
      requires cfg.Valid() && PipesMovable(cfg, AsWorld()) && |inputActions| >= 2
      modifies this
      ensures cfg.GapLo() <= spawnGap < cfg.GapHi()
      ensures AsWorld() == Advance(cfg, old(AsWorld()), inputActions[1] == 1, spawnGap)
      ensures reward == if PassedCount(cfg, old(upperPipes)) > 0 then PassReward else AliveReward
    {
      ghost var w0 := AsWorld();
      if inputActions[1] == 1 {
        if playerY > -2 * cfg.playerHeight {
          playerVelY := PlayerFlapAcc;
          playerFlapped := true;
        }
      }
      ghost var w1 := AsWorld();
      assert w1 == Flap(cfg, w0, inputActions[1] == 1);
      reward := ScorePipes();
      assert AsWorld() == AddScore(cfg, w1);
      AdvanceCountersStep();
      ApplyGravity();
      spawnGap := MoveAllPipes();
    }

    /** `frameStep`: advance one frame.  `inputActions[1] == 1` requests a
        flap.  The gap values drawn in this frame are returned as ghosts; the
        new fields, the reward and the terminal flag are those of `Step`. */
    method FrameStep(inputActions: seq<int>) returns (reward: real, terminal: bool, ghost draws: Draws)
      requires Valid() && |inputActions| >= 2
      modifies this
      ensures Valid() && draws.InRange(cfg)
      ensures StepResult(AsWorld(), reward, terminal) == Step(cfg, old(AsWorld()), inputActions[1] == 1, draws)
    {
      ghost var w0 := AsWorld();
      terminal := false;
      ghost var spawnGap;
      reward, spawnGap := AdvanceFrame(inputActions);
      ghost var w5 := AsWorld();
      AdvanceKeepsInv(cfg, w0, inputActions[1] == 1, spawnGap);

      // The ground test first; only when it fails, the pipe test.
      var crashed := playerY + cfg.playerHeight >= cfg.groundY - 1;
      if !crashed {
        crashed := HitsPipe();
      }
      assert crashed == (GroundHit(cfg, w5.playerY) || PipeHit(cfg, w5));
      if crashed {
        terminal := true;
        reward := CrashReward;
        ghost var first, second := Reset();
        draws := Draws(spawnGap, first, second);
        ResetEstablishesInv(cfg, w5, first, second);
      } else {
        draws := Draws(spawnGap, cfg.GapLo(), cfg.GapLo());
      }
    }
  }
}
