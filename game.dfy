/**
 * The game's mutable state and one method per callback: the start button, each timer firing
 * (countdown, score, spawn, per-object fall, player motion) and each key event. A timer that is
 * running is a flag or a field; a firing is a call whose precondition says that its timer runs.
 */
module Arcade {
  import opened Difficulty
  import Sizes
  import Movement
  import opened Collision
  import opened Keys
  import opened ObjectList

  /** Vertical position, in pixels, at which every object appears and starts to fall. */
  const StartTop: real := -50.0

  /** Pixels an object falls per firing of its 20 ms timer, before the speed factor. */
  const FallStep: real := 1.5

  /** Position of the player, in percent, at the start of a run. */
  const StartPosition: real := 50.0

  /** Steps shown before a run begins. */
  const CountdownSteps: int := 3

  /** The spawn timer: not running, running at the initial 1000 ms period, or re-armed once with a fixed period. */
  datatype SpawnTimer = Stopped | FirstPending | Rearmed(period: int)

  /** What the score line shows. */
  datatype Display = StartingIn(n: int) | ScoreShown(points: int)

  /** One falling object: its size and column are fixed when it is made; it falls until its timer stops. */
  class FallingObject {
    const size: real
    const left: real
    var topPosition: real
    /** Its 20 ms fall timer is running. */
    var falling: bool
    /** It is still attached to the game container. */
    var attached: bool

    constructor (size: real, left: real)
      ensures this.size == size && this.left == left
      ensures topPosition == StartTop && falling && attached
    {
      this.size := size;
      this.left := left;
      topPosition := StartTop;
      falling := true;
      attached := true;
    }
  }

  class Game {
    var score: int
    var speedMultiplier: real
    var playerPosition: real
    var isMovingLeft: bool
    var isMovingRight: bool
    var fallingObjects: seq<FallingObject>
    /** The counter of the most recent countdown, and whether its timer runs. */
    var countdown: int
    var countdownRunning: bool
    /** The one-second score timer runs. */
    var scoreLoopRunning: bool
    var spawnTimer: SpawnTimer

    /** What every callback keeps: the score is a non-negative multiple of ten, the speed factor follows it,
        the player is on the playfield, and the list holds each object at most once. */
    ghost predicate Valid()
      reads this
    {
      score >= 0 && score % ScoreStep == 0 &&
      speedMultiplier == Multiplier(score) &&
      0.0 <= playerPosition <= 100.0 &&
      0 <= countdown <= CountdownSteps &&
      Distinct(fallingObjects) &&
      (spawnTimer.Rearmed? ==> MinSpawnRate <= spawnTimer.period <= BaseSpawnRate)
    }

    /** The state when the page has loaded: nothing runs but the player-motion timer. */
    constructor ()
      ensures Valid()
      ensures score == 0 && speedMultiplier == 1.0 && playerPosition == StartPosition
      ensures !isMovingLeft && !isMovingRight && fallingObjects == []
      ensures !countdownRunning && !scoreLoopRunning && spawnTimer == Stopped
    {
      score := 0;
      speedMultiplier := 1.0;
      playerPosition := StartPosition;
      isMovingLeft := false;
      isMovingRight := false;
      fallingObjects := [];
      countdown := CountdownSteps;
      countdownRunning := false;
      scoreLoopRunning := false;
      spawnTimer := Stopped;
    }

    /** The start and restart buttons: reset the run and start the countdown. Objects of an earlier run are not touched. */
    method StartGame()
      requires Valid()
      modifies this
      ensures Valid()
      ensures score == 0 && speedMultiplier == 1.0 && playerPosition == StartPosition
      ensures !isMovingLeft && !isMovingRight && fallingObjects == []
      ensures countdown == CountdownSteps && countdownRunning
      ensures scoreLoopRunning == old(scoreLoopRunning) && spawnTimer == old(spawnTimer)
    {
      score := 0;
      speedMultiplier := 1.0;
      playerPosition := StartPosition;
      isMovingLeft := false;
      isMovingRight := false;
      fallingObjects := [];
      countdown := CountdownSteps;
      countdownRunning := true;
    }

    /** Game over: stop the score and spawn timers. Fall timers and a running countdown go on. */
    method EndGame()
      requires Valid()
      modifies this`scoreLoopRunning, this`spawnTimer
      ensures Valid()
      ensures !scoreLoopRunning && spawnTimer == Stopped
    {
      scoreLoopRunning := false;
      spawnTimer := Stopped;
    }

    /** One firing of the countdown timer: show and decrement the counter while it is positive;
        at zero stop the countdown and start the score and spawn timers. */
    method CountdownFire() returns (shown: Display)
      requires Valid() && countdownRunning
      modifies this`countdown, this`countdownRunning, this`scoreLoopRunning, this`spawnTimer
      ensures Valid()
      ensures old(countdown) > 0 ==>
        shown == StartingIn(old(countdown)) && countdown == old(countdown) - 1 && countdownRunning &&
        scoreLoopRunning == old(scoreLoopRunning) && spawnTimer == old(spawnTimer)
      ensures old(countdown) == 0 ==>
        shown == ScoreShown(0) && countdown == 0 && !countdownRunning &&
        scoreLoopRunning && spawnTimer == FirstPending
    {
      if countdown > 0 {
        shown := StartingIn(countdown);
        countdown := countdown - 1;
      } else {
        countdownRunning := false;
        shown := ScoreShown(0);
        scoreLoopRunning := true;
        spawnTimer := FirstPending;
      }
    }

    /** One firing of the score timer: ten more points and the speed factor recomputed from them. */
    method ScoreTick() returns (shown: Display)
      requires Valid() && scoreLoopRunning
      modifies this`score, this`speedMultiplier
      ensures Valid()
      ensures score == old(score) + ScoreStep
      ensures speedMultiplier == Multiplier(score) && speedMultiplier > old(speedMultiplier) >= 1.0
      ensures shown == ScoreShown(score)
    {
      score := score + ScoreStep;
      shown := ScoreShown(score);
      speedMultiplier := Multiplier(score);
    }

    /** Make an object from three draws (band, offset within band, column), append it to the list and start its fall timer. */
    method CreateFallingObject(r1: real, r2: real, rLeft: real) returns (o: FallingObject)
      requires Valid()
      requires Sizes.IsDraw(r1) && Sizes.IsDraw(r2) && Sizes.IsDraw(rLeft)
      modifies this`fallingObjects
      ensures Valid() && fresh(o)
      ensures fallingObjects == old(fallingObjects) + [o]
      ensures o.size == Sizes.Size(r1, r2) && 50.0 <= o.size < 230.0
      ensures o.left == rLeft * 100.0 && 0.0 <= o.left < 100.0
      ensures o.topPosition == StartTop && o.falling && o.attached
    {
      var size := Sizes.Size(r1, r2);
      o := new FallingObject(size, rLeft * 100.0);
      assert o !in old(fallingObjects);
      fallingObjects := fallingObjects + [o];
      forall i, j | 0 <= i < j < |fallingObjects| ensures fallingObjects[i] != fallingObjects[j] {
        if j == |fallingObjects| - 1 {
          assert fallingObjects[i] == old(fallingObjects)[i];
        } else {
          assert fallingObjects[i] == old(fallingObjects)[i] && fallingObjects[j] == old(fallingObjects)[j];
        }
      }
    }

    /** One firing of the spawn timer. Every firing makes an object; the first one also re-arms the timer
        with the period the current score gives, and that period is never recomputed afterwards. */
    method SpawnFire(r1: real, r2: real, rLeft: real) returns (o: FallingObject)
      requires Valid() && spawnTimer != Stopped
      requires Sizes.IsDraw(r1) && Sizes.IsDraw(r2) && Sizes.IsDraw(rLeft)
      modifies this`fallingObjects, this`spawnTimer
      ensures Valid() && fresh(o)
      ensures fallingObjects == old(fallingObjects) + [o]
      ensures o.size == Sizes.Size(r1, r2) && o.left == rLeft * 100.0
      ensures o.topPosition == StartTop && o.falling && o.attached
      ensures old(spawnTimer).FirstPending? ==> spawnTimer == Rearmed(SpawnRate(score))
      ensures old(spawnTimer).Rearmed? ==> spawnTimer == old(spawnTimer)
    {
      o := CreateFallingObject(r1, r2, rLeft);
      if spawnTimer.FirstPending? {
        spawnTimer := Rearmed(SpawnRate(score));
      }
    }

    /** The overlap test between the player's and the object's bounding rectangles; on a hit the object's
        timer stops, the object leaves the container and the game ends. The list itself is left as it is. */
    method DetectCollision(o: FallingObject, playerRect: Rect, objectRect: Rect) returns (collided: bool)
      requires Valid()
      modifies this`scoreLoopRunning, this`spawnTimer, o`falling, o`attached
      ensures Valid()
      ensures collided == Overlaps(playerRect, objectRect)
      ensures collided ==> !o.falling && !o.attached && !scoreLoopRunning && spawnTimer == Stopped
      ensures !collided ==>
        o.falling == old(o.falling) && o.attached == old(o.attached) &&
        scoreLoopRunning == old(scoreLoopRunning) && spawnTimer == old(spawnTimer)
    {
      collided := Overlaps(playerRect, objectRect);
      if collided {
        o.falling := false;
        o.attached := false;
        EndGame();
      }
    }

    /** One firing of an object's fall timer (the size-growth effect aside): fall by the scaled step; past the
        bottom, stop the timer, detach the object and filter it out of the list; then, in every case, test
        for a collision. */
    method FallTick(o: FallingObject, innerHeight: real, playerRect: Rect, objectRect: Rect)
      returns (offScreen: bool, collided: bool)
      requires Valid() && o.falling
      modifies this`fallingObjects, this`scoreLoopRunning, this`spawnTimer, o
      ensures Valid()
      ensures o.topPosition == old(o.topPosition) + FallStep * speedMultiplier
      ensures o.topPosition > old(o.topPosition)
      ensures offScreen == (o.topPosition > innerHeight)
      ensures fallingObjects == if offScreen then Without(old(fallingObjects), o) else old(fallingObjects)
      ensures offScreen ==> multiset(fallingObjects) == multiset(old(fallingObjects))[o := 0]
      ensures offScreen ==> IsSubsequence(fallingObjects, old(fallingObjects))
      ensures collided == Overlaps(playerRect, objectRect)
      ensures o.falling == (!offScreen && !collided)
      ensures o.attached == (old(o.attached) && !offScreen && !collided)
      ensures collided ==> !scoreLoopRunning && spawnTimer == Stopped
      ensures !collided ==> scoreLoopRunning == old(scoreLoopRunning) && spawnTimer == old(spawnTimer)
    {
      o.topPosition := o.topPosition + FallStep * speedMultiplier;
      offScreen := o.topPosition > innerHeight;
      if offScreen {
        o.falling := false;
        o.attached := false;
        WithoutDistinct(fallingObjects, o);
        WithoutMultiset(fallingObjects, o);
        WithoutKeepsOrder(fallingObjects, o);
        fallingObjects := Without(fallingObjects, o);
      }
      collided := DetectCollision(o, playerRect, objectRect);
    }

    /** One firing of the 60 Hz motion timer: the left move, then the right move, each clamped to the playfield. */
    method MovePlayer()
      requires Valid()
      modifies this`playerPosition
      ensures Valid()
      ensures playerPosition == Movement.Move(old(playerPosition), isMovingLeft, isMovingRight)
    {
      playerPosition := Movement.Move(playerPosition, isMovingLeft, isMovingRight);
    }

    /** A key press sets the flag of the direction it steers. */
    method KeyDown(key: string)
      requires Valid()
      modifies this`isMovingLeft, this`isMovingRight
      ensures Valid()
      ensures isMovingLeft == (old(isMovingLeft) || IntentOf(key) == LeftKey)
      ensures isMovingRight == (old(isMovingRight) || IntentOf(key) == RightKey)
    {
      var intent := IntentOf(key);
      if intent == LeftKey {
        if !isMovingLeft {
          isMovingLeft := true;
        }
      } else if intent == RightKey {
        if !isMovingRight {
          isMovingRight := true;
        }
      }
    }

    /** A key release clears the flag of the direction it steers. */
    method KeyUp(key: string)
      requires Valid()
      modifies this`isMovingLeft, this`isMovingRight
      ensures Valid()
      ensures isMovingLeft == (old(isMovingLeft) && IntentOf(key) != LeftKey)
      ensures isMovingRight == (old(isMovingRight) && IntentOf(key) != RightKey)
    {
      var intent := IntentOf(key);
      if intent == LeftKey {
        isMovingLeft := false;
      } else if intent == RightKey {
        isMovingRight := false;
      }
    }
  }

  /** A run from the start button: three countdown steps, the start of the loops on the fourth firing,
      ten points after the first score firing, and a spawn period of 990 ms fixed at the first spawn. */
  method OpeningScenario() returns (shown: seq<Display>, period: int, objects: nat)
    ensures shown == [StartingIn(3), StartingIn(2), StartingIn(1), ScoreShown(0), ScoreShown(10)]
    ensures period == 990 && objects == 2
  {
    var g := new Game();
    g.StartGame();
    var d1 := g.CountdownFire();
    var d2 := g.CountdownFire();
    var d3 := g.CountdownFire();
    var d4 := g.CountdownFire();
    var d5 := g.ScoreTick();
    shown := [d1, d2, d3, d4, d5];
    var a := g.SpawnFire(0.5, 0.5, 0.5);
    var d6 := g.ScoreTick();
    var b := g.SpawnFire(0.5, 0.5, 0.5);
    period := g.spawnTimer.period;
    objects := |g.fallingObjects|;
  }

  /** A collision stops the score and spawn timers and leaves the list as it was; a restart then resets the run. */
  method CollisionScenario() returns (ticking: bool, spawning: bool, listed: nat, score: int, position: real, restartedList: nat)
    ensures !ticking && !spawning && listed == 1
    ensures score == 0 && position == StartPosition && restartedList == 0
  {
    var g := new Game();
    g.StartGame();
    var d := g.CountdownFire();
    d := g.CountdownFire();
    d := g.CountdownFire();
    d := g.CountdownFire();
    var o := g.SpawnFire(0.0, 0.0, 0.5);
    var off, hit := g.FallTick(o, 800.0, Rect(10.0, 80.0, 80.0, 20.0), Rect(50.0, 95.0, 10.0, 15.0));
    ticking, spawning, listed := g.scoreLoopRunning, g.spawnTimer != Stopped, |g.fallingObjects|;
    g.StartGame();
    score, position, restartedList := g.score, g.playerPosition, |g.fallingObjects|;
  }
}
