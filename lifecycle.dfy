/** The session state of the game and the guards that govern it: the life and score
    counters, the `restarting` and `scoring` flags that keep a restart and a score entry
    apart, the crosshair position, and the timed power-up modifiers with their generation
    tokens (Main.c:98-99, 203-220, 279-398, 498-514, 907-973, 1037-1124). */
module Lifecycle {
  import opened CArith
  import opened Crosshair

  const DefaultLife := 5     // DEFAULT_LIFE
  const NormalXhair := 4     // initial crosshair_size
  const LargeXhair := 7      // LARGE_XHAIR
  const StartX := 63         // initial crosshair x
  const StartY := 63         // initial crosshair y

  /** What a cube carries when it is hit (enum PowerUp). */
  datatype PowerUp = NoPowerUp | ExtraLife | BigCrosshair | SpeedUp | Freeze | SlowDown

  /** A timed modifier with the generation token of its category: `crosshair_size` with
      `reset_crosshair_id`, `speed` with `reset_speed_id`, `frozen` with `freeze_id`. */
  datatype Timed = Timed(value: int, generation: int)

  /** A pickup: HandlePowerUp increments the token and the worker it spawns, which holds
      the new token, applies the modifier `v`. */
  function PickUp(t: Timed, v: int): (r: Timed)
    ensures r.value == v && r.generation > t.generation
  {
    Timed(v, t.generation + 1)
  }

  /** The token a worker spawned by a pickup holds. */
  function HeldToken(after: Timed): int { after.generation }

  /** A worker holding token `held` wakes up: it restores `base` only when no newer pickup
      of its category has moved the token on (Main.c:291-297, 313-319, 330-336, 352-358). */
  function Expire(t: Timed, held: int, base: int): (r: Timed)
    ensures r.generation == t.generation
    ensures held != t.generation ==> r == t
    ensures held == t.generation ==> r.value == base
  {
    if held == t.generation then t.(value := base) else t
  }

  /** Workers waking up one after the other, holding the tokens `helds`. */
  function ExpireAll(t: Timed, helds: seq<int>, base: int): (r: Timed)
    ensures r.generation == t.generation
    ensures r == t || r.value == base
    decreases |helds|
  {
    if helds == [] then t else ExpireAll(Expire(t, helds[0], base), helds[1..], base)
  }

  /** Workers of superseded pickups, whose tokens are older than the current one, leave
      the modifier as the newest pickup set it, however many of them wake up. */
  lemma {:induction false} SupersededWorkersKeepEffect(t: Timed, helds: seq<int>, base: int)
    requires forall k :: 0 <= k < |helds| ==> helds[k] < t.generation
    ensures ExpireAll(t, helds, base) == t
    decreases |helds|
  {
    if helds != [] {
      assert Expire(t, helds[0], base) == t;
      SupersededWorkersKeepEffect(t, helds[1..], base);
    }
  }

  /** Two overlapping pickups of one category: the first worker to wake leaves the effect
      on, the second one (the later pickup's) reverts it. */
  lemma OverlappingPickups(t: Timed, v: int, base: int)
    ensures var t1 := PickUp(t, v);
            var t2 := PickUp(t1, v);
            var afterFirst := Expire(t2, HeldToken(t1), base);
            afterFirst == t2 && Expire(afterFirst, HeldToken(t2), base).value == base
  {
  }

  /** The session globals: Life, Score, restarting, scoring, the crosshair position x, y
      and the three timed modifiers. */
  datatype Info = Info(life: int, score: int, restarting: int, scoring: int, x: int, y: int,
                       crosshair: Timed, speed: Timed, freeze: Timed)

  /** A restart and a score entry in progress (scoring 1 or 2) never overlap. */
  predicate Exclusive(st: Info)
  {
    st.restarting != 0 ==> st.scoring == 0 || st.scoring == 3
  }

  /** The ranges the globals keep. */
  predicate Sane(st: Info)
  {
    && 0 <= st.life < TwoTo32 && 0 <= st.score < TwoTo32
    && 0 <= st.restarting <= 1 && 0 <= st.scoring <= 3
    && Exclusive(st)
    && OnScreen(Sample(st.x, st.y))
    && (st.crosshair.value == NormalXhair || st.crosshair.value == LargeXhair)
    && -1 <= st.speed.value <= 1
    && 0 <= st.freeze.value <= 1
  }

  /** The globals as `main` and the static initialisers leave them. */
  function Initial(): (st: Info)
    ensures Sane(st) && st.restarting == 0 && st.scoring == 0 && st.life == DefaultLife
  {
    Info(DefaultLife, 0, 0, 0, StartX, StartY, Timed(NormalXhair, 0), Timed(0, 0), Timed(0, 0))
  }

  /** DecLife on the life counter: the new value and whether this call ended the game. */
  function LoseLife(life: int): (r: (int, bool))
    requires life >= 0
    ensures r.0 >= 0
    ensures life > 0 ==> r.0 == life - 1
    ensures life == 0 ==> r.0 == 0
    ensures r.1 <==> life == 1
  {
    if life != 0 then (life - 1, life - 1 == 0) else (life, false)
  }

  /** The life counter after `n` calls of DecLife. */
  function LivesAfter(life: nat, n: nat): nat
  {
    if n == 0 then life else LivesAfter(LoseLife(life).0, n - 1)
  }

  /** How many of `n` calls of DecLife report the game over. */
  function GameOvers(life: nat, n: nat): nat
  {
    if n == 0 then 0
    else (if LoseLife(life).1 then 1 else 0) + GameOvers(LoseLife(life).0, n - 1)
  }

  /** Repeated DecLife counts the lives down to zero and stays there, and the game-over
      transition happens exactly once, on the call that takes the last life. */
  lemma {:induction false} GameOverExactlyOnce(life: nat, n: nat)
    ensures LivesAfter(life, n) == if n < life then life - n else 0
    ensures GameOvers(life, n) == if 0 < life <= n then 1 else 0
  {
    if n > 0 {
      GameOverExactlyOnce(LoseLife(life).0, n - 1);
    }
  }

  /** The admission check of Restart (Main.c:1039-1046): whether the restart proceeds, and
      the new state. */
  function RestartRequested(st: Info): (r: (bool, Info))
    ensures st.restarting != 0 ==> r == (false, st)
    ensures 0 < st.scoring < 3 ==> r == (false, st)
    ensures r.0 <==> st.restarting == 0 && !(0 < st.scoring < 3)
    ensures r.0 ==> r.1 == st.(restarting := 1)
    ensures Sane(st) ==> Sane(r.1)
  {
    if st.restarting != 0 || (st.scoring > 0 && st.scoring < 3) then (false, st)
    else (true, st.(restarting := 1))
  }

  /** The admission check of HighScore (Main.c:911-923): no score entry while lives are
      left or while a restart or another score entry runs; a second request during the
      entry asks it to finish (scoring 1 becomes 2). */
  function HighScoreRequested(st: Info): (r: (bool, Info))
    ensures st.life != 0 ==> r == (false, st)
    ensures Exclusive(st) && st.restarting != 0 ==> r == (false, st)
    ensures st.life == 0 && st.restarting == 0 && st.scoring == 1 ==> r == (false, st.(scoring := 2))
    ensures st.scoring >= 2 ==> r == (false, st)
    ensures r.0 <==> st.life == 0 && st.restarting == 0 && st.scoring == 0
    ensures r.0 ==> r.1 == st.(scoring := 1)
    ensures Sane(st) ==> Sane(r.1)
  {
    if st.life != 0 then (false, st)
    else if st.restarting != 0 || st.scoring != 0 then
      (false, if st.scoring == 1 then st.(scoring := 2) else st)
    else (true, st.(scoring := 1))
  }

  /** The end of a score entry (Main.c:968-970): the entry, asked to finish, is done. */
  function ScoringFinished(st: Info): (r: Info)
    requires st.scoring == 2
    ensures r == st.(scoring := 3)
    ensures Sane(st) ==> Sane(r)
  {
    st.(scoring := 3)
  }

  /** The reset at the end of a restart (Main.c:1089-1116): score, lives, crosshair and
      modifiers back to their initial values, both flags cleared; the generation tokens are
      not reset. */
  function Restarted(st: Info): (r: Info)
    ensures Sane(r) && r.restarting == 0 && r.scoring == 0
    ensures r.life == DefaultLife && r.score == 0
    ensures r.x == StartX && r.y == StartY
    ensures r.crosshair.value == NormalXhair && r.speed.value == 0 && r.freeze.value == 0
    ensures r.crosshair.generation == st.crosshair.generation
    ensures r.speed.generation == st.speed.generation
    ensures r.freeze.generation == st.freeze.generation
  {
    Info(DefaultLife, 0, 0, 0, StartX, StartY,
         st.crosshair.(value := NormalXhair), st.speed.(value := 0), st.freeze.(value := 0))
  }

  /** HandlePowerUp (Main.c:362-398) together with the start of the worker it spawns:
      an extra life, or a pickup of one of the timed modifiers (a speed-up and a
      slow-down share the speed token). */
  function PoweredUp(st: Info, p: PowerUp): (r: Info)
    ensures r.score == st.score && r.restarting == st.restarting && r.scoring == st.scoring
    ensures r.x == st.x && r.y == st.y
    ensures r.life == if p == ExtraLife then Wrap32(st.life + 1) else st.life
    ensures p == NoPowerUp ==> r == st
    ensures IsTimed(p) ==> Token(r, p) == Token(st, p) + 1
    ensures p == BigCrosshair ==> r.crosshair.value == LargeXhair
    ensures p == SpeedUp ==> r.speed.value == 1
    ensures p == SlowDown ==> r.speed.value == -1
    ensures p == Freeze ==> r.freeze.value == 1
    ensures p != BigCrosshair ==> r.crosshair == st.crosshair
    ensures p != SpeedUp && p != SlowDown ==> r.speed == st.speed
    ensures p != Freeze ==> r.freeze == st.freeze
    ensures Sane(st) ==> Sane(r)
  {
    match p
    case NoPowerUp => st
    case ExtraLife => st.(life := Wrap32(st.life + 1))
    case BigCrosshair => st.(crosshair := PickUp(st.crosshair, LargeXhair))
    case SpeedUp => st.(speed := PickUp(st.speed, 1))
    case Freeze => st.(freeze := PickUp(st.freeze, 1))
    case SlowDown => st.(speed := PickUp(st.speed, -1))
  }

  /** The reward for a hit (Main.c:410-413): one point, then the cube's power-up. */
  function Rewarded(st: Info, p: PowerUp): (r: Info)
    ensures r.score == Wrap32(st.score + 1)
    ensures 0 <= st.score && st.score + 1 < TwoTo32 ==> r.score == st.score + 1
    ensures r == PoweredUp(st, p).(score := r.score)
    ensures Sane(st) ==> Sane(r)
  {
    PoweredUp(st.(score := Wrap32(st.score + 1)), p)
  }

  /** The generation token of the category p's modifier belongs to. */
  function Token(st: Info, p: PowerUp): int
  {
    match p
    case BigCrosshair => st.crosshair.generation
    case SpeedUp => st.speed.generation
    case SlowDown => st.speed.generation
    case Freeze => st.freeze.generation
    case _ => 0
  }

  /** The worker spawned for a pickup of p wakes up holding token `held`
      (Main.c:290-297, 312-319, 330-336, 352-358): it restores its modifier's resting
      value (crosshair size 4, speed 0, not frozen) unless a newer pickup of the same
      category moved the token on. */
  function EffectEnded(st: Info, p: PowerUp, held: int): (r: Info)
    ensures r.life == st.life && r.score == st.score && r.x == st.x && r.y == st.y
    ensures r.restarting == st.restarting && r.scoring == st.scoring
    ensures Token(r, p) == Token(st, p)
    ensures held != Token(st, p) || !IsTimed(p) ==> r == st
    ensures held == Token(st, p) && p == BigCrosshair ==> r.crosshair.value == NormalXhair
    ensures held == Token(st, p) && (p == SpeedUp || p == SlowDown) ==> r.speed.value == 0
    ensures held == Token(st, p) && p == Freeze ==> r.freeze.value == 0
    ensures p != BigCrosshair ==> r.crosshair == st.crosshair
    ensures p != SpeedUp && p != SlowDown ==> r.speed == st.speed
    ensures p != Freeze ==> r.freeze == st.freeze
    ensures Sane(st) ==> Sane(r)
  {
    match p
    case BigCrosshair => st.(crosshair := Expire(st.crosshair, held, NormalXhair))
    case SpeedUp => st.(speed := Expire(st.speed, held, 0))
    case SlowDown => st.(speed := Expire(st.speed, held, 0))
    case Freeze => st.(freeze := Expire(st.freeze, held, 0))
    case _ => st
  }

  /** The power-ups whose effect a worker ends after a while. */
  predicate IsTimed(p: PowerUp)
  {
    p == BigCrosshair || p == SpeedUp || p == SlowDown || p == Freeze
  }

  /** A timed pickup wears off: when its worker wakes with no newer pickup in between,
      every modifier is back where it was before the pickup; only the token has moved. */
  lemma PickupWearsOff(st: Info, p: PowerUp)
    requires Sane(st) && IsTimed(p)
    requires st.crosshair.value == NormalXhair && st.speed.value == 0 && st.freeze.value == 0
    ensures var up := PoweredUp(st, p);
            var down := EffectEnded(up, p, Token(up, p));
            && Token(up, p) == Token(st, p) + 1
            && down.crosshair.value == st.crosshair.value
            && down.speed.value == st.speed.value
            && down.freeze.value == st.freeze.value
            && down == st.(crosshair := down.crosshair, speed := down.speed, freeze := down.freeze)
  {
  }

  /** A speed-up and a slow-down share the speed token: a slow-down picked up while a
      speed-up runs survives the speed-up's worker, and the slow-down's own worker ends it. */
  lemma SpeedAndSlowShareToken(st: Info)
    requires Sane(st)
    ensures var fast := PoweredUp(st, SpeedUp);
            var slow := PoweredUp(fast, SlowDown);
            var afterFast := EffectEnded(slow, SpeedUp, Token(fast, SpeedUp));
            && afterFast == slow && afterFast.speed.value == -1
            && EffectEnded(afterFast, SlowDown, Token(slow, SlowDown)).speed.value == 0
  {
  }

  /** A restart is idempotent while it runs, and a score entry in progress is immune to
      restart requests while a second finish request to a finishing entry is ignored. */
  lemma RestartAndScoringExclusive(st: Info)
    requires Sane(st)
    ensures st.restarting == 1 ==> RestartRequested(RestartRequested(st).1) == (false, st)
    ensures st.scoring == 1 && st.life == 0 ==>
              RestartRequested(st) == (false, st) &&
              HighScoreRequested(HighScoreRequested(st).1) == (false, st.(scoring := 2))
  {
  }

  /** The session globals, updated in place under their semaphores. */
  class Session {
    var life: int
    var score: int
    var restarting: int
    var scoring: int
    var x: int
    var y: int
    var crosshair: Timed
    var speed: Timed
    var freeze: Timed

    function Snapshot(): Info
      reads this
    {
      Info(life, score, restarting, scoring, x, y, crosshair, speed, freeze)
    }

    ghost predicate Valid()
      reads this
    {
      Sane(Snapshot())
    }

    constructor ()
      ensures Valid() && Snapshot() == Initial()
    {
      life, score, restarting, scoring := DefaultLife, 0, 0, 0;
      x, y := StartX, StartY;
      crosshair, speed, freeze := Timed(NormalXhair, 0), Timed(0, 0), Timed(0, 0);
    }

    /** DecLife (Main.c:498-514): one life fewer, never below zero; reports the game over
        on the call that takes the last life. */
    method DecLife() returns (gameOver: bool)
      requires Valid()
      modifies this
      ensures Valid()
      ensures (life, gameOver) == LoseLife(old(life))
      ensures Snapshot() == old(Snapshot()).(life := life)
    {
      if life != 0 {
        life := life - 1;
        gameOver := life == 0;
      } else {
        gameOver := false;
      }
    }

    /** The guard at the top of Restart (Main.c:1039-1046). */
    method RequestRestart() returns (admitted: bool)
      requires Valid()
      modifies this
      ensures Valid()
      ensures (admitted, Snapshot()) == RestartRequested(old(Snapshot()))
    {
      if restarting != 0 || (scoring > 0 && scoring < 3) {
        admitted := false;
        return;
      }
      restarting := 1;
      admitted := true;
    }

    /** The first step of an admitted restart (Main.c:1048-1050): the life counter is
        zeroed, which every worker observes as the game over. */
    method ZeroLife()
      requires Valid()
      modifies this
      ensures Valid()
      ensures Snapshot() == old(Snapshot()).(life := 0)
    {
      life := 0;
    }

    /** The last step of a restart, once every worker has exited (Main.c:1089-1116). */
    method CompleteRestart()
      requires Valid()
      modifies this
      ensures Valid()
      ensures Snapshot() == Restarted(old(Snapshot()))
    {
      score := 0;
      life := DefaultLife;
      x, y := StartX, StartY;
      freeze := freeze.(value := 0);
      speed := speed.(value := 0);
      crosshair := crosshair.(value := NormalXhair);
      restarting := 0;
      scoring := 0;
    }

    /** The guards at the top of HighScore (Main.c:911-923). */
    method RequestHighScore() returns (admitted: bool)
      requires Valid()
      modifies this
      ensures Valid()
      ensures (admitted, Snapshot()) == HighScoreRequested(old(Snapshot()))
    {
      if life != 0 {
        admitted := false;
        return;
      }
      if restarting != 0 || scoring != 0 {
        if scoring == 1 {
          scoring := 2;
        }
        admitted := false;
        return;
      }
      scoring := 1;
      admitted := true;
    }

    /** The end of the score entry loop, reached once scoring is 2 (Main.c:968-970). */
    method FinishScoring()
      requires Valid() && scoring == 2
      modifies this
      ensures Valid()
      ensures Snapshot() == ScoringFinished(old(Snapshot()))
    {
      scoring := 3;
    }

    /** UpdatePosition (Main.c:799-825): one joystick reading moves the crosshair by the
        scaled deflection, clamped to the field; the new position is also what is queued. */
    method UpdatePosition(rawx: int, rawy: int, origin: Sample) returns (data: Sample, ret: int)
      requires Valid() && Reading(Sample(rawx, rawy)) && Reading(origin)
      requires origin.x > 0 && origin.y > 0
      modifies this`x, this`y
      ensures Valid() && ret == 1
      ensures data == Moved(Sample(old(x), old(y)), Sample(rawx, rawy), origin, speed.value)
      ensures Snapshot() == old(Snapshot()).(x := data.x, y := data.y)
    {
      var f := Factor(speed.value);
      var deltaX := Step(rawx - origin.x, f, origin.x);
      var deltaY := Step(origin.y - rawy, f, origin.y);
      x := Int16(x + deltaX);
      y := Int16(y + deltaY);
      if x > MaxX {
        x := MaxX;
      }
      if x < 0 {
        x := 0;
      }
      if y > MaxY {
        y := MaxY;
      }
      if y < 0 {
        y := 0;
      }
      data := Sample(x, y);
      ret := 1;
    }

    /** The score entry puts the crosshair back in the centre before each sample
        (Main.c:928-929, 938-939). */
    method CenterCrosshair()
      requires Valid()
      modifies this`x, this`y
      ensures Valid()
      ensures Snapshot() == old(Snapshot()).(x := Center, y := Center)
    {
      x := Center;
      y := Center;
    }

    /** A power-up worker waking up holding token `held`. */
    method EndEffect(p: PowerUp, held: int)
      requires Valid()
      modifies this
      ensures Valid()
      ensures Snapshot() == EffectEnded(old(Snapshot()), p, held)
    {
      match p {
        case BigCrosshair =>
          if held == crosshair.generation {
            crosshair := crosshair.(value := NormalXhair);
          }
        case SpeedUp =>
          if held == speed.generation {
            speed := speed.(value := 0);
          }
        case SlowDown =>
          if held == speed.generation {
            speed := speed.(value := 0);
          }
        case Freeze =>
          if held == freeze.generation {
            freeze := freeze.(value := 0);
          }
        case _ =>
      }
    }

    /** The reward for a hit (Main.c:410-413 with HandlePowerUp, Main.c:362-398). */
    method Reward(p: PowerUp)
      requires Valid()
      modifies this
      ensures Valid()
      ensures Snapshot() == Rewarded(old(Snapshot()), p)
    {
      score := Wrap32(score + 1);
      match p {
        case NoPowerUp =>
        case ExtraLife =>
          life := Wrap32(life + 1);
        case BigCrosshair =>
          crosshair := Timed(LargeXhair, crosshair.generation + 1);
        case SpeedUp =>
          speed := Timed(1, speed.generation + 1);
        case Freeze =>
          freeze := Timed(1, freeze.generation + 1);
        case SlowDown =>
          speed := Timed(-1, speed.generation + 1);
      }
    }
  }
}
