/** The two exam enemies: the chasing AI exam driven by the brain, and the
    stationary guard that paces around its post. */
module Enemy {
  import opened Geometry
  import opened Options
  import opened AIBrain
  import Collision
  import Config

  /** Slowdown factor applied while a collected coffee is in effect */
  const SlowFactor: real := 0.5
  /** Units the AI drops per update while it is still above the top of the level */
  const DescendStep: int := 2
  /** Horizontal distance under which the AI does not steer */
  const SteerDeadZone: real := 10.0
  /** The AI's base speed multiplier */
  const SpeedMultiplier: real := 1.0

  /** The AI exam. Its behaviour state is always CHASE and is not stored. */
  datatype Exam = Exam(
    rect: Rect,
    velX: real,
    velY: real,
    slowdown: real,
    slowdownTimer: int,
    facingRight: bool,
    brain: Brain)

  /** What the AI sees of the player each tick. */
  datatype PlayerView = PlayerView(rect: Rect, velX: real, velY: real)

  /** A fresh AI exam with its top-left corner at (x, y). */
  function NewExam(x: int, y: int): (e: Exam)
    ensures e.rect.x == x && e.rect.y == y
    ensures e.rect.w == Config.ExamSize && e.rect.h == Config.ExamSize
    ensures e.velX == 0.0 && e.velY == 0.0 && e.slowdown == 1.0 && e.slowdownTimer == 0
    ensures e.brain.history == [] && e.brain.analysis.None?
  {
    Exam(Rect(x, y, Config.ExamSize, Config.ExamSize), 0.0, 0.0, 1.0, 0, true, NewBrain())
  }

  /** Halves the AI's speed for `duration` ticks of the slowdown timer. */
  function SlowDown(e: Exam, duration: int): (e': Exam)
    ensures e'.slowdownTimer == duration && e'.slowdown == SlowFactor
    ensures e'.rect == e.rect && e'.velX == e.velX && e'.velY == e.velY
    ensures e'.brain == e.brain && e'.facingRight == e.facingRight
  {
    e.(slowdownTimer := duration, slowdown := SlowFactor)
  }

  /** One tick of the slowdown timer: the factor returns to 1 when the timer runs out. */
  function TickSlowdown(e: Exam): (e': Exam)
    ensures e.slowdownTimer > 0 ==> e'.slowdownTimer == e.slowdownTimer - 1
    ensures e.slowdownTimer <= 0 ==> e' == e
    ensures e'.slowdown == (if e.slowdownTimer == 1 then 1.0 else e.slowdown)
    ensures e'.rect == e.rect && e'.velX == e.velX && e'.velY == e.velY
    ensures e'.brain == e.brain && e'.facingRight == e.facingRight
  {
    if e.slowdownTimer > 0 then
      var t := e.slowdownTimer - 1;
      e.(slowdownTimer := t, slowdown := if t <= 0 then 1.0 else e.slowdown)
    else e
  }

  /** The AI's speed for a tick, from its zone bonus and its slowdown factor. */
  function ActualSpeed(bonus: real, slowdown: real): real {
    Config.AISpeed * (SpeedMultiplier + bonus) * slowdown
  }

  /** Steering: full speed towards the target outside the dead zone, else standing. */
  function Steer(e: Exam, dx: real, speed: real): (e': Exam)
    ensures dx > SteerDeadZone ==> e'.velX == speed && e'.facingRight
    ensures dx < -SteerDeadZone ==> e'.velX == -speed && !e'.facingRight
    ensures -SteerDeadZone <= dx <= SteerDeadZone ==> e'.velX == 0.0 && e'.facingRight == e.facingRight
    ensures e'.rect == e.rect && e'.velY == e.velY && e'.brain == e.brain
    ensures e'.slowdown == e.slowdown && e'.slowdownTimer == e.slowdownTimer
  {
    if Abs(dx) > SteerDeadZone then
      if dx > 0.0 then e.(velX := speed, facingRight := true)
      else e.(velX := -speed, facingRight := false)
    else e.(velX := 0.0)
  }

  /** The AI may jump only when standing on a platform: its box moved one unit down
      touches one. */
  predicate Grounded(r: Rect, platforms: seq<Rect>) {
    AnyOverlap(r.Move(0, 1), platforms)
  }

  /** Keeps the AI inside the level horizontally. */
  function ClampToLevel(r: Rect): (r': Rect)
    ensures r'.y == r.y && r'.w == r.w && r'.h == r.h
    ensures r.w <= Config.LevelWidth ==> 0 <= r'.Left() && r'.Right() <= Config.LevelWidth
    ensures 0 <= r.Left() && r.Right() <= Config.LevelWidth ==> r' == r
  {
    var r1 := if r.Left() < 0 then r.WithX(0) else r;
    if r1.Right() > Config.LevelWidth then r1.WithRight(Config.LevelWidth) else r1
  }

  /** The movement half of the update, once the AI is inside the level. */
  function Chase(e: Exam, player: PlayerView, platforms: seq<Rect>): (e': Exam)
    ensures e'.slowdown == e.slowdown && e'.slowdownTimer == e.slowdownTimer
    ensures e'.brain == DecideMovement(e.brain, e.rect, player.rect, platforms).brain
    ensures e'.rect.w == e.rect.w && e'.rect.h == e.rect.h
    ensures e.rect.w <= Config.LevelWidth ==> 0 <= e'.rect.Left() && e'.rect.Right() <= Config.LevelWidth
  {
    var d := DecideMovement(e.brain, e.rect, player.rect, platforms);
    var e1 := Steer(e.(brain := d.brain), d.decision.dx, ActualSpeed(d.decision.bonus, e.slowdown));
    var vy := if Grounded(e.rect, platforms) && d.decision.shouldJump then Config.AIJumpForce else e.velY;
    var r1 := Collision.SlideX(e1.rect.WithX(Trunc(e1.rect.x as real + e1.velX)), e1.velX, platforms);
    var vy1 := vy + Config.AIGravity;
    var v := Collision.ResolveY(r1.WithY(Trunc(r1.y as real + vy1)), vy1, false, platforms);
    e1.(rect := ClampToLevel(v.rect), velY := v.vy)
  }

  /** One update of the AI exam: the slowdown timer ticks twice (before and after the
      brain observes the player), then the AI either descends into the level or
      chases. */
  function Update(e: Exam, player: PlayerView, platforms: seq<Rect>): (e': Exam)
    ensures e'.brain.history ==
      Observe(e.brain.history, Sample(player.rect.CenterX(), player.rect.CenterY(), player.velX, player.velY))
    ensures e'.rect.w == e.rect.w && e'.rect.h == e.rect.h
    ensures e.rect.y < 0 ==> e'.rect == e.rect.Move(0, DescendStep) && e'.velX == e.velX && e'.velY == e.velY
  {
    var e1 := TickSlowdown(e);
    var e2 := TickSlowdown(e1.(brain := ProcessPlayerInput(e1.brain, player.rect, player.velX, player.velY)));
    if e2.rect.y < 0 then e2.(rect := e2.rect.WithY(e2.rect.y + DescendStep))
    else Chase(e2, player, platforms)
  }

  /** `n` applications of `step`, starting from `e`. */
  function Iterate(step: Exam -> Exam, e: Exam, n: nat): Exam
    decreases n
  {
    if n == 0 then e else Iterate(step, step(e), n - 1)
  }

  /** The update against a fixed player view and level, as a step function. */
  function UpdateStep(player: PlayerView, platforms: seq<Rect>): Exam -> Exam {
    x => Update(x, player, platforms)
  }

  /** `n` updates against an unchanging player view and level. */
  function Run(e: Exam, player: PlayerView, platforms: seq<Rect>, n: nat): Exam {
    Iterate(UpdateStep(player, platforms), e, n)
  }

  // ---------------------------------------------------------------------------
  // Properties of the AI update

  /** The speed is always positive and between 1.6 and 3.84 units per tick, for every
      combination of zone bonus and slowdown factor the game produces. */
  lemma SpeedRange(bonus: real, slowdown: real)
    requires bonus == 0.0 || bonus == FavouriteZoneBonus
    requires slowdown == 1.0 || slowdown == SlowFactor
    ensures 1.6 <= ActualSpeed(bonus, slowdown) <= 3.84
  {
  }

  /** The slowdown timer and factor after one update, which ticks the timer twice. */
  function TimerStep(t: int): int {
    if t > 2 then t - 2 else if t > 0 then 0 else t
  }

  function FactorStep(t: int, s: real): real {
    if 0 < t <= 2 then 1.0 else s
  }

  /** The timer after one update, in closed form: it drops by two (not below zero),
      and the speed returns to normal on the update that empties it. */
  lemma UpdateSlowdown(e: Exam, player: PlayerView, platforms: seq<Rect>)
    ensures var e' := Update(e, player, platforms);
      && e'.slowdownTimer == (if e.slowdownTimer > 2 then e.slowdownTimer - 2
                              else if e.slowdownTimer > 0 then 0 else e.slowdownTimer)
      && e'.slowdown == (if 0 < e.slowdownTimer <= 2 then 1.0 else e.slowdown)
  {
    var e1 := TickSlowdown(e);
    var e2 := TickSlowdown(e1.(brain := ProcessPlayerInput(e1.brain, player.rect, player.velX, player.velY)));
    assert e2.slowdownTimer == (if e.slowdownTimer > 2 then e.slowdownTimer - 2
                                else if e.slowdownTimer > 0 then 0 else e.slowdownTimer);
  }

  /** The timer and factor after `k` updates, following the slowdown fields alone. */
  function TimerAfter(t: int, k: nat): int
    decreases k
  {
    if k == 0 then t else TimerAfter(TimerStep(t), k - 1)
  }

  function FactorAfter(t: int, s: real, k: nat): real
    decreases k
  {
    if k == 0 then s else FactorAfter(TimerStep(t), FactorStep(t, s), k - 1)
  }

  /** A running timer drops by two per update until it is empty; one that is not
      running stays as it is. */
  lemma {:induction false} TimerAfterClosedForm(t: int, k: nat)
    ensures TimerAfter(t, k) == (if t > 0 then MaxI(0, t - 2 * k) else t)
    decreases k
  {
    if k > 0 {
      TimerAfterClosedForm(TimerStep(t), k - 1);
    }
  }

  /** A running timer restores normal speed once `2 k` reaches it; otherwise the
      factor is kept. */
  lemma {:induction false} FactorAfterClosedForm(t: int, s: real, k: nat)
    ensures FactorAfter(t, s, k) == (if t > 0 && 2 * k >= t then 1.0 else s)
    decreases k
  {
    if k > 0 {
      FactorAfterClosedForm(TimerStep(t), FactorStep(t, s), k - 1);
    }
  }

  /** A step that ticks the slowdown twice, whatever else it does. */
  ghost predicate TicksSlowdown(step: Exam -> Exam) {
    forall x :: step(x).slowdownTimer == TimerStep(x.slowdownTimer) &&
                step(x).slowdown == FactorStep(x.slowdownTimer, x.slowdown)
  }

  /** Over `k` such steps, the slowdown fields evolve on their own. */
  lemma {:induction false} IterateSlowdown(step: Exam -> Exam, e: Exam, k: nat)
    requires TicksSlowdown(step)
    ensures Iterate(step, e, k).slowdownTimer == TimerAfter(e.slowdownTimer, k)
    ensures Iterate(step, e, k).slowdown == FactorAfter(e.slowdownTimer, e.slowdown, k)
    decreases k
  {
    if k > 0 {
      IterateSlowdown(step, step(e), k - 1);
    }
  }

  /** Every update ticks the slowdown twice, whatever the AI's state. */
  lemma UpdateTicksSlowdown(player: PlayerView, platforms: seq<Rect>)
    ensures TicksSlowdown(UpdateStep(player, platforms))
  {
    forall x: Exam
      ensures UpdateStep(player, platforms)(x).slowdownTimer == TimerStep(x.slowdownTimer)
      ensures UpdateStep(player, platforms)(x).slowdown == FactorStep(x.slowdownTimer, x.slowdown)
    {
      UpdateSlowdown(x, player, platforms);
    }
  }

  /** Over `k` updates the slowdown fields evolve on their own, independently of the
      player, the level and the AI's movement. */
  lemma RunSlowdown(e: Exam, player: PlayerView, platforms: seq<Rect>, k: nat)
    ensures Run(e, player, platforms, k).slowdownTimer == TimerAfter(e.slowdownTimer, k)
    ensures Run(e, player, platforms, k).slowdown == FactorAfter(e.slowdownTimer, e.slowdown, k)
  {
    UpdateTicksSlowdown(player, platforms);
    IterateSlowdown(UpdateStep(player, platforms), e, k);
  }

  /** A slowdown of `d` ticks lasts ceil(d / 2) updates: the factor stays at one half
      exactly while fewer than d / 2 updates have run, and the timer is then empty. */
  lemma SlowdownLasts(e: Exam, player: PlayerView, platforms: seq<Rect>, k: nat)
    requires e.slowdownTimer > 0 && e.slowdown == SlowFactor
    ensures Run(e, player, platforms, k).slowdownTimer == MaxI(0, e.slowdownTimer - 2 * k)
    ensures Run(e, player, platforms, k).slowdown == (if 2 * k < e.slowdownTimer then SlowFactor else 1.0)
  {
    RunSlowdown(e, player, platforms, k);
    TimerAfterClosedForm(e.slowdownTimer, k);
    FactorAfterClosedForm(e.slowdownTimer, e.slowdown, k);
  }

  /** With the timer run out, the slowdown state never changes again. */
  lemma RunWithoutSlowdown(e: Exam, player: PlayerView, platforms: seq<Rect>, k: nat)
    requires e.slowdownTimer <= 0
    ensures Run(e, player, platforms, k).slowdownTimer == e.slowdownTimer
    ensures Run(e, player, platforms, k).slowdown == e.slowdown
  {
    RunSlowdown(e, player, platforms, k);
    TimerAfterClosedForm(e.slowdownTimer, k);
    FactorAfterClosedForm(e.slowdownTimer, e.slowdown, k);
  }

  /** An AI spawned `2 n` units above the level drops straight down for n updates and
      arrives at the top edge with its horizontal position and velocities untouched. */
  lemma {:induction false} DescendReachesTop(e: Exam, player: PlayerView, platforms: seq<Rect>, n: nat)
    requires e.rect.y == -DescendStep * n
    ensures Run(e, player, platforms, n).rect == e.rect.WithY(0)
    ensures Run(e, player, platforms, n).velX == e.velX
    ensures Run(e, player, platforms, n).velY == e.velY
    decreases n
  {
    if n > 0 {
      DescendReachesTop(Update(e, player, platforms), player, platforms, n - 1);
    }
  }

  /** Once inside the level, every update leaves the AI within the level's width. */
  lemma StaysInsideLevel(e: Exam, player: PlayerView, platforms: seq<Rect>)
    requires e.rect.y >= 0 && e.rect.w <= Config.LevelWidth
    ensures var r := Update(e, player, platforms).rect;
      0 <= r.Left() && r.Right() <= Config.LevelWidth
  {
  }

  /** The AI jumps exactly when it is grounded and the brain asks for a jump; otherwise
      its vertical speed just gains gravity before collisions. */
  lemma JumpOnlyWhenGrounded(e: Exam, player: PlayerView, platforms: seq<Rect>)
    requires e.rect.y >= 0
    requires !Grounded(e.rect, platforms)
    ensures Update(e, player, platforms).velY == 0.0 ||
            Update(e, player, platforms).velY == e.velY + Config.AIGravity
  {
  }

  // ---------------------------------------------------------------------------
  // The stationary guard

  /** Horizontal speed of the guard, in units per update */
  const GuardSpeed: int := 2
  const DefaultPatrolRange: int := 60

  /** A guard pacing around `spawnX`; `dir` is +1 or -1. */
  datatype Guard = Guard(rect: Rect, spawnX: int, patrolRange: int, dir: int)

  function NewGuard(x: int, y: int): (g: Guard)
    ensures g.rect.x == g.spawnX == x && g.rect.y == y && g.dir == 1
    ensures g.patrolRange == DefaultPatrolRange
  {
    Guard(Rect(x, y, Config.ExamSize, Config.ExamSize), x, DefaultPatrolRange, 1)
  }

  /** One update: step two units in the current direction, and turn round once
      further than the patrol range from the post. */
  function GuardUpdate(g: Guard): (g': Guard)
    ensures g'.rect == g.rect.Move(GuardSpeed * g.dir, 0)
    ensures g'.dir == (if IntAbs(g'.rect.x - g.spawnX) > g.patrolRange then -g.dir else g.dir)
    ensures g'.spawnX == g.spawnX && g'.patrolRange == g.patrolRange
  {
    var x := Trunc(g.rect.x as real + (g.dir * GuardSpeed) as real);
    var r := g.rect.WithX(x);
    Guard(r, g.spawnX, g.patrolRange, if IntAbs(r.x - g.spawnX) > g.patrolRange then -g.dir else g.dir)
  }

  /** The patrol invariant: the guard is never more than one step beyond its range,
      and when it is beyond the range it is already heading back. */
  predicate OnPatrol(g: Guard) {
    && g.patrolRange >= 0
    && (g.dir == 1 || g.dir == -1)
    && IntAbs(g.rect.x - g.spawnX) <= g.patrolRange + GuardSpeed
    && (g.rect.x - g.spawnX > g.patrolRange ==> g.dir == -1)
    && (g.spawnX - g.rect.x > g.patrolRange ==> g.dir == 1)
  }

  lemma GuardStaysOnPatrol(g: Guard)
    requires OnPatrol(g)
    ensures OnPatrol(GuardUpdate(g))
  {
  }

  lemma NewGuardOnPatrol(x: int, y: int)
    ensures OnPatrol(NewGuard(x, y))
  {
  }
}
