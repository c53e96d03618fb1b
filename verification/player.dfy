/** The player's physics: keyboard acceleration with friction, a coffee speed boost,
    jumping from the ground, gravity with a fall-speed cap, per-axis collision with
    the platforms and a slow energy drain. */
module PlayerPhysics {
  import opened Geometry
  import Collision
  import Config

  /** Energy lost per update */
  const EnergyDrain: real := 0.02
  const MaxEnergy: real := 100.0
  /** Fraction of the (boosted) speed added per update while a direction key is held */
  const Acceleration: real := 0.5

  /** Kinds of collectible the player can carry a count of. */
  datatype ItemKind = Idea | Coffee | Book | Mind

  /** The keys held this update: left is Left arrow or Q, right is Right arrow or D,
      jump is Space, Up arrow or Z. */
  datatype Keys = Keys(left: bool, right: bool, jump: bool)

  datatype Player = Player(
    rect: Rect,
    velX: real,
    velY: real,
    onGround: bool,
    facingRight: bool,
    score: int,
    energy: real,
    items: map<ItemKind, nat>,
    coffeeTimer: int,
    justJumped: bool)

  function NewPlayer(x: int, y: int): (p: Player)
    ensures p.rect == Rect(x, y, Config.PlayerSize, Config.PlayerSize)
    ensures p.velX == 0.0 && p.velY == 0.0 && !p.onGround
    ensures p.score == 0 && p.energy == Config.InitialEnergy && p.coffeeTimer == 0
    ensures forall k :: ItemCount(p, k) == 0
  {
    Player(Rect(x, y, Config.PlayerSize, Config.PlayerSize), 0.0, 0.0, false, true, 0,
           Config.InitialEnergy, map[], 0, false)
  }

  /** The count of collected items of a kind; kinds never collected count 0. */
  function ItemCount(p: Player, k: ItemKind): nat {
    if k in p.items then p.items[k] else 0
  }

  /** The speed multiplier of this update: boosted while the coffee timer runs. */
  function SpeedMult(coffeeTimer: int): (m: real)
    ensures m == Config.CoffeeSpeedMult <==> coffeeTimer > 0
    ensures m == 1.0 <==> coffeeTimer <= 0
  {
    if coffeeTimer > 0 then Config.CoffeeSpeedMult else 1.0
  }

  /** Horizontal velocity after input: accelerate towards the held direction up to the
      speed limit (left wins over right), or decay by friction with no key held. */
  function SteerX(vx: real, keys: Keys, mult: real): (vx': real)
    requires mult > 0.0
    ensures keys.left ==> -Config.PlayerMaxSpeed * mult <= vx' && (vx' < vx || vx' == -Config.PlayerMaxSpeed * mult)
    ensures !keys.left && keys.right ==> vx' <= Config.PlayerMaxSpeed * mult && (vx' > vx || vx' == Config.PlayerMaxSpeed * mult)
    ensures !keys.left && !keys.right ==> Abs(vx') <= Abs(vx) && (vx' > 0.0 <==> vx > 0.0)
  {
    var speed := Config.PlayerSpeed * mult;
    var limit := Config.PlayerMaxSpeed * mult;
    if keys.left then MaxR(-limit, vx - speed * Acceleration)
    else if keys.right then MinR(limit, vx + speed * Acceleration)
    else vx * Config.Friction
  }

  /** Energy after one drain, kept within [0, 100]. */
  function Drain(e: real): (e': real)
    ensures 0.0 <= e' <= MaxEnergy
    ensures EnergyDrain <= e <= MaxEnergy + EnergyDrain ==> e' == e - EnergyDrain
    ensures e < EnergyDrain ==> e' == 0.0
  {
    MaxR(0.0, MinR(MaxEnergy, e - EnergyDrain))
  }

  /** The horizontal velocity after steering, before any collision. */
  function SteeredVelX(p: Player, keys: Keys): real {
    SteerX(p.velX, keys, SpeedMult(p.coffeeTimer))
  }

  /** The vertical velocity after a possible jump and gravity with the fall-speed cap,
      before any collision. */
  function FallVelY(p: Player, keys: Keys): real {
    var vy0 := if keys.jump && p.onGround then Config.JumpForce else p.velY;
    MinR(vy0 + Config.Gravity, Config.MaxFallSpeed)
  }

  /** One update of the player. */
  function Update(p: Player, keys: Keys, platforms: seq<Rect>): (p': Player)
    ensures p'.velX == SteeredVelX(p, keys) || p'.velX == 0.0
    ensures p'.velY == FallVelY(p, keys) || p'.velY == 0.0
    ensures p'.velY <= Config.MaxFallSpeed
    ensures p'.rect.w == p.rect.w && p'.rect.h == p.rect.h
    ensures p'.justJumped <==> keys.jump && p.onGround
    ensures p'.coffeeTimer == (if p.coffeeTimer > 0 then p.coffeeTimer - 1 else p.coffeeTimer)
    ensures 0.0 <= p'.energy <= MaxEnergy
    ensures p'.score == p.score && p'.items == p.items
    ensures keys.left ==> !p'.facingRight
    ensures !keys.left && keys.right ==> p'.facingRight
    ensures !keys.left && !keys.right ==> p'.facingRight == p.facingRight
  {
    var vx := SteeredVelX(p, keys);
    var facing := if keys.left then false else if keys.right then true else p.facingRight;
    var jumped := keys.jump && p.onGround;
    var vy := FallVelY(p, keys);
    var h := Collision.StopX(p.rect.Move(Trunc(vx), 0), vx, platforms);
    var v := Collision.ResolveY(h.rect.Move(0, Trunc(vy)), vy, false, platforms);
    Player(v.rect, h.vx, v.vy, v.landed, facing, p.score, Drain(p.energy), p.items,
           if p.coffeeTimer > 0 then p.coffeeTimer - 1 else p.coffeeTimer, jumped)
  }

  /** `n` updates with the same keys held. */
  function Run(p: Player, keys: Keys, platforms: seq<Rect>, n: nat): Player
    decreases n
  {
    if n == 0 then p else Run(Update(p, keys, platforms), keys, platforms, n - 1)
  }

  // ---------------------------------------------------------------------------
  // Properties

  /** Fastest horizontal speed the player can ever reach: the boosted limit. */
  const TopSpeed: real := Config.PlayerMaxSpeed * Config.CoffeeSpeedMult

  /** The horizontal speed never exceeds the boosted limit, even when the boost ends
      while the player is faster than the normal limit. */
  lemma SpeedStaysBounded(p: Player, keys: Keys, platforms: seq<Rect>)
    requires Abs(p.velX) <= TopSpeed
    ensures Abs(Update(p, keys, platforms).velX) <= TopSpeed
  {
    var mult := SpeedMult(p.coffeeTimer);
    var vx := SteerX(p.velX, keys, mult);
    assert Abs(vx) <= TopSpeed;
  }

  /** With no platform in the way of either moved box, the player moves by the
      truncated velocities, keeps them and is in the air. */
  lemma FreeFlight(p: Player, keys: Keys, platforms: seq<Rect>)
    requires var vx, vy := SteeredVelX(p, keys), FallVelY(p, keys);
      && !AnyOverlap(p.rect.Move(Trunc(vx), 0), platforms)
      && !AnyOverlap(p.rect.Move(Trunc(vx), Trunc(vy)), platforms)
    ensures var vx, vy := SteeredVelX(p, keys), FallVelY(p, keys);
      var p' := Update(p, keys, platforms);
      && p'.rect == p.rect.Move(Trunc(vx), Trunc(vy))
      && p'.velX == vx && p'.velY == vy && !p'.onGround
  {
    var vx, vy := SteeredVelX(p, keys), FallVelY(p, keys);
    var r1 := p.rect.Move(Trunc(vx), 0);
    Collision.NoOverlapNoChange(r1, vx, vy, platforms);
    assert r1.Move(0, Trunc(vy)) == p.rect.Move(Trunc(vx), Trunc(vy));
    Collision.NoOverlapNoChange(r1.Move(0, Trunc(vy)), vx, vy, platforms);
  }

  /** Horizontally, the player moves by its truncated velocity, and it stops exactly
      when the moved box touches a platform; a box that touches none is not pushed. */
  lemma HorizontalStep(p: Player, keys: Keys, platforms: seq<Rect>)
    ensures var vx := SteeredVelX(p, keys);
      var moved := p.rect.Move(Trunc(vx), 0);
      var p' := Update(p, keys, platforms);
      && p'.velX == (if AnyOverlap(moved, platforms) then 0.0 else vx)
      && (!AnyOverlap(moved, platforms) ==> p'.rect.x == moved.x)
  {
    var vx := SteeredVelX(p, keys);
    var moved := p.rect.Move(Trunc(vx), 0);
    Collision.StopXStopsOnContact(moved, vx, platforms);
    if !AnyOverlap(moved, platforms) {
      Collision.NoOverlapNoChange(moved, vx, 0.0, platforms);
    }
  }

  /** The player is on the ground after an update exactly when it was falling and a
      platform stopped it, and then its feet are on that platform's top edge. */
  lemma OnGroundMeansLanded(p: Player, keys: Keys, platforms: seq<Rect>)
    ensures var p' := Update(p, keys, platforms);
      p'.onGround ==> p'.velY == 0.0 && exists i :: 0 <= i < |platforms| && p'.rect.Bottom() == platforms[i].Top()
  {
    var mult := SpeedMult(p.coffeeTimer);
    var vx := SteerX(p.velX, keys, mult);
    var jumped := keys.jump && p.onGround;
    var vy0 := if jumped then Config.JumpForce else p.velY;
    var vy := MinR(vy0 + Config.Gravity, Config.MaxFallSpeed);
    var h := Collision.StopX(p.rect.Move(Trunc(vx), 0), vx, platforms);
    Collision.LandedOnPlatformTop(h.rect.Move(0, Trunc(vy)), vy, platforms);
  }

  /** A jump needs the ground: without it, the vertical speed only gains gravity
      (capped), unless a platform stops the player. */
  lemma NoJumpInTheAir(p: Player, keys: Keys, platforms: seq<Rect>)
    requires !p.onGround
    ensures var p' := Update(p, keys, platforms);
      p'.velY == 0.0 || p'.velY == MinR(p.velY + Config.Gravity, Config.MaxFallSpeed)
  {
  }

  /** A jump from the ground leaves the player rising at 14.35 units per update, or
      stopped by a ceiling. */
  lemma JumpFromGround(p: Player, keys: Keys, platforms: seq<Rect>)
    requires p.onGround && keys.jump
    ensures var p' := Update(p, keys, platforms);
      !p'.onGround && (p'.velY == 0.0 || p'.velY == Config.JumpForce + Config.Gravity)
  {
    var p' := Update(p, keys, platforms);
    OnGroundMeansLanded(p, keys, platforms);
    var mult := SpeedMult(p.coffeeTimer);
    var vx := SteerX(p.velX, keys, mult);
    var vy := MinR(Config.JumpForce + Config.Gravity, Config.MaxFallSpeed);
    var h := Collision.StopX(p.rect.Move(Trunc(vx), 0), vx, platforms);
    Collision.LandedOnPlatformTop(h.rect.Move(0, Trunc(vy)), vy, platforms);
  }

  /** Energy drains by 0.02 per update down to 0: after n updates from a level within
      [0, 100] it is max(0, e - 0.02 n). */
  lemma {:induction false} EnergyAfter(p: Player, keys: Keys, platforms: seq<Rect>, n: nat)
    requires 0.0 <= p.energy <= MaxEnergy
    ensures Run(p, keys, platforms, n).energy == MaxR(0.0, p.energy - EnergyDrain * n as real)
    decreases n
  {
    if n > 0 {
      var p' := Update(p, keys, platforms);
      EnergyAfter(p', keys, platforms, n - 1);
    }
  }

  /** The coffee boost lasts exactly as many updates as the timer was set to. */
  lemma {:induction false} CoffeeBoostLasts(p: Player, keys: Keys, platforms: seq<Rect>, n: nat)
    requires p.coffeeTimer >= 0
    ensures Run(p, keys, platforms, n).coffeeTimer == MaxI(0, p.coffeeTimer - n)
    ensures SpeedMult(Run(p, keys, platforms, n).coffeeTimer) == Config.CoffeeSpeedMult <==> n < p.coffeeTimer
    decreases n
  {
    if n > 0 {
      CoffeeBoostLasts(Update(p, keys, platforms), keys, platforms, n - 1);
    }
  }

  /** Standing still on a platform: with no key held, no horizontal speed and the
      player's feet on the top edge of its only platform, gravity pulls it 0.65 units
      into the first update (not enough to move a whole unit, so it is reported in
      the air), one unit on the second, where it is snapped back and grounded. The
      player therefore alternates between grounded and airborne updates while
      standing. */
  lemma StandingAlternates(p: Player, ground: Rect)
    requires p.velX == 0.0 && p.velY == 0.0
    requires p.rect.Bottom() == ground.Top()
    requires p.rect.w > 0 && p.rect.h > 0 && ground.w > 0 && ground.h > 0
    requires ground.Left() < p.rect.Right() && p.rect.Left() < ground.Right()
    ensures var p1 := Update(p, Keys(false, false, false), [ground]);
      && p1.rect == p.rect && !p1.onGround && p1.velY == Config.Gravity
    ensures var p2 := Update(Update(p, Keys(false, false, false), [ground]), Keys(false, false, false), [ground]);
      && p2.rect == p.rect && p2.onGround && p2.velY == 0.0
  {
    var none := Keys(false, false, false);
    assert SteerX(0.0, none, SpeedMult(p.coffeeTimer)) == 0.0;
    assert Trunc(0.0) == 0 && Trunc(Config.Gravity) == 0;
    assert p.rect.Move(0, 0) == p.rect;
    assert !Overlaps(p.rect, ground);
    Collision.NoOverlapNoChange(p.rect, 0.0, Config.Gravity, [ground]);
    var p1 := Update(p, none, [ground]);
    assert p1.rect == p.rect && p1.velX == 0.0 && p1.velY == Config.Gravity;
    assert Trunc(Config.Gravity + Config.Gravity) == 1;
    var down := p.rect.Move(0, 1);
    assert Overlaps(down, ground);
    assert Collision.PushOutY(down, Config.Gravity + Config.Gravity, ground) == p.rect;
  }
}
