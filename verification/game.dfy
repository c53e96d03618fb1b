/** The game loop's rules: one PLAYING tick (time limit, movement, logging, item
    collection, catch, exit), respawning, building a level, and the menu
    transitions between HOME, PLAYING, LEVEL_COMPLETE, GAME_OVER and VICTORY. */
module Game {
  import opened Geometry
  import opened Options
  import Config
  import P = PlayerPhysics
  import Enemy
  import CameraView
  import Ui
  import SessionAnalysis
  import AIBrain

  /** Points awarded for each kind of collectible. */
  function Value(k: P.ItemKind): (v: int)
    ensures v > 0
  {
    match k
    case Idea => 15
    case Coffee => 20
    case Book => 25
    case Mind => 30
  }

  /** Every how many PLAYING ticks the threat level and player position are logged. */
  const LogPeriod: int := 15
  /** How long, in AI updates' timer ticks, a collected brain slows the AI. */
  const SlowAIDuration: int := 180
  /** Milliseconds per second: elapsed time is measured in milliseconds. */
  const TicksPerSecond: int := 1000

  const PlayerSpawnX: int := 100
  const PlayerSpawnY: int := 600
  const AISpawnX: int := 2600
  const AISpawnY: int := -200

  datatype Collectible = Collectible(rect: Rect, kind: P.ItemKind)

  datatype Screen = Home | Playing | LevelComplete | GameOver | Victory

  /** How a session ended; `Unfinished` is the empty outcome of a session in progress. */
  datatype Outcome = Unfinished | Timeout | Caught | LevelDone(level: int) | Escaped | Quit

  datatype Event = CollectEvent(time: real, kind: P.ItemKind)
  datatype ThreatSample = ThreatSample(time: real, level: int)
  datatype Point = Point(x: int, y: int)

  /** What the game records about the session it is playing. */
  datatype Session = Session(
    events: seq<Event>,
    threatHistory: seq<ThreatSample>,
    positions: seq<Point>,
    finalScore: int,
    outcome: Outcome)

  const FreshSession: Session := Session([], [], [], 0, Unfinished)

  /** Everything a level owns: it exists once the first level has been built. */
  datatype World = World(
    platforms: seq<Rect>,
    items: seq<Collectible>,
    player: P.Player,
    ai: Enemy.Exam,
    exit: Rect,
    camera: CameraView.Camera)

  datatype Game = Game(
    screen: Screen,
    level: int,
    lives: int,
    highScore: int,
    homeLoading: int,
    startTicks: int,
    timeRemaining: real,
    world: Option<World>,
    session: Session,
    logFrameCount: int,
    playButton: Ui.Button,
    restartButton: Ui.Button,
    exitButton: Ui.Button,
    nextLevelButton: Option<Ui.Button>,
    victoryButton: Option<Ui.Button>)

  /** Every screen but HOME shows a level, so a level has been built. */
  predicate Valid(g: Game) {
    g.screen != Home ==> g.world.Some?
  }

  const PlayButtonRect: Rect := Rect(Config.WindowWidth / 2 - 150, Config.WindowHeight - 120, 300, 80)
  const RestartButtonRect: Rect := Rect(Config.WindowWidth / 2 - 100, 380, 200, 56)
  const ExitButtonRect: Rect := Rect(Config.WindowWidth - 340 - 110, 22, 100, 36)
  const NextLevelButtonRect: Rect := Rect(Config.WindowWidth / 2 - 120, 400, 240, 56)
  const VictoryButtonRect: Rect := Rect(Config.WindowWidth / 2 - 100, 400, 200, 56)

  /** The game as it reaches HOME for the first time, with the stored high score. */
  function NewGame(storedHighScore: nat): (g: Game)
    ensures Valid(g) && g.screen == Home && g.homeLoading == 0
    ensures g.lives == Config.LivesMax && g.level == 1 && g.highScore == storedHighScore
    ensures g.session == FreshSession && g.world.None?
  {
    Game(Home, 1, Config.LivesMax, storedHighScore, 0, 0, Config.GameDurationSeconds as real,
         None, FreshSession, 0,
         Ui.NewButton(PlayButtonRect), Ui.NewButton(RestartButtonRect), Ui.NewButton(ExitButtonRect),
         None, None)
  }

  // ---------------------------------------------------------------------------
  // Building a level

  function Platform(x: int, y: int, w: nat, h: nat): Rect { Rect(x, y, w, h) }

  function Item(x: int, top: int, kind: P.ItemKind): Collectible {
    Collectible(Rect(x, top - Config.CollectibleSize, Config.CollectibleSize, Config.CollectibleSize), kind)
  }

  /** Ground and platforms of level 2, which has an easier layout. */
  function Level2Platforms(): (ps: seq<Rect>)
    ensures |ps| == 15 && ps[0] == Rect(0, 680, 3200, 40)
  {
    [Platform(0, 680, 3200, 40)]
    + seq(4, i => Platform(200 + i * 220, 620 - i * 55, 200, 28))
    + seq(5, i => Platform(1000 + i * 250, 540 - (i % 2) * 70, 200, 26))
    + seq(3, i => Platform(1900 + i * 180, 530 - i * 60, 200, 28))
    + [Platform(2500, 530, 400, 30), Platform(2600, 460, 300, 26)]
  }

  function Level2Items(): (cs: seq<Collectible>)
    ensures |cs| == 9
  {
    [Item(280, 620, P.Idea), Item(520, 565, P.Coffee), Item(1100, 540, P.Book),
     Item(1350, 470, P.Mind), Item(1550, 540, P.Idea), Item(2050, 530, P.Coffee),
     Item(2250, 470, P.Book), Item(2650, 460, P.Mind), Item(2780, 460, P.Coffee)]
  }

  /** Ground and platforms of every other level. */
  function StandardPlatforms(): (ps: seq<Rect>)
    ensures |ps| == 17 && ps[0] == Rect(0, 680, 3200, 40)
  {
    [Platform(0, 680, 3200, 40)]
    + seq(4, i => Platform(180 + i * 200, 620 - i * 70, 180, 28))
    + seq(6, i => Platform(900 + i * 220, 540 - (i % 3) * 80, 160, 26))
    + seq(4, i => Platform(1800 + (i % 2) * 140, 580 - i * 75, 180, 28))
    + [Platform(2300, 540, 350, 30), Platform(2380, 450, 260, 26)]
  }

  function StandardItems(): (cs: seq<Collectible>)
    ensures |cs| == 9
  {
    [Item(250, 620, P.Idea), Item(480, 550, P.Coffee), Item(950, 540, P.Book),
     Item(1200, 460, P.Mind), Item(1420, 540, P.Idea), Item(1920, 505, P.Coffee),
     Item(2100, 505, P.Book), Item(2480, 450, P.Mind), Item(2580, 450, P.Coffee)]
  }

  /** A fresh AI exam that has learnt from the stored sessions when their analysis succeeded. */
  function SpawnAI(stored: SessionAnalysis.AnalysisResult): (e: Enemy.Exam)
    ensures e.rect == Rect(AISpawnX, AISpawnY, Config.ExamSize, Config.ExamSize)
    ensures e.velX == 0.0 && e.velY == 0.0 && e.slowdownTimer == 0 && e.brain.history == []
    ensures e.brain.analysis.Some? <==> stored.Success?
  {
    var e := Enemy.NewExam(AISpawnX, AISpawnY);
    match stored
    case Failure(_) => e
    case Success(summary) => e.(brain := AIBrain.UpdateAnalysis(e.brain, summary))
  }

  /** The world of level n: level 2 has its own layout, every other number the standard one. */
  function BuildWorld(n: int, stored: SessionAnalysis.AnalysisResult): (w: World)
    ensures |w.platforms| == (if n == 2 then 15 else 17) && |w.items| == 9
    ensures w.platforms[0] == Rect(0, 680, Config.LevelWidth, 40)
    ensures w.player == P.NewPlayer(PlayerSpawnX, PlayerSpawnY)
    ensures w.ai == SpawnAI(stored)
    ensures w.exit == Rect(2950, 590, Config.ExitWidth, Config.ExitHeight)
    ensures w.camera == CameraView.NewCamera(Config.LevelWidth, Config.WindowHeight)
  {
    World(if n == 2 then Level2Platforms() else StandardPlatforms(),
          if n == 2 then Level2Items() else StandardItems(),
          P.NewPlayer(PlayerSpawnX, PlayerSpawnY),
          SpawnAI(stored),
          Rect(2950, 590, Config.ExitWidth, Config.ExitHeight),
          CameraView.NewCamera(Config.LevelWidth, Config.WindowHeight))
  }

  /** Makes level n current; nothing else about the game changes. */
  function CreateLevel(g: Game, n: int, stored: SessionAnalysis.AnalysisResult): (g': Game)
    ensures g'.level == n && g'.world == Some(BuildWorld(n, stored))
    ensures g' == g.(level := n, world := g'.world)
  {
    g.(level := n, world := Some(BuildWorld(n, stored)))
  }

  /** A freshly built level starts safe: the player touches no item, not the AI and not the exit. */
  lemma SpawnIsSafe(n: int, stored: SessionAnalysis.AnalysisResult)
    ensures var w := BuildWorld(n, stored);
      && (forall i :: 0 <= i < |w.items| ==> !Overlaps(w.player.rect, w.items[i].rect))
      && !Overlaps(w.player.rect, w.ai.rect)
      && !Overlaps(w.player.rect, w.exit)
  {
    var w := BuildWorld(n, stored);
    forall i | 0 <= i < |w.items|
      ensures !Overlaps(w.player.rect, w.items[i].rect)
    {
      assert w.items[i].rect.x >= 250;
    }
  }

  // ---------------------------------------------------------------------------
  // Respawning

  /** After a lost life: the player goes back to the start and the AI back to the sky,
      both at rest. */
  function Respawn(w: World): (w': World)
    ensures w'.player.rect == w.player.rect.WithX(PlayerSpawnX).WithY(PlayerSpawnY)
    ensures w'.player.velX == 0.0 && w'.player.velY == 0.0
    ensures w'.player == w.player.(rect := w'.player.rect, velX := 0.0, velY := 0.0)
    ensures w'.ai.rect == w.ai.rect.WithX(AISpawnX).WithY(AISpawnY)
    ensures w'.ai == w.ai.(rect := w'.ai.rect, velX := 0.0, velY := 0.0)
    ensures w'.items == w.items && w'.platforms == w.platforms && w'.exit == w.exit
    ensures w'.camera == w.camera
  {
    w.(player := w.player.(rect := w.player.rect.WithX(PlayerSpawnX).WithY(PlayerSpawnY), velX := 0.0, velY := 0.0),
       ai := w.ai.(rect := w.ai.rect.WithX(AISpawnX).WithY(AISpawnY), velX := 0.0, velY := 0.0))
  }

  /** Respawning keeps the score, the collected items, the AI's slowdown and what it learnt. */
  lemma RespawnKeepsProgress(w: World)
    ensures Respawn(w).player.score == w.player.score
    ensures forall k :: P.ItemCount(Respawn(w).player, k) == P.ItemCount(w.player, k)
    ensures Respawn(w).ai.brain == w.ai.brain && Respawn(w).ai.slowdownTimer == w.ai.slowdownTimer
    ensures Respawn(w).player.rect.x == PlayerSpawnX && Respawn(w).player.rect.y == PlayerSpawnY
  {
  }

  // ---------------------------------------------------------------------------
  // Collecting items

  /** The player after picking up one item: its value scores, its kind is counted and
      a coffee restarts the energy timer. */
  function Pick(p: P.Player, k: P.ItemKind): (p': P.Player)
    ensures p'.score == p.score + Value(k)
    ensures forall j :: P.ItemCount(p', j) == P.ItemCount(p, j) + (if j == k then 1 else 0)
    ensures p'.coffeeTimer == (if k == P.Coffee then Config.CoffeeEnergyDuration else p.coffeeTimer)
    ensures p' == p.(score := p'.score, items := p'.items, coffeeTimer := p'.coffeeTimer)
  {
    var p1 := p.(score := p.score + Value(k), items := p.items[k := P.ItemCount(p, k) + 1]);
    if k == P.Coffee then p1.(coffeeTimer := Config.CoffeeEnergyDuration) else p1
  }

  /** A brain item slows the AI down. */
  function Affect(ai: Enemy.Exam, k: P.ItemKind): Enemy.Exam {
    if k == P.Mind then Enemy.SlowDown(ai, SlowAIDuration) else ai
  }

  function TotalValue(cs: seq<Collectible>): int {
    if cs == [] then 0 else Value(cs[0].kind) + TotalValue(cs[1..])
  }

  function CountKind(cs: seq<Collectible>, k: P.ItemKind): nat {
    if cs == [] then 0 else (if cs[0].kind == k then 1 else 0) + CountKind(cs[1..], k)
  }

  predicate HasKind(cs: seq<Collectible>, k: P.ItemKind) {
    exists i :: 0 <= i < |cs| && cs[i].kind == k
  }

  /** One COLLECT event per item taken, in the order they were taken. */
  function EventsOf(cs: seq<Collectible>, time: real): (es: seq<Event>)
    ensures |es| == |cs|
    ensures forall i :: 0 <= i < |cs| ==> es[i] == CollectEvent(time, cs[i].kind)
  {
    seq(|cs|, i requires 0 <= i < |cs| => CollectEvent(time, cs[i].kind))
  }

  /** The outcome of one pass over the items: who the player and the AI have become,
      the items left in the level and the items taken. */
  datatype Haul = Haul(player: P.Player, ai: Enemy.Exam, kept: seq<Collectible>, taken: seq<Collectible>)

  /** One pass over the items, taking each one the player's rectangle overlaps: every
      item is either kept or taken, the taken ones are exactly those in reach. */
  function CollectAll(p: P.Player, ai: Enemy.Exam, items: seq<Collectible>): (h: Haul)
    ensures multiset(h.kept) + multiset(h.taken) == multiset(items)
    ensures forall i :: 0 <= i < |h.taken| ==> Overlaps(p.rect, h.taken[i].rect)
    ensures forall i :: 0 <= i < |h.kept| ==> !Overlaps(p.rect, h.kept[i].rect)
    decreases |items|
  {
    if items == [] then Haul(p, ai, [], [])
    else
      var it := items[0];
      assert items == [it] + items[1..];
      if Overlaps(p.rect, it.rect) then
        var h := CollectAll(Pick(p, it.kind), Affect(ai, it.kind), items[1..]);
        Haul(h.player, h.ai, h.kept, [it] + h.taken)
      else
        var h := CollectAll(p, ai, items[1..]);
        Haul(h.player, h.ai, [it] + h.kept, h.taken)
  }

  /** What the taken items are worth: their values add to the score and each is
      counted under its kind; nothing else about the player but the coffee timer changes. */
  lemma {:induction false} CollectAllScores(p: P.Player, ai: Enemy.Exam, items: seq<Collectible>)
    ensures var h := CollectAll(p, ai, items);
      && h.player.score == p.score + TotalValue(h.taken)
      && (forall k :: P.ItemCount(h.player, k) == P.ItemCount(p, k) + CountKind(h.taken, k))
      && h.player == p.(score := h.player.score, items := h.player.items, coffeeTimer := h.player.coffeeTimer)
    decreases |items|
  {
    if items != [] {
      var it := items[0];
      if Overlaps(p.rect, it.rect) {
        var h := CollectAll(Pick(p, it.kind), Affect(ai, it.kind), items[1..]);
        CollectAllScores(Pick(p, it.kind), Affect(ai, it.kind), items[1..]);
        TakenFirst(it, h.taken);
        assert CollectAll(p, ai, items).taken == [it] + h.taken;
      } else {
        CollectAllScores(p, ai, items[1..]);
      }
    }
  }

  /** The effects of the taken items: a coffee restarts the energy timer and a brain
      slows the AI down; without them neither changes. */
  lemma {:induction false} CollectAllEffects(p: P.Player, ai: Enemy.Exam, items: seq<Collectible>)
    ensures var h := CollectAll(p, ai, items);
      && h.player.coffeeTimer == (if HasKind(h.taken, P.Coffee) then Config.CoffeeEnergyDuration else p.coffeeTimer)
      && h.ai == (if HasKind(h.taken, P.Mind) then Enemy.SlowDown(ai, SlowAIDuration) else ai)
    decreases |items|
  {
    if items != [] {
      var it := items[0];
      if Overlaps(p.rect, it.rect) {
        var h := CollectAll(Pick(p, it.kind), Affect(ai, it.kind), items[1..]);
        CollectAllEffects(Pick(p, it.kind), Affect(ai, it.kind), items[1..]);
        TakenFirst(it, h.taken);
        assert CollectAll(p, ai, items).taken == [it] + h.taken;
      } else {
        CollectAllEffects(p, ai, items[1..]);
      }
    }
  }

  lemma TakenFirst(it: Collectible, cs: seq<Collectible>)
    ensures forall k :: HasKind([it] + cs, k) <==> it.kind == k || HasKind(cs, k)
    ensures ([it] + cs)[1..] == cs
  {
    forall k ensures HasKind([it] + cs, k) <==> it.kind == k || HasKind(cs, k) {
      if it.kind == k {
        assert ([it] + cs)[0].kind == k;
      }
      if HasKind(cs, k) {
        var i :| 0 <= i < |cs| && cs[i].kind == k;
        assert ([it] + cs)[i + 1] == cs[i];
      }
      if HasKind([it] + cs, k) && it.kind != k {
        var i :| 0 <= i < |[it] + cs| && ([it] + cs)[i].kind == k;
        assert cs[i - 1] == ([it] + cs)[i];
      }
    }
  }

  /** Items left behind are out of reach: a second pass with the player where it is
      takes nothing and changes nothing, so no item is collected twice. */
  lemma {:induction false} CollectAllOnce(p: P.Player, ai: Enemy.Exam, items: seq<Collectible>)
    ensures var h := CollectAll(p, ai, items);
      CollectAll(h.player, h.ai, h.kept) == Haul(h.player, h.ai, h.kept, [])
  {
    var h := CollectAll(p, ai, items);
    CollectAllScores(p, ai, items);
    NothingInReach(h.player, h.ai, h.kept);
  }

  lemma {:induction false} NothingInReach(p: P.Player, ai: Enemy.Exam, items: seq<Collectible>)
    requires forall i :: 0 <= i < |items| ==> !Overlaps(p.rect, items[i].rect)
    ensures CollectAll(p, ai, items) == Haul(p, ai, items, [])
    decreases |items|
  {
    if items != [] {
      assert !Overlaps(p.rect, items[0].rect);
      NothingInReach(p, ai, items[1..]);
      assert [items[0]] + items[1..] == items;
    }
  }

  /** An item overlapping the player is taken, and one that does not is kept. */
  lemma ItemFate(p: P.Player, ai: Enemy.Exam, items: seq<Collectible>, i: int)
    requires 0 <= i < |items|
    ensures var h := CollectAll(p, ai, items);
      if Overlaps(p.rect, items[i].rect) then items[i] in h.taken && items[i] !in h.kept
      else items[i] in h.kept && items[i] !in h.taken
  {
    var h := CollectAll(p, ai, items);
    assert items[i] in multiset(items);
    assert items[i] in multiset(h.kept) + multiset(h.taken);
  }

  // ---------------------------------------------------------------------------
  // The PLAYING tick

  /** Seconds since the level started; `now` and `startTicks` are in milliseconds. */
  function Elapsed(g: Game, now: int): real {
    (now - g.startTicks) as real / TicksPerSecond as real
  }

  /** The seconds left on the clock, never negative. */
  function Remaining(g: Game, now: int): (r: real)
    ensures r >= 0.0
    ensures r == 0.0 <==> now - g.startTicks >= Config.GameDurationSeconds * TicksPerSecond
  {
    MaxR(0.0, Config.GameDurationSeconds as real - Elapsed(g, now))
  }

  /** Losing a life: the last one ends the game with the given outcome and the score
      recorded, any other respawns the player and the AI. */
  function LoseLife(g: Game, w: World, outcome: Outcome): (g': Game)
    ensures g'.lives == g.lives - 1
    ensures g'.lives <= 0 ==> (g'.screen == GameOver && g'.world == Some(w)
      && g'.highScore == MaxI(g.highScore, w.player.score)
      && g'.session == g.session.(finalScore := w.player.score, outcome := outcome))
    ensures g'.lives > 0 ==> (g'.screen == g.screen && g'.world == Some(Respawn(w))
      && g'.session == g.session && g'.highScore == g.highScore)
    ensures g'.startTicks == g.startTicks && g'.level == g.level
  {
    var lives := g.lives - 1;
    if lives <= 0 then
      g.(lives := lives, screen := GameOver, world := Some(w),
         session := g.session.(finalScore := w.player.score, outcome := outcome),
         highScore := MaxI(g.highScore, w.player.score))
    else
      g.(lives := lives, world := Some(Respawn(w)))
  }

  /** The logging counter: every 15th tick the threat level and the player's centre
      are appended to the session. */
  function Log(g: Game, time: real, threat: int, player: Rect): (g': Game)
    ensures 0 <= g.logFrameCount < LogPeriod ==> 0 <= g'.logFrameCount < LogPeriod
    ensures g'.logFrameCount == (if g.logFrameCount + 1 >= LogPeriod then 0 else g.logFrameCount + 1)
    ensures g.logFrameCount + 1 >= LogPeriod ==>
      g'.session.threatHistory == g.session.threatHistory + [ThreatSample(time, threat)]
      && g'.session.positions == g.session.positions + [Point(player.CenterX(), player.CenterY())]
    ensures g.logFrameCount + 1 < LogPeriod ==> g'.session == g.session
    ensures g' == g.(logFrameCount := g'.logFrameCount, session := g'.session)
    ensures g'.session.events == g.session.events && g'.session.outcome == g.session.outcome
  {
    var count := g.logFrameCount + 1;
    if count >= LogPeriod then
      g.(logFrameCount := 0,
         session := g.session.(threatHistory := g.session.threatHistory + [ThreatSample(time, threat)],
                               positions := g.session.positions + [Point(player.CenterX(), player.CenterY())]))
    else g.(logFrameCount := count)
  }

  /** The movement half of a tick: the player moves, the AI reacts to where the player
      now is, the panel's threat level is logged and the items in reach are collected. */
  function Advance(g: Game, w: World, now: int, keys: P.Keys): (g': Game)
    ensures g'.world.Some?
    ensures var w' := g'.world.value;
      var p := P.Update(w.player, keys, w.platforms);
      var ai := Enemy.Update(w.ai, Enemy.PlayerView(p.rect, p.velX, p.velY), w.platforms);
      var h := CollectAll(p, ai, w.items);
      && w' == w.(player := h.player, ai := h.ai, items := h.kept)
      && g'.session.events == g.session.events + EventsOf(h.taken, Elapsed(g, now))
    ensures g'.screen == g.screen && g'.lives == g.lives && g'.highScore == g.highScore
    ensures g'.level == g.level && g'.startTicks == g.startTicks
    ensures g'.session.outcome == g.session.outcome
  {
    var time := Elapsed(g, now);
    var p := P.Update(w.player, keys, w.platforms);
    var ai := Enemy.Update(w.ai, Enemy.PlayerView(p.rect, p.velX, p.velY), w.platforms);
    var panel := Ui.PanelUpdate(ai, p.rect);
    var g1 := Log(g, time, panel.threat.level, p.rect);
    var h := CollectAll(p, ai, w.items);
    g1.(world := Some(w.(player := h.player, ai := h.ai, items := h.kept)),
        session := g1.session.(events := g1.session.events + EventsOf(h.taken, time)))
  }

  /** Reaching the exit: levels 1 to 3 are completed, the last level is escaped. */
  function ReachExit(g: Game, w: World): (g': Game)
    ensures g.level < Config.LastLevel ==> (g'.screen == LevelComplete
      && g'.session == g.session.(finalScore := w.player.score, outcome := LevelDone(g.level))
      && g'.highScore == g.highScore && g'.nextLevelButton.Some?)
    ensures g.level >= Config.LastLevel ==> (g'.screen == Victory
      && g'.session == g.session.(finalScore := w.player.score, outcome := Escaped)
      && g'.highScore == MaxI(g.highScore, w.player.score) && g'.victoryButton.Some?)
    ensures g'.lives == g.lives && g'.world == g.world && g'.level == g.level
  {
    if g.level < Config.LastLevel then
      g.(screen := LevelComplete,
         session := g.session.(finalScore := w.player.score, outcome := LevelDone(g.level)),
         nextLevelButton := Some(Ui.NewButton(NextLevelButtonRect)))
    else
      g.(screen := Victory,
         session := g.session.(finalScore := w.player.score, outcome := Escaped),
         highScore := MaxI(g.highScore, w.player.score),
         victoryButton := Some(Ui.NewButton(VictoryButtonRect)))
  }

  /** One PLAYING tick at time `now` (milliseconds) with the given keys held. */
  function PlayingTick(g: Game, now: int, keys: P.Keys): (g': Game)
    requires g.screen == Playing && g.world.Some?
    ensures Valid(g')
    ensures g'.highScore >= g.highScore
    ensures g'.timeRemaining == Remaining(g, now)
    ensures g'.screen in {Playing, GameOver, LevelComplete, Victory}
    ensures g'.startTicks == g.startTicks && g'.level == g.level
    ensures g'.lives == g.lives || g'.lives == g.lives - 1
    ensures g'.lives == g.lives - 1 ==> g'.screen in {Playing, GameOver}
    ensures g'.screen == GameOver <==> g'.lives < g.lives && g'.lives <= 0
    ensures g'.screen == GameOver ==> g'.highScore >= g'.session.finalScore
    ensures g'.screen == Victory ==> g'.highScore >= g'.session.finalScore
  {
    var w := g.world.value;
    var g0 := g.(timeRemaining := Remaining(g, now));
    if g0.timeRemaining <= 0.0 then LoseLife(g0, w, Timeout)
    else
      var g1 := Advance(g0, w, now, keys);
      var w1 := g1.world.value;
      if Overlaps(w1.player.rect, w1.ai.rect) then LoseLife(g1, w1, Caught)
      else
        var g2 := if Overlaps(w1.player.rect, w1.exit) then ReachExit(g1, w1) else g1;
        g2.(world := Some(w1.(camera := CameraView.Update(w1.camera, w1.player.rect))))
  }

  /** Out of time, a tick loses a life and does nothing else; the last life ends the
      game with a TIMEOUT outcome. */
  lemma TimeoutCostsALife(g: Game, now: int, keys: P.Keys)
    requires g.screen == Playing && g.world.Some?
    requires now - g.startTicks >= Config.GameDurationSeconds * TicksPerSecond
    ensures var g' := PlayingTick(g, now, keys);
      && g'.lives == g.lives - 1
      && (g'.lives > 0 ==> g'.screen == Playing && g'.world == Some(Respawn(g.world.value)))
      && (g'.lives <= 0 ==> g'.screen == GameOver && g'.session.outcome == Timeout)
  {
  }

  /** Up to n PLAYING ticks at the same time `now`, stopping once the game leaves PLAYING. */
  function Ticks(g: Game, now: int, keys: P.Keys, n: nat): (g': Game)
    requires g.screen == Playing && g.world.Some?
    ensures Valid(g')
    decreases n
  {
    if n == 0 then g
    else
      var g1 := PlayingTick(g, now, keys);
      if g1.screen == Playing then Ticks(g1, now, keys, n - 1) else g1
  }

  /** Respawning does not restart the clock, so once time is up every tick costs a life
      until the game is over: with `lives` lives left, exactly `lives` ticks end it. */
  lemma {:induction false} TimeoutCascade(g: Game, now: int, keys: P.Keys)
    requires g.screen == Playing && g.world.Some? && g.lives >= 1
    requires now - g.startTicks >= Config.GameDurationSeconds * TicksPerSecond
    ensures var g' := Ticks(g, now, keys, g.lives);
      g'.screen == GameOver && g'.lives == 0 && g'.session.outcome == Timeout
    ensures g.lives > 1 ==> Ticks(g, now, keys, g.lives - 1).screen == Playing
    decreases g.lives
  {
    TimeoutCostsALife(g, now, keys);
    var g1 := PlayingTick(g, now, keys);
    if g.lives > 1 {
      assert g1.screen == Playing && g1.startTicks == g.startTicks && g1.lives == g.lives - 1;
      TimeoutCascade(g1, now, keys);
      assert Ticks(g, now, keys, g.lives) == Ticks(g1, now, keys, g1.lives);
      if g.lives > 2 {
        assert Ticks(g, now, keys, g.lives - 1) == Ticks(g1, now, keys, g1.lives - 1);
      } else {
        assert Ticks(g, now, keys, g.lives - 1) == Ticks(g1, now, keys, 0);
      }
    }
  }

  /** A catch is checked before the exit: a player the AI touches in a tick never
      completes the level in that tick, and pays a life. */
  lemma CatchBeatsExit(g: Game, now: int, keys: P.Keys)
    requires g.screen == Playing && g.world.Some?
    requires now - g.startTicks < Config.GameDurationSeconds * TicksPerSecond
    requires var w1 := Advance(g.(timeRemaining := Remaining(g, now)), g.world.value, now, keys).world.value;
      Overlaps(w1.player.rect, w1.ai.rect)
    ensures var g' := PlayingTick(g, now, keys);
      g'.screen in {Playing, GameOver} && g'.lives == g.lives - 1
      && (g'.screen == GameOver ==> g'.session.outcome == Caught)
  {
  }

  /** Without a catch, overlapping the exit completes the level, or wins the game on
      the last level. */
  lemma ExitEndsLevel(g: Game, now: int, keys: P.Keys)
    requires g.screen == Playing && g.world.Some?
    requires now - g.startTicks < Config.GameDurationSeconds * TicksPerSecond
    requires var w1 := Advance(g.(timeRemaining := Remaining(g, now)), g.world.value, now, keys).world.value;
      !Overlaps(w1.player.rect, w1.ai.rect) && Overlaps(w1.player.rect, w1.exit)
    ensures var g' := PlayingTick(g, now, keys);
      && g'.lives == g.lives
      && (g.level < Config.LastLevel ==> g'.screen == LevelComplete && g'.session.outcome == LevelDone(g.level))
      && (g.level >= Config.LastLevel ==> g'.screen == Victory && g'.session.outcome == Escaped)
  {
  }

  // ---------------------------------------------------------------------------
  // Menus and keys

  /** PLAY from HOME: a fresh session, full lives and level 1, with the clock started now. */
  function StartNewGame(g: Game, now: int, stored: SessionAnalysis.AnalysisResult): (g': Game)
    ensures g'.screen == Playing && g'.lives == Config.LivesMax && g'.level == 1
    ensures g'.world == Some(BuildWorld(1, stored)) && g'.startTicks == now
    ensures g'.session == FreshSession && g'.highScore == g.highScore
  {
    CreateLevel(g.(lives := Config.LivesMax, session := FreshSession), 1, stored)
      .(screen := Playing, startTicks := now)
  }

  /** RESTART from GAME_OVER: full lives and level 1; the session log is kept. */
  function Restart(g: Game, now: int, stored: SessionAnalysis.AnalysisResult): (g': Game)
    ensures g'.screen == Playing && g'.lives == Config.LivesMax && g'.level == 1
    ensures g'.world == Some(BuildWorld(1, stored)) && g'.startTicks == now
    ensures g'.session == g.session && g'.highScore == g.highScore
  {
    CreateLevel(g.(lives := Config.LivesMax), 1, stored).(screen := Playing, startTicks := now)
  }

  /** The next-level button: the following level, lives and session kept. */
  function NextLevel(g: Game, now: int, stored: SessionAnalysis.AnalysisResult): (g': Game)
    ensures g'.screen == Playing && g'.level == g.level + 1 && g'.lives == g.lives
    ensures g'.world == Some(BuildWorld(g.level + 1, stored)) && g'.startTicks == now
    ensures g'.session == g.session && g'.highScore == g.highScore
  {
    CreateLevel(g, g.level + 1, stored).(screen := Playing, startTicks := now)
  }

  /** Back to HOME with the play button available at once. */
  function BackHome(g: Game): (g': Game)
    ensures g'.screen == Home && g'.homeLoading == Config.HomeLoadingDuration
    ensures g' == g.(screen := Home, homeLoading := Config.HomeLoadingDuration)
  {
    g.(screen := Home, homeLoading := Config.HomeLoadingDuration)
  }

  /** The EXIT button while playing: the session ends as QUIT with the current score. */
  function QuitToHome(g: Game, w: World): (g': Game)
    ensures g'.screen == Home && g'.homeLoading == Config.HomeLoadingDuration
    ensures g'.session == g.session.(finalScore := w.player.score, outcome := Quit)
    ensures g'.lives == g.lives && g'.highScore == g.highScore && g'.world == g.world
  {
    BackHome(g.(session := g.session.(finalScore := w.player.score, outcome := Quit)))
  }

  /** The button pass of a frame, with the mouse at (mx, my) and `click` when the
      mouse was pressed this frame. The screens are tested in turn, so the screen a
      button leads to is tested again later in the same pass. */
  function HandleButtons(g: Game, mx: int, my: int, click: bool, now: int,
                         stored: SessionAnalysis.AnalysisResult): (g': Game)
    requires Valid(g)
    ensures Valid(g')
    ensures g'.highScore == g.highScore
    ensures !click ==> (g'.screen == g.screen && g'.lives == g.lives && g'.world == g.world
      && g'.session == g.session && g'.level == g.level)
  {
    var g1 := if g.screen == Playing then ExitStep(g, mx, my, click) else g;
    var g2 := if g1.screen == Home then HomeStep(g1, mx, my, click, now, stored) else g1;
    var g3 := if g2.screen == LevelComplete then LevelCompleteStep(g2, mx, my, click, now, stored) else g2;
    var g4 := if g3.screen == GameOver then GameOverStep(g3, mx, my, click, now, stored) else g3;
    if g4.screen == Victory then VictoryStep(g4, mx, my, click) else g4
  }

  function ExitStep(g: Game, mx: int, my: int, click: bool): (g': Game)
    requires g.screen == Playing && g.world.Some?
    ensures Valid(g') && g'.highScore == g.highScore
    ensures g'.screen == Home <==> click && ContainsPoint(g.exitButton.rect, mx, my)
    ensures g'.screen != Home ==> g' == g.(exitButton := g'.exitButton)
    ensures g'.screen == Home ==> g' == QuitToHome(g, g.world.value).(exitButton := g'.exitButton)
  {
    var o := Ui.ButtonUpdate(g.exitButton, mx, my, click);
    var g1 := g.(exitButton := o.button);
    if o.pressed then QuitToHome(g1, g1.world.value) else g1
  }

  function HomeStep(g: Game, mx: int, my: int, click: bool, now: int,
                    stored: SessionAnalysis.AnalysisResult): (g': Game)
    requires g.screen == Home
    ensures Valid(g') && g'.highScore == g.highScore
    ensures g'.screen in {Home, Playing}
    ensures g'.screen == Playing <==> (g.homeLoading >= Config.HomeLoadingDuration - 1 && click
      && ContainsPoint(g.playButton.rect, mx, my))
    ensures g'.screen == Home ==> ((g.homeLoading < Config.HomeLoadingDuration ==> g'.homeLoading == g.homeLoading + 1)
      && (g.homeLoading >= Config.HomeLoadingDuration ==> g'.homeLoading == g.homeLoading)
      && g' == g.(homeLoading := g'.homeLoading, playButton := g'.playButton))
    ensures g'.screen == Playing ==> (g'.lives == Config.LivesMax && g'.level == 1 && g'.session == FreshSession
      && g'.startTicks == now)
  {
    var loading := if g.homeLoading < Config.HomeLoadingDuration then g.homeLoading + 1 else g.homeLoading;
    var g1 := g.(homeLoading := loading);
    if loading >= Config.HomeLoadingDuration then
      var o := Ui.ButtonUpdate(g1.playButton, mx, my, click);
      var g2 := g1.(playButton := o.button);
      if o.pressed then StartNewGame(g2, now, stored) else g2
    else g1
  }

  function LevelCompleteStep(g: Game, mx: int, my: int, click: bool, now: int,
                             stored: SessionAnalysis.AnalysisResult): (g': Game)
    requires g.screen == LevelComplete && g.world.Some?
    ensures Valid(g') && g'.highScore == g.highScore
    ensures g'.screen == Playing <==> (g.nextLevelButton.Some? && click
      && ContainsPoint(g.nextLevelButton.value.rect, mx, my))
    ensures g'.screen != Playing ==> g' == g.(nextLevelButton := g'.nextLevelButton)
    ensures g'.screen == Playing ==> g'.level == g.level + 1 && g'.lives == g.lives && g'.session == g.session
  {
    match g.nextLevelButton
    case None => g
    case Some(b) =>
      var o := Ui.ButtonUpdate(b, mx, my, click);
      var g1 := g.(nextLevelButton := Some(o.button));
      if o.pressed then NextLevel(g1, now, stored) else g1
  }

  function GameOverStep(g: Game, mx: int, my: int, click: bool, now: int,
                        stored: SessionAnalysis.AnalysisResult): (g': Game)
    requires g.screen == GameOver && g.world.Some?
    ensures Valid(g') && g'.highScore == g.highScore
    ensures g'.screen == Playing <==> click && ContainsPoint(g.restartButton.rect, mx, my)
    ensures g'.screen != Playing ==> g' == g.(restartButton := g'.restartButton)
    ensures g'.screen == Playing ==> g'.level == 1 && g'.lives == Config.LivesMax && g'.session == g.session
  {
    var o := Ui.ButtonUpdate(g.restartButton, mx, my, click);
    var g1 := g.(restartButton := o.button);
    if o.pressed then Restart(g1, now, stored) else g1
  }

  function VictoryStep(g: Game, mx: int, my: int, click: bool): (g': Game)
    requires g.screen == Victory && g.world.Some?
    ensures Valid(g') && g'.highScore == g.highScore
    ensures g'.screen == Home <==> (g.victoryButton.Some? && click
      && ContainsPoint(g.victoryButton.value.rect, mx, my))
    ensures g'.screen != Home ==> g' == g.(victoryButton := g'.victoryButton)
    ensures g'.screen == Home ==> g'.homeLoading == Config.HomeLoadingDuration && g'.session == g.session
  {
    match g.victoryButton
    case None => g
    case Some(b) =>
      var o := Ui.ButtonUpdate(b, mx, my, click);
      var g1 := g.(victoryButton := Some(o.button));
      if o.pressed then BackHome(g1) else g1
  }

  /** The input events of a frame that the game reacts to. */
  datatype Input = QuitRequest | MouseDown | EscapeKey | OtherInput

  /** The event pass of a frame: a quit request or Escape outside PLAYING closes the
      game (`None`); Escape while PLAYING goes HOME; a mouse press is remembered as the
      frame's click. */
  function HandleInputs(g: Game, inputs: seq<Input>, click: bool): (r: Option<(Game, bool)>)
    ensures r.Some? ==> (r.value.0.screen == g.screen || (g.screen == Playing && r.value.0.screen == Home))
    ensures r.Some? ==> r.value.1 == (click || MouseDown in inputs)
    ensures r.Some? ==> (r.value.0.session == g.session && r.value.0.world == g.world
      && r.value.0.highScore == g.highScore && r.value.0.lives == g.lives)
    ensures QuitRequest in inputs ==> r.None?
    ensures EscapeKey in inputs && g.screen != Playing ==> r.None?
    decreases |inputs|
  {
    if inputs == [] then Some((g, click))
    else
      assert inputs == [inputs[0]] + inputs[1..];
      match inputs[0]
      case QuitRequest => None
      case MouseDown => HandleInputs(g, inputs[1..], true)
      case OtherInput => HandleInputs(g, inputs[1..], click)
      case EscapeKey =>
        if g.screen == Playing then HandleInputs(BackHome(g), inputs[1..], click) else None
  }

  /** A whole frame of input handling: the events, then the buttons. `None` means the
      game closes. */
  function HandleFrame(g: Game, inputs: seq<Input>, mx: int, my: int, now: int,
                       stored: SessionAnalysis.AnalysisResult): (r: Option<Game>)
    requires Valid(g)
    ensures r.Some? ==> Valid(r.value) && r.value.highScore == g.highScore
    ensures QuitRequest in inputs ==> r.None?
  {
    match HandleInputs(g, inputs, false)
    case None => None
    case Some((g1, click)) => Some(HandleButtons(g1, mx, my, click, now, stored))
  }

  // ---------------------------------------------------------------------------
  // Drawing's effect on the end-screen buttons

  /** The drawn heights of the end-screen images; `None` when an image is missing and
      a text title is drawn in its place. */
  datatype Art = Art(congratulations: Option<int>, victory: Option<int>, gameOver: Option<int>)

  /** The top of the end screens' image or title. */
  const TitleTop: int := Config.WindowHeight / 2 - 160
  /** The height reserved for the text title of LEVEL_COMPLETE and of the other end screens. */
  const LevelTitleHeight: int := 60
  const EndTitleHeight: int := 80

  /** Where drawing places the top of each end-screen button. */
  function NextLevelButtonY(image: Option<int>): int { TitleTop + image.GetOr(LevelTitleHeight) + 50 }
  function VictoryButtonY(image: Option<int>): int { TitleTop + image.GetOr(EndTitleHeight) + 10 + 55 }
  function RestartButtonY(image: Option<int>): int { TitleTop + image.GetOr(EndTitleHeight) + 55 }

  /** Moves a button to the row `y`, keeping everything else about it. */
  function PlaceAt(b: Ui.Button, y: int): Ui.Button {
    b.(rect := b.rect.WithY(y))
  }

  /** The state change of drawing a frame: the end screens lay their button out under
      the image or title, and later clicks are tested against that position. */
  function Layout(g: Game, art: Art): (g': Game)
    ensures g.screen == LevelComplete && g.nextLevelButton.Some? ==>
      g'.nextLevelButton.Some? && g'.nextLevelButton.value.rect.y == NextLevelButtonY(art.congratulations)
    ensures g.screen == Victory && g.victoryButton.Some? ==>
      g'.victoryButton.Some? && g'.victoryButton.value.rect.y == VictoryButtonY(art.victory)
    ensures g.screen == GameOver ==> g'.restartButton.rect.y == RestartButtonY(art.gameOver)
    ensures g'.restartButton.rect.x == g.restartButton.rect.x
    ensures g' == g.(restartButton := g'.restartButton, nextLevelButton := g'.nextLevelButton,
                     victoryButton := g'.victoryButton)
    ensures g.screen !in {LevelComplete, Victory, GameOver} ==> g' == g
  {
    match g.screen
    case LevelComplete =>
      g.(nextLevelButton := if g.nextLevelButton.Some? then
                              Some(PlaceAt(g.nextLevelButton.value, NextLevelButtonY(art.congratulations)))
                            else None)
    case Victory =>
      g.(victoryButton := if g.victoryButton.Some? then Some(PlaceAt(g.victoryButton.value, VictoryButtonY(art.victory)))
                          else None)
    case GameOver => g.(restartButton := PlaceAt(g.restartButton, RestartButtonY(art.gameOver)))
    case _ => g
  }

  /** Drawing the same screen again leaves the buttons where they are. */
  lemma LayoutIdempotent(g: Game, art: Art)
    ensures Layout(Layout(g, art), art) == Layout(g, art)
  {
  }

  /** After a frame has been drawn on LEVEL_COMPLETE, a click starts the next level
      exactly when it falls inside the button at its laid-out row. */
  lemma LaidOutNextLevelClick(g: Game, art: Art, mx: int, my: int, now: int,
                              stored: SessionAnalysis.AnalysisResult)
    requires g.screen == LevelComplete && g.world.Some? && g.nextLevelButton.Some?
    ensures var r := g.nextLevelButton.value.rect.WithY(NextLevelButtonY(art.congratulations));
      LevelCompleteStep(Layout(g, art), mx, my, true, now, stored).screen == Playing <==> ContainsPoint(r, mx, my)
  {
  }

  /** Without a congratulations image the next-level button is drawn at row 310, so a
      click at (640, 330) starts the next level although the button was created at
      row 400. */
  lemma NextLevelClickWithoutImage(g: Game, now: int, stored: SessionAnalysis.AnalysisResult)
    requires g.screen == LevelComplete && g.world.Some?
    requires g.nextLevelButton == Some(Ui.NewButton(NextLevelButtonRect))
    ensures !ContainsPoint(NextLevelButtonRect, 640, 330)
    ensures LevelCompleteStep(Layout(g, Art(None, None, None)), 640, 330, true, now, stored).screen == Playing
  {
    LaidOutNextLevelClick(g, Art(None, None, None), 640, 330, now, stored);
  }

  /** One pass of the main loop: the events and buttons, the PLAYING tick, then
      drawing. `None` means the game closes. */
  function Frame(g: Game, inputs: seq<Input>, mx: int, my: int, now: int, keys: P.Keys,
                 stored: SessionAnalysis.AnalysisResult, art: Art): (r: Option<Game>)
    requires Valid(g)
    ensures r.Some? ==> Valid(r.value) && r.value.highScore >= g.highScore
    ensures QuitRequest in inputs ==> r.None?
  {
    match HandleFrame(g, inputs, mx, my, now, stored)
    case None => None
    case Some(g1) =>
      var g2 := if g1.screen == Playing then PlayingTick(g1, now, keys) else g1;
      Some(Layout(g2, art))
  }

  /** Starting from HOME or restarting after GAME_OVER both give full lives on level 1;
      only starting from HOME clears the session log. */
  lemma StartAndRestartResetLives(g: Game, mx: int, my: int, now: int, stored: SessionAnalysis.AnalysisResult)
    requires Valid(g) && (g.screen == Home || g.screen == GameOver)
    requires g.screen == Home ==> g.homeLoading >= Config.HomeLoadingDuration && ContainsPoint(g.playButton.rect, mx, my)
    requires g.screen == GameOver ==> ContainsPoint(g.restartButton.rect, mx, my)
    ensures var g' := HandleButtons(g, mx, my, true, now, stored);
      && g'.screen == Playing && g'.lives == Config.LivesMax && g'.level == 1
      && g'.world == Some(BuildWorld(1, stored)) && g'.startTicks == now
      && (g.screen == Home ==> g'.session == FreshSession)
      && (g.screen == GameOver ==> g'.session == g.session)
  {
  }

  /** The high score never decreases, whatever the frame does. */
  lemma HighScoreNeverDecreases(g: Game, inputs: seq<Input>, mx: int, my: int, now: int, keys: P.Keys,
                                stored: SessionAnalysis.AnalysisResult)
    requires Valid(g)
    ensures var r := HandleFrame(g, inputs, mx, my, now, stored);
      r.Some? ==> (r.value.highScore == g.highScore
        && (r.value.screen == Playing ==> PlayingTick(r.value, now, keys).highScore >= g.highScore))
  {
  }
}
