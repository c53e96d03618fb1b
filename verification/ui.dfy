/** The interface logic: the AI analysis panel's telemetry, the text field's event
    handling and the animated button's hover and click. */
module Ui {
  import opened Geometry
  import opened Options
  import AIBrain
  import Enemy
  import Config

  // ---------------------------------------------------------------------------
  // AI analysis panel

  /** Distance thresholds of the threat bands, in level units */
  const FarDistance: int := 400
  const MidDistance: int := 250
  const NearDistance: int := 150

  datatype Threat = Threat(level: int, reason: string)

  /** What the panel shows about the AI. The AI's behaviour state is always CHASE and
      its speed multiplier always 1. */
  datatype Telemetry = Telemetry(
    state: string,
    distanceSq: int,
    canSee: bool,
    speedMult: real,
    intelligence: string,
    threat: Threat)

  /** Squared distance between two rectangles' centres. */
  function DistanceSq(a: Rect, b: Rect): (d: int)
    ensures d >= 0
    ensures d == 0 <==> a.CenterX() == b.CenterX() && a.CenterY() == b.CenterY()
  {
    var dx := b.CenterX() - a.CenterX();
    var dy := b.CenterY() - a.CenterY();
    dx * dx + dy * dy
  }

  /** "Adaptive" once the brain holds session analysis, "Learning" before. */
  function Intelligence(analysis: Option<AIBrain.SessionAnalysis.Summary>): (s: string)
    ensures s == "Adaptive" <==> analysis.Some?
    ensures s == "Learning" <==> analysis.None?
  {
    if analysis.Some? then "Adaptive" else "Learning"
  }

  /** The threat band of a squared distance: the distance compared against 400, 250
      and 150 without taking a square root. */
  function ThreatOf(distanceSq: int, intelligence: string): (t: Threat)
    ensures t.level == 10 || t.level == 40 || t.level == 70 || t.level == 100
    ensures t.level == 10 <==> distanceSq > FarDistance * FarDistance
    ensures t.level == 40 <==> MidDistance * MidDistance < distanceSq <= FarDistance * FarDistance
    ensures t.level == 70 <==> NearDistance * NearDistance < distanceSq <= MidDistance * MidDistance
    ensures t.level == 100 <==> distanceSq <= NearDistance * NearDistance
  {
    if distanceSq > FarDistance * FarDistance then
      Threat(10, "IA trop loin - Patrouille passive")
    else if distanceSq > MidDistance * MidDistance then
      Threat(40, "Analyse " + intelligence + " - Poursuite")
    else if distanceSq > NearDistance * NearDistance then
      Threat(70, "Joueur localisé - Calcul trajectoire")
    else
      Threat(100, "DANGER - IA en mode attaque !")
  }

  /** The panel's update from the AI and the player. */
  function PanelUpdate(ai: Enemy.Exam, player: Rect): (t: Telemetry)
    ensures t.distanceSq == DistanceSq(ai.rect, player)
    ensures t.canSee <==> t.distanceSq < Config.AIDetectionRange * Config.AIDetectionRange
    ensures t.intelligence == Intelligence(ai.brain.analysis)
    ensures t.threat == ThreatOf(t.distanceSq, t.intelligence)
    ensures t.state == "CHASE" && t.speedMult == Enemy.SpeedMultiplier
  {
    var d := DistanceSq(ai.rect, player);
    var intel := Intelligence(ai.brain.analysis);
    Telemetry("CHASE", d, d < Config.AIDetectionRange * Config.AIDetectionRange,
              Enemy.SpeedMultiplier, intel, ThreatOf(d, intel))
  }

  /** The band as the panel states it, on the distance itself. */
  function DistanceBand(d: real): int {
    if d > FarDistance as real then 10
    else if d > MidDistance as real then 40
    else if d > NearDistance as real then 70
    else 100
  }

  /** Comparing non-negative numbers is comparing their squares. */
  lemma CompareBySquares(d: real, k: real)
    requires d >= 0.0 && k >= 0.0
    ensures d > k <==> AIBrain.Sq(d) > AIBrain.Sq(k)
  {
    if d > k {
      AIBrain.SqStrictlyIncreasing(k, d);
    } else if d < k {
      AIBrain.SqStrictlyIncreasing(d, k);
    }
  }

  /** The squared-distance bands agree with the bands on the true distance, and so
      does the sight test. */
  lemma BandsMatchDistance(d: real, distanceSq: int, intelligence: string)
    requires d >= 0.0 && AIBrain.Sq(d) == distanceSq as real
    ensures ThreatOf(distanceSq, intelligence).level == DistanceBand(d)
    ensures distanceSq < Config.AIDetectionRange * Config.AIDetectionRange <==> d < Config.AIDetectionRange as real
  {
    BeyondBySquares(d, distanceSq, FarDistance);
    BeyondBySquares(d, distanceSq, MidDistance);
    BeyondBySquares(d, distanceSq, NearDistance);
    BeyondBySquares(d, distanceSq, Config.AIDetectionRange);
  }

  /** One threshold: the distance is beyond k exactly when its square is beyond k * k. */
  lemma BeyondBySquares(d: real, distanceSq: int, k: int)
    requires d >= 0.0 && AIBrain.Sq(d) == distanceSq as real && k >= 0
    ensures d > k as real <==> distanceSq > k * k
    ensures d < k as real <==> distanceSq < k * k
  {
    CompareBySquares(d, k as real);
    CompareBySquares(k as real, d);
    assert AIBrain.Sq(k as real) == (k * k) as real;
  }

  /** The threat never rises as the AI gets further away. */
  lemma ThreatNonIncreasing(d1: int, d2: int, intelligence: string)
    requires d1 <= d2
    ensures ThreatOf(d2, intelligence).level <= ThreatOf(d1, intelligence).level
  {
  }

  // ---------------------------------------------------------------------------
  // Text field

  datatype Key = Backspace | Return | OtherKey

  /** The input events the field reacts to; `unicode` is the text a key produces. */
  datatype Event = MouseDown(px: int, py: int) | KeyDown(key: Key, unicode: string) | OtherEvent

  datatype TextInput = TextInput(rect: Rect, text: string, maxChars: int, active: bool)

  datatype InputOutcome = InputOutcome(field: TextInput, submitted: bool)

  /** Printable as far as this model distinguishes characters: not a control
      character and not the no-break space. */
  predicate PrintableChar(c: char) {
    !(c < ' ' || ('\U{007F}' <= c <= '\U{009F}') || c == '\U{00A0}')
  }

  predicate Printable(s: string) {
    forall i :: 0 <= i < |s| ==> PrintableChar(s[i])
  }

  function NewTextInput(rect: Rect, maxChars: int): (t: TextInput)
    ensures t.text == "" && !t.active && t.maxChars == maxChars
  {
    TextInput(rect, "", maxChars, false)
  }

  /** A click (de)activates the field by position; an active field edits its text on
      a key press and reports Return as a submission. */
  function HandleEvent(t: TextInput, e: Event): (o: InputOutcome)
    ensures o.field.rect == t.rect && o.field.maxChars == t.maxChars
    ensures e.MouseDown? ==> o.field.active == ContainsPoint(t.rect, e.px, e.py) && o.field.text == t.text
    ensures !e.MouseDown? ==> o.field.active == t.active
    ensures o.submitted <==> t.active && e.KeyDown? && e.key == Return
    ensures !(t.active && e.KeyDown?) || e.key == Return ==> o.field.text == t.text
    ensures t.active && e.KeyDown? && e.key == Backspace ==>
      o.field.text == (if |t.text| == 0 then t.text else t.text[..|t.text| - 1])
    ensures t.active && e.KeyDown? && e.key == OtherKey ==>
      o.field.text == (if |t.text| < t.maxChars && Printable(e.unicode) then t.text + e.unicode else t.text)
    ensures |t.text| <= t.maxChars && (e.KeyDown? ==> |e.unicode| <= 1) ==> |o.field.text| <= t.maxChars
  {
    var t1 := if e.MouseDown? then t.(active := ContainsPoint(t.rect, e.px, e.py)) else t;
    if t1.active && e.KeyDown? then
      match e.key
      case Backspace =>
        InputOutcome(t1.(text := if |t1.text| == 0 then t1.text else t1.text[..|t1.text| - 1]), false)
      case Return => InputOutcome(t1, true)
      case OtherKey =>
        if |t1.text| < t1.maxChars && Printable(e.unicode) then InputOutcome(t1.(text := t1.text + e.unicode), false)
        else InputOutcome(t1, false)
    else InputOutcome(t1, false)
  }

  /** Backspace undoes typing a printable character into a field with room. */
  lemma BackspaceUndoesTyping(t: TextInput, c: char, anything: string)
    requires t.active && |t.text| < t.maxChars && PrintableChar(c)
    ensures var typed := HandleEvent(t, KeyDown(OtherKey, [c])).field;
      HandleEvent(typed, KeyDown(Backspace, anything)).field == t
  {
    var typed := HandleEvent(t, KeyDown(OtherKey, [c])).field;
    assert typed.text == t.text + [c];
    assert (t.text + [c])[..|t.text|] == t.text;
  }

  // ---------------------------------------------------------------------------
  // Button

  const MinScale: real := 1.0
  const MaxScale: real := 1.05
  const ScaleStep: real := 0.02

  /** The colour a button is drawn in: base, hover or pressed. */
  datatype Look = BaseLook | HoverLook | PressedLook

  datatype Button = Button(rect: Rect, hover: bool, clicked: bool, scale: real, look: Look)

  datatype ButtonOutcome = ButtonOutcome(button: Button, pressed: bool)

  function NewButton(rect: Rect): (b: Button)
    ensures b.scale == MinScale && !b.hover && !b.clicked
  {
    Button(rect, false, false, MinScale, BaseLook)
  }

  /** One frame: hovering grows the button towards 1.05, leaving shrinks it towards 1;
      a click while hovering presses it. */
  function ButtonUpdate(b: Button, mx: int, my: int, click: bool): (o: ButtonOutcome)
    ensures o.pressed <==> ContainsPoint(b.rect, mx, my) && click
    ensures o.button.hover == ContainsPoint(b.rect, mx, my) && o.button.clicked == o.pressed
    ensures o.button.rect == b.rect
    ensures MinScale <= b.scale <= MaxScale ==> MinScale <= o.button.scale <= MaxScale
    ensures o.button.scale == (if o.button.hover then MinR(b.scale + ScaleStep, MaxScale)
                               else MaxR(b.scale - ScaleStep, MinScale))
    ensures o.button.look == (if o.pressed then PressedLook else if o.button.hover then HoverLook else BaseLook)
  {
    var hover := ContainsPoint(b.rect, mx, my);
    var scale := if hover then MinR(MaxScale, b.scale + ScaleStep) else MaxR(MinScale, b.scale - ScaleStep);
    if hover && click then ButtonOutcome(Button(b.rect, true, true, scale, PressedLook), true)
    else ButtonOutcome(Button(b.rect, hover, false, scale, if hover then HoverLook else BaseLook), false)
  }

  /** Three frames of hovering take a resting button to full size. */
  lemma HoverReachesFullSize(b: Button, mx: int, my: int)
    requires b.scale == MinScale && ContainsPoint(b.rect, mx, my)
    ensures var b1 := ButtonUpdate(b, mx, my, false).button;
      var b2 := ButtonUpdate(b1, mx, my, false).button;
      ButtonUpdate(b2, mx, my, false).button.scale == MaxScale
  {
  }

  /** Three frames away from a fully grown button shrink it back to rest. */
  lemma LeavingReturnsToRest(b: Button, mx: int, my: int)
    requires b.scale == MaxScale && !ContainsPoint(b.rect, mx, my)
    ensures var b1 := ButtonUpdate(b, mx, my, false).button;
      var b2 := ButtonUpdate(b1, mx, my, false).button;
      ButtonUpdate(b2, mx, my, false).button.scale == MinScale
  {
  }
}
