/** The typewriter intro: a frame-driven sequencer that types each script line one
    character at a time, pauses, and then either clears the screen or keeps the line
    on screen before moving to the next line. */
module Intro {
  import opened Options

  datatype Colour = Colour(r: int, g: int, b: int)

  const White: Colour := Colour(255, 255, 255)
  const Danger: Colour := Colour(255, 90, 90)
  const Grey: Colour := Colour(100, 100, 100)

  /** Frames per typed character, for the narrator and for the AI's voice */
  const TypeSpeed: nat := 3
  const TypeSpeedAI: nat := 2
  /** Frames between two toggles of a blinking line */
  const BlinkPeriod: nat := 20

  /** One line of the script. `colour` is the colour it keeps once typed, when it is
      not cleared; `aiVoice` lines type faster. */
  datatype ScriptLine = ScriptLine(
    text: string, pause: int, clear: bool, colour: Option<Colour>, aiVoice: bool, blink: bool)

  /** The game's script. */
  const GameScript: seq<ScriptLine> := [
    ScriptLine("Welcome, student.", 60, true, None, false, false),
    ScriptLine("The campus awaits you.", 60, true, None, false, false),
    ScriptLine("But this time...", 40, false, None, false, false),
    ScriptLine("It's not you who's looking for the exam.", 60, true, None, false, false),
    ScriptLine("It's the exam that's looking for you.", 90, true, None, false, false),
    ScriptLine("(cooling fan whirrs...)", 60, true, Some(Grey), false, false),
    ScriptLine("Your evaluation begins...", 30, false, None, true, false),
    ScriptLine("...now.", 60, true, Some(Danger), true, false),
    ScriptLine("Each mistake reduces your chances of academic survival.", 90, true, None, true, false),
    ScriptLine("Good luck.", 30, false, None, true, false),
    ScriptLine("BOOTING EXAM AI PLAYER...", 120, true, Some(Danger), false, true)
  ]

  /** A line kept on screen after it was typed. */
  datatype ShownLine = ShownLine(text: string, colour: Colour)

  datatype Intro = Intro(
    frame: int,
    stage: int,
    finished: bool,
    charIdx: int,
    typed: string,
    shown: seq<ShownLine>,
    waiting: bool,
    waitUntil: int,
    blinkOn: bool,
    blinkTimer: int)

  function NewIntro(): (it: Intro)
    ensures it.frame == 0 && it.stage == 0 && !it.finished && !it.waiting
    ensures it.typed == "" && it.charIdx == 0 && it.shown == []
  {
    Intro(0, 0, false, 0, "", [], false, 0, true, 0)
  }

  function Speed(line: ScriptLine): (s: nat)
    ensures s == TypeSpeedAI || s == TypeSpeed
    ensures s == TypeSpeedAI <==> line.aiVoice
  {
    if line.aiVoice then TypeSpeedAI else TypeSpeed
  }

  /** The intro's invariant: the stage is within the script, `finished` marks the end,
      and the typed text is the first `charIdx` characters of the current line. */
  predicate Valid(script: seq<ScriptLine>, it: Intro) {
    && 0 <= it.stage <= |script|
    && it.frame >= 0
    && (it.finished <==> it.stage == |script|)
    && (!it.finished ==> 0 <= it.charIdx <= |script[it.stage].text|
                         && it.typed == script[it.stage].text[..it.charIdx])
  }

  /** Leaves the current line: a clearing line empties the screen, any other line is
      kept on screen in its colour (white by default). The stage then advances, and
      the intro is finished after the last line. */
  function NextStage(script: seq<ScriptLine>, it: Intro): (it': Intro)
    requires 0 <= it.stage < |script| && !it.finished
    ensures it'.stage == it.stage + 1
    ensures it'.typed == "" && it'.charIdx == 0
    ensures it'.finished <==> it'.stage >= |script|
    ensures it'.finished || !it'.waiting
    ensures script[it.stage].clear ==> it'.shown == []
    ensures !script[it.stage].clear ==>
      it'.shown == it.shown + [ShownLine(it.typed, script[it.stage].colour.GetOr(White))]
    ensures it'.frame == it.frame
  {
    var line := script[it.stage];
    var shown := if line.clear then [] else it.shown + [ShownLine(it.typed, line.colour.GetOr(White))];
    var it1 := it.(shown := shown, typed := "", charIdx := 0, stage := it.stage + 1);
    if it1.stage >= |script| then it1.(finished := true) else it1.(waiting := false)
  }

  /** The blink timer of a blinking line toggles the blink every 20 frames. */
  function Blink(line: ScriptLine, it: Intro): (it': Intro)
    ensures it' == it.(blinkOn := it'.blinkOn, blinkTimer := it'.blinkTimer)
    ensures !line.blink ==> it' == it
  {
    if line.blink then
      var t := it.blinkTimer + 1;
      if t >= BlinkPeriod then it.(blinkOn := !it.blinkOn, blinkTimer := 0) else it.(blinkTimer := t)
    else it
  }

  /** One frame of the intro. */
  function Update(script: seq<ScriptLine>, it: Intro): (it': Intro)
    requires Valid(script, it)
    ensures Valid(script, it')
    ensures it.finished ==> it' == it
    ensures !it.finished ==> it'.frame == it.frame + 1
    ensures it'.stage == it.stage || it'.stage == it.stage + 1
    ensures it'.stage == it.stage + 1 <==> !it.finished && it.waiting && it.frame >= it.waitUntil
  {
    if it.finished then it
    else
      var line := script[it.stage];
      var speed := Speed(line);
      var it1 := Blink(line, it);
      if it1.waiting then
        var it2 := if it1.frame >= it1.waitUntil then NextStage(script, it1) else it1;
        it2.(frame := it2.frame + 1)
      else if it1.frame % speed == 0 then
        if it1.charIdx < |line.text| then
          assert line.text[..it1.charIdx + 1] == line.text[..it1.charIdx] + [line.text[it1.charIdx]];
          it1.(typed := it1.typed + [line.text[it1.charIdx]], charIdx := it1.charIdx + 1, frame := it1.frame + 1)
        else
          it1.(waiting := true, waitUntil := it1.frame + line.pause, frame := it1.frame + 1)
      else it1.(frame := it1.frame + 1)
  }

  /** `n` frames of the intro. */
  function Run(script: seq<ScriptLine>, it: Intro, n: nat): (it': Intro)
    requires Valid(script, it)
    ensures Valid(script, it')
    decreases n
  {
    if n == 0 then it else Run(script, Update(script, it), n - 1)
  }

  // ---------------------------------------------------------------------------
  // Properties

  /** While typing, one frame adds the next character of the line exactly when the
      frame number is a multiple of the line's speed and characters remain; otherwise
      the text is unchanged. */
  lemma TypingFrame(script: seq<ScriptLine>, it: Intro)
    requires Valid(script, it) && !it.finished && !it.waiting
    ensures var line := script[it.stage];
      var it' := Update(script, it);
      && it'.stage == it.stage
      && (it.frame % Speed(line) == 0 && it.charIdx < |line.text| ==>
            it'.charIdx == it.charIdx + 1 && it'.typed == line.text[..it'.charIdx] && !it'.waiting)
      && (it.frame % Speed(line) != 0 ==> it'.typed == it.typed && !it'.waiting)
      && (it.frame % Speed(line) == 0 && it.charIdx == |line.text| ==>
            it'.waiting && it'.waitUntil == it.frame + line.pause && it'.typed == it.typed)
  {
  }

  lemma {:induction false} RunAdd(script: seq<ScriptLine>, it: Intro, a: nat, b: nat)
    requires Valid(script, it)
    ensures Run(script, it, a + b) == Run(script, Run(script, it, a), b)
    decreases a
  {
    if a > 0 {
      RunAdd(script, Update(script, it), a - 1, b);
      assert a + b - 1 == (a - 1) + b;
    }
  }

  /** A frame that is not a multiple of the speed only moves the frame on. */
  lemma IdleFrame(script: seq<ScriptLine>, it: Intro)
    requires Valid(script, it) && !it.finished && !it.waiting
    requires it.frame % Speed(script[it.stage]) != 0
    ensures var it' := Update(script, it);
      && !it'.finished && it'.stage == it.stage && !it'.waiting
      && it'.charIdx == it.charIdx && it'.frame == it.frame + 1
  {
  }

  /** Frames none of which is a multiple of the speed only move the frame on: here
      the k frames after one that is r past a multiple, with r + k within the block. */
  lemma {:induction false} IdleFrames(script: seq<ScriptLine>, it: Intro, k: nat)
    requires Valid(script, it) && !it.finished && !it.waiting
    requires k == 0 || (it.frame % Speed(script[it.stage]) >= 1 &&
                        it.frame % Speed(script[it.stage]) + k <= Speed(script[it.stage]))
    ensures var it' := Run(script, it, k);
      && !it'.finished && it'.stage == it.stage && !it'.waiting
      && it'.charIdx == it.charIdx && it'.frame == it.frame + k
    decreases k
  {
    if k > 0 {
      var sp := Speed(script[it.stage]);
      IdleFrame(script, it);
      var it1 := Update(script, it);
      assert k - 1 == 0 || (it1.frame % sp == it.frame % sp + 1);
      IdleFrames(script, it1, k - 1);
    }
  }

  /** `speed` frames from a frame that is a multiple of the speed type exactly one
      more character. */
  lemma OneCharPerSpeedFrames(script: seq<ScriptLine>, it: Intro)
    requires Valid(script, it) && !it.finished && !it.waiting
    requires it.frame % Speed(script[it.stage]) == 0
    requires it.charIdx < |script[it.stage].text|
    ensures var it' := Run(script, it, Speed(script[it.stage]));
      && !it'.finished && it'.stage == it.stage && !it'.waiting
      && it'.charIdx == it.charIdx + 1
      && it'.frame == it.frame + Speed(script[it.stage])
  {
    var sp := Speed(script[it.stage]);
    var it1 := Update(script, it);
    assert !it1.finished && it1.stage == it.stage && !it1.waiting
      && it1.charIdx == it.charIdx + 1 && it1.frame == it.frame + 1 by {
      TypingFrame(script, it);
    }
    assert it1.frame % sp == 1;
    IdleFrames(script, it1, sp - 1);
  }

  lemma RunOne(script: seq<ScriptLine>, it: Intro)
    requires Valid(script, it)
    ensures Run(script, it, 1) == Update(script, it)
  {
  }

  /** s * m as repeated addition, which keeps the timing proof linear. */
  function Times(s: nat, m: nat): nat {
    if m == 0 then 0 else s + Times(s, m - 1)
  }

  lemma {:induction false} TimesIsProduct(s: nat, m: nat)
    ensures Times(s, m) == s * m
  {
    if m > 0 {
      TimesIsProduct(s, m - 1);
      assert s * m == s + s * (m - 1);
    }
  }

  lemma {:induction false} LineTypedBlocks(script: seq<ScriptLine>, it: Intro, m: nat)
    requires Valid(script, it) && !it.finished && !it.waiting
    requires it.frame % Speed(script[it.stage]) == 0
    requires m == |script[it.stage].text| - it.charIdx
    ensures var it' := Run(script, it, Times(Speed(script[it.stage]), m));
      && !it'.finished && it'.stage == it.stage && !it'.waiting
      && it'.typed == script[it.stage].text
      && it'.frame == it.frame + Times(Speed(script[it.stage]), m)
    decreases m
  {
    var s := Speed(script[it.stage]);
    var text := script[it.stage].text;
    if m == 0 {
      assert text[..it.charIdx] == text;
    } else {
      var it' := Run(script, it, s);
      assert !it'.finished && it'.stage == it.stage && !it'.waiting
        && it'.charIdx == it.charIdx + 1 && it'.frame == it.frame + s by {
        OneCharPerSpeedFrames(script, it);
      }
      assert it'.frame % s == 0 by {
        if s == TypeSpeedAI {
          assert it'.frame == it.frame + 2;
        } else {
          assert it'.frame == it.frame + 3;
        }
      }
      var rest := Run(script, it', Times(s, m - 1));
      assert !rest.finished && rest.stage == it.stage && !rest.waiting && rest.typed == text
        && rest.frame == it'.frame + Times(s, m - 1) by {
        LineTypedBlocks(script, it', m - 1);
      }
      assert Run(script, it, Times(s, m)) == rest by {
        RunAdd(script, it, s, Times(s, m - 1));
      }
    }
  }

  /** From a frame that is a multiple of the speed, the rest of the line is typed in
      speed frames per character. */
  lemma LineTypedInTime(script: seq<ScriptLine>, it: Intro)
    requires Valid(script, it) && !it.finished && !it.waiting
    requires it.frame % Speed(script[it.stage]) == 0
    ensures var n := Speed(script[it.stage]) * (|script[it.stage].text| - it.charIdx);
      var it' := Run(script, it, n);
      && !it'.finished && it'.stage == it.stage && !it'.waiting
      && it'.typed == script[it.stage].text
      && it'.frame == it.frame + n
  {
    LineTypedBlocks(script, it, |script[it.stage].text| - it.charIdx);
    TimesIsProduct(Speed(script[it.stage]), |script[it.stage].text| - it.charIdx);
  }

  /** A waiting intro stays on its line until the end of the pause ... */
  lemma {:induction false} WaitHolds(script: seq<ScriptLine>, it: Intro, n: nat)
    requires Valid(script, it) && !it.finished && it.waiting
    requires it.frame + n <= it.waitUntil
    ensures var it' := Run(script, it, n);
      && !it'.finished && it'.stage == it.stage && it'.waiting
      && it'.frame == it.frame + n && it'.waitUntil == it.waitUntil
    decreases n
  {
    if n > 0 {
      WaitHolds(script, Update(script, it), n - 1);
    }
  }

  /** ... and advances exactly one stage on the frame the pause ends. */
  lemma WaitEndsOnTime(script: seq<ScriptLine>, it: Intro)
    requires Valid(script, it) && !it.finished && it.waiting
    requires it.frame <= it.waitUntil
    ensures Update(script, Run(script, it, it.waitUntil - it.frame)).stage == it.stage + 1
  {
    WaitHolds(script, it, it.waitUntil - it.frame);
  }

  /** The stage counts the lines left behind, and finishing happens exactly after
      the last line. */
  lemma FinishesAfterLastLine(script: seq<ScriptLine>, it: Intro)
    requires Valid(script, it) && !it.finished
    ensures Update(script, it).finished <==> it.stage == |script| - 1 && it.waiting && it.frame >= it.waitUntil
  {
  }

  lemma NewIntroValid()
    ensures Valid(GameScript, NewIntro())
  {
  }
}
