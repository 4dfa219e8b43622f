/** components/DiceRoll.tsx: the d20 overlay. While it rolls, a timer shows
    random faces; when it stops, one final draw is shown, a result sound is
    chosen, and that same value is handed to the caller. The random draws
    (`Math.random()`) are parameters in [0, 1). */
module Dice {

  /** `Math.floor(r * 20) + 1` (DiceRoll.tsx:19, 26). */
  function Face(r: real): (v: int)
    requires 0.0 <= r < 1.0
    ensures 1 <= v <= 20
  {
    (r * 20.0).Floor + 1
  }

  /** Each face is hit by exactly the draws in a twentieth of [0, 1): the
      roll is uniform over 1..20 when the draw is uniform. */
  lemma FaceInterval(r: real, v: int)
    requires 0.0 <= r < 1.0
    ensures Face(r) == v <==> (v - 1) as real / 20.0 <= r < v as real / 20.0
  {
    var f := (r * 20.0).Floor;
    assert f as real <= r * 20.0 < f as real + 1.0;
  }

  /** Every face from 1 to 20 can come up. */
  lemma FaceOnto(v: int)
    requires 1 <= v <= 20
    ensures Face((v - 1) as real / 20.0) == v
  {
    FaceInterval((v - 1) as real / 20.0, v);
  }

  /** The result sound (DiceRoll.tsx:31-33). */
  datatype Sound = LevelUp | Hit | Click

  function ResultSound(v: int): (s: Sound)
    ensures s == LevelUp <==> v == 20
    ensures s == Hit <==> v == 1
  {
    if v == 20 then LevelUp else if v == 1 then Hit else Click
  }

  /** The palette `getColor` picks from (DiceRoll.tsx:44-49). */
  datatype Tone = White | Yellow | Red | Gold

  function GetColor(isRolling: bool, value: int): (t: Tone)
    ensures t == White <==> isRolling
    ensures !isRolling ==> (t == Yellow <==> value == 20) && (t == Red <==> value == 1)
  {
    if isRolling then White
    else if value == 20 then Yellow
    else if value == 1 then Red
    else Gold
  }

  /** The caption under a settled die (DiceRoll.tsx:72-73). */
  function Label(value: int): (s: string)
    ensures s == "CRÍTICO!" <==> value == 20
    ensures s == "FALHA CRÍTICA!" <==> value == 1
    ensures s == "Resultado" <==> value != 20 && value != 1
  {
    if value == 20 then "CRÍTICO!" else if value == 1 then "FALHA CRÍTICA!" else "Resultado"
  }

  /** Caption, settled colour and result sound make the same three-way
      distinction: 20, 1, and every other face alike. */
  lemma OutcomesAgree(a: int, b: int)
    ensures Label(a) == Label(b) <==> ResultSound(a) == ResultSound(b)
    ensures GetColor(false, a) == GetColor(false, b) <==> ResultSound(a) == ResultSound(b)
  {
  }

  /** The outcome bands the narrator's instructions describe for a roll
      (netlify/functions/gemini.ts:24-27) and, for any other number, none. */
  datatype Band = Epic | Disaster | Partial | Success | Unbanded

  function PromptBand(v: int): (b: Band)
    ensures 1 <= v <= 20 <==> b != Unbanded
  {
    if v == 20 then Epic
    else if v == 1 then Disaster
    else if 2 <= v <= 9 then Partial
    else if 10 <= v <= 19 then Success
    else Unbanded
  }

  /** The game code itself tells apart only 20 and 1: two faces in the
      same band of the instructions get the same caption and sound, but the
      converse fails (2 and 10 share the caption, not the band). */
  lemma CodeCoarserThanPrompt(a: int, b: int)
    requires 1 <= a <= 20 && 1 <= b <= 20
    ensures PromptBand(a) == PromptBand(b) ==> ResultSound(a) == ResultSound(b) && Label(a) == Label(b)
    ensures ResultSound(2) == ResultSound(10) && PromptBand(2) != PromptBand(10)
  {
  }

  /** The overlay's state: the face shown, whether it is still rolling, and
      the intro scale (0 before the 50 ms pop-in, 1 after). */
  class DiceRoll {
    var value: int
    var isRolling: bool
    var scale: int

    predicate Valid()
      reads this
    {
      1 <= value <= 20 && (scale == 0 || scale == 1)
    }

    /** DiceRoll.tsx:10-12. */
    constructor ()
      ensures Valid()
      ensures value == 1 && isRolling && scale == 0
    {
      value := 1;
      isRolling := true;
      scale := 0;
    }

    /** The intro timeout (DiceRoll.tsx:16). */
    method PopIn()
      requires Valid()
      modifies this
      ensures Valid()
      ensures scale == 1 && value == old(value) && isRolling == old(isRolling)
    {
      scale := 1;
    }

    /** One tick of the rolling interval (DiceRoll.tsx:18-21): a fresh face,
      still rolling. */
    method Tick(r: real)
      requires Valid() && isRolling
      requires 0.0 <= r < 1.0
      modifies this
      ensures Valid()
      ensures value == Face(r) && isRolling && scale == old(scale)
    {
      value := Face(r);
    }

    /** The stop timeout (DiceRoll.tsx:24-39): one final draw is shown, the
        die stops, and the returned value (what `onComplete` receives) is
        exactly the one displayed, with its sound. */
    method Settle(r: real) returns (finalValue: int, sound: Sound)
      requires Valid() && isRolling
      requires 0.0 <= r < 1.0
      modifies this
      ensures Valid()
      ensures finalValue == Face(r) && value == finalValue && 1 <= finalValue <= 20
      ensures !isRolling && scale == old(scale)
      ensures sound == ResultSound(finalValue)
      ensures GetColor(isRolling, value) != White
    {
      finalValue := Face(r);
      value := finalValue;
      isRolling := false;
      sound := ResultSound(finalValue);
    }
  }
}
