/**
 * The typewriter reveal of MonoDreams.Examples/System/Draw/TextUpdateSystem.cs: each frame the
 * number of visible characters follows the time since the reveal started times the reveal
 * speed, clamped to the text, until the whole text is shown.
 */
module TextUpdate {
  import opened Wrappers
  import opened Numerics

  /** Length of a nullable string, `TextContent?.Length ?? 0`. */
  function TextLength(textContent: Option<string>): nat {
    if textContent.None? then 0 else |textContent.value|
  }

  /** `Math.Max(0, Math.Min((int)Math.Floor(elapsed * speed), maxChars))` */
  function VisibleCount(elapsedTime: real, revealingSpeed: real, maxChars: nat): (n: int)
    ensures 0 <= n <= maxChars
  {
    var targetVisibleChars := TruncateToInt32((elapsedTime * revealingSpeed).Floor as real);
    if targetVisibleChars < 0 then 0
    else if targetVisibleChars < maxChars then targetVisibleChars
    else maxChars
  }

  /**
   * The DynamicText fields the reveal uses. RevealStartTime is NaN until the reveal starts, which
   * is None here.
   */
  class DynamicText {
    var textContent: Option<string>
    var revealingSpeed: real
    var revealStartTime: Option<real>
    var isRevealed: bool
    var visibleCharacterCount: int

    /**
     * The component as DialogueSystem creates it: RevealStartTime = NaN, not revealed, nothing
     * visible. (The struct's own default would start at time 0, Some(0.0) here.)
     */
    constructor(textContent: Option<string>, revealingSpeed: real)
      ensures this.textContent == textContent && this.revealingSpeed == revealingSpeed
      ensures revealStartTime == None && !isRevealed && visibleCharacterCount == 0
    {
      this.textContent := textContent;
      this.revealingSpeed := revealingSpeed;
      revealStartTime := None;
      isRevealed := false;
      visibleCharacterCount := 0;
    }
  }

  /** One frame of TextUpdateSystem.Update for one entity at game time `totalTime`. */
  method Update(text: DynamicText, totalTime: real)
    modifies text
    ensures text.textContent == old(text.textContent) && text.revealingSpeed == old(text.revealingSpeed)
    ensures old(text.isRevealed) || old(text.revealingSpeed) <= 0.0 ==>
      text.visibleCharacterCount == TextLength(text.textContent) && text.isRevealed &&
      text.revealStartTime == old(text.revealStartTime)
    ensures !old(text.isRevealed) && old(text.revealingSpeed) > 0.0 ==>
      text.revealStartTime == Some(if old(text.revealStartTime).None? then totalTime else old(text.revealStartTime).value) &&
      text.visibleCharacterCount ==
        VisibleCount(totalTime - text.revealStartTime.value, text.revealingSpeed, TextLength(text.textContent)) &&
      (text.isRevealed <==> text.visibleCharacterCount >= TextLength(text.textContent))
    ensures 0 <= text.visibleCharacterCount <= TextLength(text.textContent)
    ensures old(text.isRevealed) ==> text.isRevealed
  {
    if text.isRevealed || text.revealingSpeed <= 0.0 {
      text.visibleCharacterCount := if text.textContent.None? then 0 else |text.textContent.value|;
      text.isRevealed := true;
      return;
    }
    if text.revealStartTime.None? {
      text.revealStartTime := Some(totalTime);
    }
    var elapsedTime := totalTime - text.revealStartTime.value;
    var targetVisibleChars := TruncateToInt32((elapsedTime * text.revealingSpeed).Floor as real);
    var maxChars := if text.textContent.None? then 0 else |text.textContent.value|;
    text.visibleCharacterCount := if targetVisibleChars < 0 then 0
      else if targetVisibleChars < maxChars then targetVisibleChars else maxChars;
    assert maxChars == TextLength(text.textContent);
    assert text.visibleCharacterCount == VisibleCount(elapsedTime, text.revealingSpeed, maxChars);
    if text.visibleCharacterCount >= maxChars {
      text.isRevealed := true;
    }
  }

  /** The int cast of a double never reverses an order. */
  lemma TruncateMonotone(a: real, b: real)
    requires a <= b
    ensures TruncateToInt32(a) <= TruncateToInt32(b)
  {
    if a >= 0.0 {
      assert a.Floor <= b.Floor;
    } else if b < 0.0 {
      assert (-b).Floor <= (-a).Floor;
    }
  }

  /** Later frames never show fewer characters of the same reveal. */
  lemma {:induction false} VisibleCountMonotone(e1: real, e2: real, revealingSpeed: real, maxChars: nat)
    requires e1 <= e2 && revealingSpeed > 0.0
    ensures VisibleCount(e1, revealingSpeed, maxChars) <= VisibleCount(e2, revealingSpeed, maxChars)
  {
    assert e1 * revealingSpeed <= e2 * revealingSpeed by {
      assert e2 * revealingSpeed - e1 * revealingSpeed == (e2 - e1) * revealingSpeed;
    }
    assert (e1 * revealingSpeed).Floor <= (e2 * revealingSpeed).Floor;
    TruncateMonotone((e1 * revealingSpeed).Floor as real, (e2 * revealingSpeed).Floor as real);
  }

  /** Once the elapsed time covers the whole text, every character is visible. */
  lemma VisibleCountReachesLength(elapsedTime: real, revealingSpeed: real, maxChars: nat)
    requires maxChars <= Int32Max
    requires elapsedTime * revealingSpeed >= maxChars as real
    ensures VisibleCount(elapsedTime, revealingSpeed, maxChars) == maxChars
  {
    var f := (elapsedTime * revealingSpeed).Floor;
    assert f >= maxChars;
    assert TruncateToInt32(f as real) >= maxChars by {
      if f > Int32Max {
        assert TruncateToInt32(f as real) == Int32Max;
      } else {
        assert TruncateToInt32(f as real) == f;
      }
    }
  }
}
