/** `PlayButton`: the toggle state behind the icon. The caller's `action`
    closure is foreign code; the model counts its invocations. */
module Button {
  import opened PlayPause

  /** The accessibility label: the action a tap performs next. */
  function AccessibilityLabel(isPlaying: bool): (text: string)
    ensures text == "Pause" <==> isPlaying
    ensures text == "Play" <==> !isPlaying
  {
    if isPlaying then "Pause" else "Play"
  }

  /** The label names the glyph on screen once the animation has settled:
      "Play" over the play triangle (shift 0), "Pause" over the pause bars
      (shift 1). */
  lemma LabelMatchesGlyph(isPlaying: bool)
    ensures AccessibilityLabel(isPlaying) == "Play" <==> Init(isPlaying).shift == 0.0
    ensures AccessibilityLabel(isPlaying) == "Pause" <==> Init(isPlaying).shift == 1.0
  {
  }

  class PlayButton {
    var isPlaying: bool
    /** How many times `action` has been called. */
    var actionCalls: nat

    /** A new button shows the play triangle and has called nothing. */
    constructor ()
      ensures !isPlaying && actionCalls == 0
      ensures Body() == Init(false) && Label() == "Play"
    {
      isPlaying := false;
      actionCalls := 0;
    }

    /** The shape the view draws for the current state. */
    function Body(): (shape: PlayPauseShape)
      reads this
      ensures shape.isPlaying == isPlaying
    {
      Init(isPlaying)
    }

    function Label(): string
      reads this
    {
      AccessibilityLabel(isPlaying)
    }

    /** A tap flips the state, which also flips the label and the glyph the
        shape settles on, and calls `action` exactly once. */
    method PerformTap()
      modifies this
      ensures isPlaying == !old(isPlaying)
      ensures actionCalls == old(actionCalls) + 1
      ensures Label() != old(Label())
      ensures Body().shift == 1.0 - old(Body().shift)
    {
      isPlaying := !isPlaying;
      actionCalls := actionCalls + 1;
    }
  }

  /** Two taps bring the button back to the state it started in, having
      called `action` twice. */
  method TapTwice(button: PlayButton)
    modifies button
    ensures button.isPlaying == old(button.isPlaying)
    ensures button.Label() == old(button.Label())
    ensures button.actionCalls == old(button.actionCalls) + 2
  {
    button.PerformTap();
    button.PerformTap();
  }
}
