/** The drawing-state and artifact selection, and the playback step, of
    `cgt/gui/artifactmarkupwidget.py`. Buttons are inputs and the frames asked for on
    `request_frame` are recorded in order. */
module Markup {
  import opened Wrappers

  /** What a mouse action on the video does. */
  datatype DrawingState = Draw | Move | Delete {
    /** The integer value of the enumeration member. */
    function Value(): (v: int)
      ensures v in {0, 2, 4}
      ensures this == Draw ==> v == 0
      ensures this == Move ==> v == 2
      ensures this == Delete ==> v == 4
    {
      match this
      case Draw => 0
      case Move => 2
      case Delete => 4
    }
  }

  /** What is being drawn. */
  datatype Artifact = Line | Point {
    function Value(): (v: int)
      ensures v in {0, 2}
      ensures this == Line ==> v == 0
      ensures this == Point ==> v == 2
    {
      match this
      case Line => 0
      case Point => 2
    }
  }

  /** The buttons of the two button groups; `OtherButton` is any other button. */
  datatype Button = LinesButton | PointsButton | DrawButton | MoveButton | DeleteButton | OtherButton

  /** The play state kept by the video base widget. */
  datatype PlayState = PlayForward | PlayBackward | NotPlaying

  /** Distinct members have distinct values. */
  lemma ValuesIdentifyMembers(s: DrawingState, t: DrawingState, a: Artifact, b: Artifact)
    ensures s.Value() == t.Value() ==> s == t
    ensures a.Value() == b.Value() ==> a == b
  {
  }

  /** `mark_type_selected`: the lines button selects lines, the points button points;
      any other button leaves the artifact alone. */
  function ArtifactAfter(current: Artifact, button: Button): (next: Artifact)
    ensures button == LinesButton ==> next == Line
    ensures button == PointsButton ==> next == Point
    ensures button != LinesButton && button != PointsButton ==> next == current
  {
    if button == LinesButton && current != Line then Line
    else if button == PointsButton && current != Point then Point
    else current
  }

  /** `marking_state_selected`: the draw, move and delete buttons select their state;
      any other button leaves the state alone. */
  function StateAfter(current: DrawingState, button: Button): (next: DrawingState)
    ensures button == DrawButton ==> next == Draw
    ensures button == MoveButton ==> next == Move
    ensures button == DeleteButton ==> next == Delete
    ensures button !in {DrawButton, MoveButton, DeleteButton} ==> next == current
  {
    if button == DrawButton && current != Draw then Draw
    else if button == MoveButton && current != Move then Move
    else if button == DeleteButton && current != Delete then Delete
    else current
  }

  /** Pressing the same button twice has the effect of pressing it once. */
  lemma PressTwice(a: Artifact, s: DrawingState, button: Button)
    ensures ArtifactAfter(ArtifactAfter(a, button), button) == ArtifactAfter(a, button)
    ensures StateAfter(StateAfter(s, button), button) == StateAfter(s, button)
  {
  }

  /** Python's `a % n` for a positive `n`: the remainder in [0, n) left by floor division
      (for a positive divisor Dafny's `/` and `%` agree with Python's `//` and `%`). */
  function PyMod(a: int, n: int): (r: int)
    requires n > 0
    ensures 0 <= r < n
    ensures a == (a / n) * n + r
  {
    a % n
  }

  /** The frame `display` asks for next: one on (forward) or one back (backward), wrapping
      modulo the video length; none when not playing. */
  function RequestedFrame(current: int, length: int, playing: PlayState): (r: Option<int>)
    requires playing != NotPlaying ==> length > 0
    ensures r.None? <==> playing == NotPlaying
    ensures r.Some? ==> 0 <= r.value < length
  {
    match playing
    case PlayForward => Some(PyMod(current + 1, length))
    case PlayBackward => Some(PyMod(current - 1, length))
    case NotPlaying => None
  }

  /** Inside the video the step is plain: forward from `c` is `c + 1`, backward is `c - 1`;
      at the ends it wraps: forward from the last frame is 0, backward from 0 is the last frame. */
  lemma {:induction false} StepAndWrap(c: int, length: int)
    requires 0 <= c < length
    ensures RequestedFrame(c, length, PlayForward) == Some(if c == length - 1 then 0 else c + 1)
    ensures RequestedFrame(c, length, PlayBackward) == Some(if c == 0 then length - 1 else c - 1)
  {
    if c == length - 1 {
      assert (c + 1) % length == 0 by { assert c + 1 == length; }
    }
  }

  /** Stepping forward then backward (or backward then forward) returns to the same frame. */
  lemma {:induction false} StepsAreInverse(c: int, length: int)
    requires 0 <= c < length
    ensures RequestedFrame(RequestedFrame(c, length, PlayForward).value, length, PlayBackward) == Some(c)
    ensures RequestedFrame(RequestedFrame(c, length, PlayBackward).value, length, PlayForward) == Some(c)
  {
    StepAndWrap(c, length);
    var f := RequestedFrame(c, length, PlayForward).value;
    var b := RequestedFrame(c, length, PlayBackward).value;
    StepAndWrap(f, length);
    StepAndWrap(b, length);
  }

  class ArtifactMarkupWidget {
    var state: DrawingState
    var artifact: Artifact

    // kept by the video base widget
    var currentFrame: int
    var hasImage: bool
    var hidden: bool
    var playing: PlayState
    var videoLength: int

    // what `display` shows and asks for
    var sliderValue: int
    var frameNumberShown: int
    var requests: seq<int>

    /** A new widget draws lines. */
    constructor ()
      ensures state == Draw && artifact == Line && requests == []
    {
      state := Draw;
      artifact := Line;
      requests := [];
    }

    method MarkTypeSelected(button: Button)
      modifies this`artifact
      ensures artifact == ArtifactAfter(old(artifact), button)
    {
      if button == LinesButton && artifact != Line {
        artifact := Line;
      } else if button == PointsButton && artifact != Point {
        artifact := Point;
      }
    }

    method MarkingStateSelected(button: Button)
      modifies this`state
      ensures state == StateAfter(old(state), button)
    {
      if button == DrawButton && state != Draw {
        state := Draw;
      } else if button == MoveButton && state != Move {
        state := Move;
      } else if button == DeleteButton && state != Delete {
        state := Delete;
      }
    }

    /** `display`: nothing happens without a current image or while hidden; otherwise the
        slider shows the current frame, the label shows it counted from 1, and while playing
        the next (or previous) frame is requested, wrapping around the video. */
    method Display()
      requires hasImage && !hidden && playing != NotPlaying ==> videoLength > 0
      modifies this`sliderValue, this`frameNumberShown, this`requests
      ensures !hasImage || hidden ==>
                sliderValue == old(sliderValue) && frameNumberShown == old(frameNumberShown)
                && requests == old(requests)
      ensures hasImage && !hidden ==>
                sliderValue == currentFrame && frameNumberShown == currentFrame + 1
                && requests == old(requests) + match RequestedFrame(currentFrame, videoLength, playing)
                                                 case Some(f) => [f]
                                                 case None => []
    {
      if !hasImage || hidden {
        return;
      }
      sliderValue := currentFrame;
      var displayNumber := currentFrame + 1;
      frameNumberShown := displayNumber;

      if playing == PlayForward {
        var nextFrame := currentFrame + 1;
        requests := requests + [PyMod(nextFrame, videoLength)];
      } else if playing == PlayBackward {
        var nextFrame := currentFrame - 1;
        requests := requests + [PyMod(nextFrame, videoLength)];
      }
    }
  }
}
