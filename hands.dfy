/**
 * Resolving the hands of one frame into the frame's gesture
 * (game.py:67-85): the last `Right` hand gives the shape and the right
 * wrist, the last `Left` hand gives the left wrist, and two wrists closer
 * than the threshold turn the gesture into "thinking".
 */
module Hands {

  import opened Options
  import opened Geometry
  import opened Gestures

  /** One detected hand: its side label and its landmarks. */
  datatype Hand = Hand(side: Handedness, landmarks: Landmarks)

  /** Landmark 0 is the wrist. */
  function Wrist(h: Hand): Point
  {
    h.landmarks[0]
  }

  /** Index of the last hand in `hands` that carries `side`, if any. */
  function LastIndex(hands: seq<Hand>, side: Handedness): (r: Option<nat>)
    ensures r.Some? ==> r.value < |hands| && hands[r.value].side == side
    ensures r.Some? ==> forall j :: r.value < j < |hands| ==> hands[j].side != side
    ensures r.None? <==> forall j :: 0 <= j < |hands| ==> hands[j].side != side
    decreases |hands|
  {
    if hands == [] then None
    else if hands[|hands| - 1].side == side then Some(|hands| - 1)
    else LastIndex(hands[..|hands| - 1], side)
  }

  /** Wrist of the last hand carrying `side`: what the scan leaves in `left_hand_base` or `right_hand_base`. */
  function LastWrist(hands: seq<Hand>, side: Handedness): Option<Point>
  {
    match LastIndex(hands, side)
    case None => None
    case Some(k) => Some(Wrist(hands[k]))
  }

  /** Shape of the last right hand, or no gesture when there is none. */
  function RightShape(hands: seq<Hand>): Gesture
  {
    match LastIndex(hands, Right)
    case None => NoGesture
    case Some(k) => Classify(hands[k].landmarks, Right)
  }

  /** True when both wrists are present and close together. */
  predicate HandsTogether(hands: seq<Hand>)
  {
    LastWrist(hands, Left).Some? && LastWrist(hands, Right).Some?
    && Close(LastWrist(hands, Left).value, LastWrist(hands, Right).value)
  }

  /**
   * The gesture of a frame: "thinking" or the last right hand's shape, and
   * a move only when some right hand is in the frame.
   */
  function FrameGesture(hands: seq<Hand>): (g: Gesture)
    ensures g == Thinking || g == RightShape(hands)
    ensures g.Shape? ==> LastIndex(hands, Right).Some? && !HandsTogether(hands)
  {
    if HandsTogether(hands) then Thinking else RightShape(hands)
  }

  /**
   * The per-frame scan: reset the frame's values, visit each hand in turn,
   * then apply the proximity override.
   */
  method ResolveHands(hands: seq<Hand>) returns (leftBase: Option<Point>, rightBase: Option<Point>, gesture: Gesture)
    ensures leftBase == LastWrist(hands, Left)
    ensures rightBase == LastWrist(hands, Right)
    ensures gesture == FrameGesture(hands)
  {
    leftBase := None;
    rightBase := None;
    gesture := NoGesture;
    for i := 0 to |hands|
      invariant leftBase == LastWrist(hands[..i], Left)
      invariant rightBase == LastWrist(hands[..i], Right)
      invariant gesture == RightShape(hands[..i])
    {
      assert hands[..i + 1][..i] == hands[..i];
      var h := hands[i];
      if h.side == Left {
        leftBase := Some(Wrist(h));
      } else if h.side == Right {
        rightBase := Some(Wrist(h));
        gesture := Classify(h.landmarks, Right);
      }
    }
    assert hands[..|hands|] == hands;
    if leftBase.Some? && rightBase.Some? {
      if Close(leftBase.value, rightBase.value) {
        gesture := Thinking;
      }
    }
  }

  /** With no right hand in the frame the gesture stays "none"; "thinking" needs a right wrist too. */
  lemma NoRightHandNoGesture(hands: seq<Hand>)
    requires forall j :: 0 <= j < |hands| ==> hands[j].side != Right
    ensures FrameGesture(hands) == NoGesture
  {
  }

  /** "Thinking" comes exactly from two close wrists, whatever the right hand's shape. */
  lemma ThinkingIffTogether(hands: seq<Hand>)
    ensures FrameGesture(hands) == Thinking <==> HandsTogether(hands)
  {
  }

  /** Otherwise the gesture is the classification of the last right hand in the list. */
  lemma LastRightHandDecides(hands: seq<Hand>, k: nat)
    requires k < |hands| && hands[k].side == Right
    requires forall j :: k < j < |hands| ==> hands[j].side != Right
    requires !HandsTogether(hands)
    ensures FrameGesture(hands) == Classify(hands[k].landmarks, Right)
  {
  }

  /** Appending a hand with another side does not move the last index of `side`. */
  lemma {:induction false} LastIndexAppendOther(hands: seq<Hand>, h: Hand, side: Handedness)
    requires h.side != side
    ensures LastIndex(hands + [h], side) == LastIndex(hands, side)
  {
  }

  /**
   * Of two right hands listed one after the other at the end of the
   * frame, the earlier one has no say at all.
   */
  lemma {:induction false} LaterRightHandWins(hands: seq<Hand>, a: Hand, b: Hand)
    requires a.side == Right && b.side == Right
    ensures FrameGesture(hands + [a, b]) == FrameGesture(hands + [b])
  {
    assert hands + [a, b] == (hands + [a]) + [b];
    LastIndexAppendOther(hands + [a], b, Left);
    LastIndexAppendOther(hands, a, Left);
    LastIndexAppendOther(hands, b, Left);
  }
}
