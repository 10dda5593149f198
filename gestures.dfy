/** The gesture classifier `get_gesture` (game.py:13-36). */
module Gestures {

  import opened Geometry
  import opened Rules

  /** The side label the hand detector attaches to each hand. */
  datatype Handedness = Left | Right

  /**
   * What one frame shows: a playable shape, the synthetic "thinking"
   * override (both wrists together), or no recognisable shape ("none").
   */
  datatype Gesture = Shape(move: Move) | Thinking | NoGesture

  /** One hand as 21 landmarks, in the detector's fixed order. */
  type Landmarks = s: seq<Point> | |s| == 21 witness seq(21, _ => Origin)

  /** A finger flag, 1 for extended and 0 for curled. */
  type Bit = b: int | 0 <= b <= 1

  /** Landmark index of the thumb tip; the joint compared with it is the one before. */
  const ThumbTip: nat := 4

  function BitOf(b: bool): Bit
  {
    if b then 1 else 0
  }

  /**
   * The thumb is out when its tip lies beyond its joint horizontally;
   * which way "beyond" points flips with the side label.
   */
  predicate ThumbOut(lm: Landmarks, hand: Handedness)
  {
    if hand == Right then lm[ThumbTip].x < lm[ThumbTip - 1].x
    else lm[ThumbTip].x > lm[ThumbTip - 1].x
  }

  /** The finger whose tip has index `tip` is up when the tip is above the joint two below it. */
  predicate Up(lm: Landmarks, tip: nat)
    requires 2 <= tip < 21
  {
    lm[tip].y < lm[tip - 2].y
  }

  /**
   * The finger vector (thumb, index, middle, ring, pinky). The four finger
   * tips are landmarks 8, 12, 16 and 20.
   */
  function Fingers(lm: Landmarks, hand: Handedness): (f: seq<Bit>)
    ensures |f| == 5
    ensures f[0] == 1 <==> ThumbOut(lm, hand)
    ensures f[1] == 1 <==> Up(lm, 8)
    ensures f[2] == 1 <==> Up(lm, 12)
    ensures f[3] == 1 <==> Up(lm, 16)
    ensures f[4] == 1 <==> Up(lm, 20)
  {
    [BitOf(ThumbOut(lm, hand))] + seq(4, k requires 0 <= k < 4 => BitOf(Up(lm, 4 * k + 8)))
  }

  /**
   * `get_gesture`: match the finger vector against the fixed table. The
   * contract reads the table off the landmarks: rock is a closed fist, paper
   * is four fingers up whatever the thumb does, scissors is index and
   * middle up with the thumb in, and the classifier never says "thinking".
   */
  function Classify(lm: Landmarks, hand: Handedness): (g: Gesture)
    ensures g != Thinking
    ensures g == Shape(Rock) <==>
              !ThumbOut(lm, hand) && !Up(lm, 8) && !Up(lm, 12) && !Up(lm, 16) && !Up(lm, 20)
    ensures g == Shape(Paper) <==>
              Up(lm, 8) && Up(lm, 12) && Up(lm, 16) && Up(lm, 20)
    ensures g == Shape(Scissors) <==>
              !ThumbOut(lm, hand) && Up(lm, 8) && Up(lm, 12) && !Up(lm, 16) && !Up(lm, 20)
  {
    var f := Fingers(lm, hand);
    assert f == [f[0], f[1], f[2], f[3], f[4]];
    if f == [0, 0, 0, 0, 0] then Shape(Rock)
    else if f == [1, 1, 1, 1, 1] || f == [0, 1, 1, 1, 1] then Shape(Paper)
    else if f == [0, 1, 1, 0, 0] then Shape(Scissors)
    else NoGesture
  }

  /** The pattern table itself, read on finger vectors. */
  lemma ClassifyTable(lm: Landmarks, hand: Handedness)
    ensures Fingers(lm, hand) == [0, 0, 0, 0, 0] ==> Classify(lm, hand) == Shape(Rock)
    ensures Fingers(lm, hand) == [1, 1, 1, 1, 1] ==> Classify(lm, hand) == Shape(Paper)
    ensures Fingers(lm, hand) == [0, 1, 1, 1, 1] ==> Classify(lm, hand) == Shape(Paper)
    ensures Fingers(lm, hand) == [0, 1, 1, 0, 0] ==> Classify(lm, hand) == Shape(Scissors)
    ensures Fingers(lm, hand) == [1, 1, 1, 0, 0] ==> Classify(lm, hand) == NoGesture
    ensures Classify(lm, hand) == NoGesture <==>
              Fingers(lm, hand) !in {[0, 0, 0, 0, 0], [1, 1, 1, 1, 1], [0, 1, 1, 1, 1], [0, 1, 1, 0, 0]}
  {
  }

  function Flip(hand: Handedness): Handedness
  {
    if hand == Right then Left else Right
  }

  /** The same hand seen in a mirror: every x-coordinate negated. */
  function Mirror(lm: Landmarks): (m: Landmarks)
  {
    seq(21, i requires 0 <= i < 21 => Point(-lm[i].x, lm[i].y, lm[i].z))
  }

  /** Mirroring the hand and flipping its label leave every finger flag as it was. */
  lemma FingersMirror(lm: Landmarks, hand: Handedness)
    ensures Fingers(Mirror(lm), Flip(hand)) == Fingers(lm, hand)
  {
  }

  /** Hence the classification is the same for a hand and its mirror image with the other label. */
  lemma ClassifyMirror(lm: Landmarks, hand: Handedness)
    ensures Classify(Mirror(lm), Flip(hand)) == Classify(lm, hand)
  {
  }
}
