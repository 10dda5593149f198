/**
 * The per-frame round state machine of the main loop (game.py:51-99):
 * the computer draws a new move on a rising edge into a playable gesture,
 * `last_gesture` follows every frame that shows hands, and the result is
 * computed afresh on each frame whose gesture is a move.
 */
module Round {

  import opened Options
  import opened Rules
  import opened Gestures
  import opened Hands

  /** The main loop always asks for an honest computer move (game.py:89). */
  const Cheat: bool := false

  /** What persists from frame to frame: `last_gesture` and `computer_choice`. */
  datatype RoundState = RoundState(last: Option<Gesture>, choice: Option<Move>)

  /** Both start out as `None` (game.py:55-56). */
  const Initial: RoundState := RoundState(None, None)

  /**
   * The three text lines of a frame: "Gesture", "Computer" and "Result",
   * each `None` when the frame does not draw it.
   */
  datatype Display = Display(gesture: Option<Gesture>, computer: Option<Move>, result: Option<Outcome>)

  /** What the state machine sees of a frame: nothing without hands, else the frame's gesture. */
  function Event(hands: seq<Hand>): Option<Gesture>
  {
    if |hands| == 0 then None else Some(FrameGesture(hands))
  }

  /** The rising-edge test: a gesture other than "none" and "thinking" that differs from the last one. */
  predicate Fires(last: Option<Gesture>, g: Gesture)
    ensures Fires(last, g) <==> g.Shape? && last != Some(g)
  {
    Some(g) != last && g != NoGesture && g != Thinking
  }

  /** `last_gesture` after one frame. */
  function NextLast(last: Option<Gesture>, e: Option<Gesture>): Option<Gesture>
  {
    if e.None? then last else e
  }

  /**
   * The state after one frame: a frame without hands changes nothing;
   * otherwise the last gesture becomes the frame's, and a rising edge
   * replaces the computer's move by a fresh choice while any other frame
   * keeps it.
   */
  function Advance(s: RoundState, e: Option<Gesture>, cheat: bool, draw: Move): (r: RoundState)
    ensures e.None? ==> r == s
    ensures r.last == NextLast(s.last, e)
    ensures e.Some? && Fires(s.last, e.value) ==> r.choice == Some(ComputerChoice(cheat, e.value.move, draw))
    ensures !(e.Some? && Fires(s.last, e.value)) ==> r.choice == s.choice
  {
    match e
    case None => s
    case Some(g) =>
      RoundState(Some(g), if Fires(s.last, g) then Some(ComputerChoice(cheat, g.move, draw)) else s.choice)
  }

  /**
   * What a frame draws, given the state after its update: nothing without
   * hands; otherwise the gesture and the stored computer move, and a result
   * exactly when the gesture is a move and there is a computer move, that
   * result being the winner of the two.
   */
  function Shown(s: RoundState, e: Option<Gesture>): (d: Display)
    ensures e.None? ==> d == Display(None, None, None)
    ensures e.Some? ==> d.gesture == e && d.computer == s.choice
    ensures d.result.Some? <==> e.Some? && e.value.Shape? && s.choice.Some?
    ensures d.result.Some? ==> d.result == Some(Winner(e.value.move, s.choice.value))
  {
    match e
    case None => Display(None, None, None)
    case Some(g) =>
      Display(Some(g), s.choice,
              if s.choice.Some? && g.Shape? then Some(Winner(g.move, s.choice.value)) else None)
  }

  /** The state invariant: once the last gesture was a move, there is a computer move. */
  predicate Consistent(s: RoundState)
  {
    s.last.Some? && s.last.value.Shape? ==> s.choice.Some?
  }

  /** A run of frames; `draws[i]` is the random move offered to frame `i`. */
  function Run(s: RoundState, events: seq<Option<Gesture>>, cheat: bool, draws: seq<Move>): RoundState
    requires |draws| == |events|
    decreases |events|
  {
    if events == [] then s
    else Run(Advance(s, events[0], cheat, draws[0]), events[1..], cheat, draws[1..])
  }

  /** How many frames of a run draw a new computer move. */
  function Draws(last: Option<Gesture>, events: seq<Option<Gesture>>): (n: nat)
    ensures n <= |events|
    decreases |events|
  {
    if events == [] then 0
    else (if events[0].Some? && Fires(last, events[0].value) then 1 else 0)
         + Draws(NextLast(last, events[0]), events[1..])
  }

  class Game {
    var lastGesture: Option<Gesture>
    var computerChoice: Option<Move>

    function State(): RoundState
      reads this
    {
      RoundState(lastGesture, computerChoice)
    }

    predicate Valid()
      reads this
    {
      Consistent(State())
    }

    constructor ()
      ensures State() == Initial && Valid()
    {
      lastGesture := None;
      computerChoice := None;
    }

    /**
     * One iteration of the main loop on the hands the detector reported.
     * `draw` is the move `random.choice` would return this frame.
     */
    method Step(hands: seq<Hand>, draw: Move) returns (shown: Display)
      requires Valid()
      modifies this
      ensures Valid()
      ensures State() == Advance(old(State()), Event(hands), Cheat, draw)
      ensures shown == Shown(State(), Event(hands))
      ensures |hands| == 0 ==> State() == old(State()) && shown == Display(None, None, None)
      ensures Event(hands).Some? && Event(hands).value.Shape? ==>
                computerChoice.Some? && shown.result == Some(Winner(Event(hands).value.move, computerChoice.value))
    {
      var leftBase, rightBase, gesture := ResolveHands(hands);
      shown := Display(None, None, None);
      if |hands| > 0 {
        if Some(gesture) != lastGesture && gesture != NoGesture && gesture != Thinking {
          computerChoice := Some(ComputerChoice(Cheat, gesture.move, draw));
        }
        lastGesture := Some(gesture);
        var result := None;
        if computerChoice.Some? && gesture.Shape? {
          result := Some(Winner(gesture.move, computerChoice.value));
        }
        shown := Display(Some(gesture), computerChoice, result);
      }
    }
  }

  /** Every frame keeps the invariant. */
  lemma AdvanceConsistent(s: RoundState, e: Option<Gesture>, cheat: bool, draw: Move)
    requires Consistent(s)
    ensures Consistent(Advance(s, e, cheat, draw))
  {
  }

  /** So does every run, and the initial state has it. */
  lemma {:induction false} RunConsistent(s: RoundState, events: seq<Option<Gesture>>, cheat: bool, draws: seq<Move>)
    requires |draws| == |events| && Consistent(s)
    ensures Consistent(Run(s, events, cheat, draws))
    decreases |events|
  {
    if events != [] {
      AdvanceConsistent(s, events[0], cheat, draws[0]);
      RunConsistent(Advance(s, events[0], cheat, draws[0]), events[1..], cheat, draws[1..]);
    }
  }

  /** A frame whose gesture is a move always shows a result against the stored computer move. */
  lemma ResultOnEveryMove(s: RoundState, m: Move, cheat: bool, draw: Move)
    requires Consistent(s)
    ensures Advance(s, Some(Shape(m)), cheat, draw).choice.Some?
    ensures Shown(Advance(s, Some(Shape(m)), cheat, draw), Some(Shape(m))).result
            == Some(Winner(m, Advance(s, Some(Shape(m)), cheat, draw).choice.value))
  {
  }

  /** Frames that show something other than a move draw no result line. */
  lemma NoResultOffMove(s: RoundState, g: Gesture)
    requires !g.Shape?
    ensures Shown(s, Some(g)).result == None
  {
  }

  /** The computer's move changes only on a rising edge, and is never cleared. */
  lemma ChoiceOnlyOnRisingEdge(s: RoundState, e: Option<Gesture>, cheat: bool, draw: Move)
    ensures Advance(s, e, cheat, draw).choice != s.choice ==>
              e.Some? && Fires(s.last, e.value) && Advance(s, e, cheat, draw).choice == Some(ComputerChoice(cheat, e.value.move, draw))
    ensures s.choice.Some? ==> Advance(s, e, cheat, draw).choice.Some?
    ensures Advance(s, e, cheat, draw).last == NextLast(s.last, e)
  {
  }

  /** A run without drawing frames leaves the computer's move where it was. */
  lemma {:induction false} NoDrawKeepsChoice(s: RoundState, events: seq<Option<Gesture>>, cheat: bool, draws: seq<Move>)
    requires |draws| == |events| && Draws(s.last, events) == 0
    ensures Run(s, events, cheat, draws).choice == s.choice
    decreases |events|
  {
    if events != [] {
      var t := Advance(s, events[0], cheat, draws[0]);
      assert t.choice == s.choice && t.last == NextLast(s.last, events[0]);
      NoDrawKeepsChoice(t, events[1..], cheat, draws[1..]);
    }
  }

  /** Once there is a computer move, no run removes it. */
  lemma {:induction false} ChoiceNeverCleared(s: RoundState, events: seq<Option<Gesture>>, cheat: bool, draws: seq<Move>)
    requires |draws| == |events| && s.choice.Some?
    ensures Run(s, events, cheat, draws).choice.Some?
    decreases |events|
  {
    if events != [] {
      ChoiceNeverCleared(Advance(s, events[0], cheat, draws[0]), events[1..], cheat, draws[1..]);
    }
  }

  /** Frames without hands change nothing, however many there are. */
  lemma {:induction false} NoHandsRunKeepsState(s: RoundState, events: seq<Option<Gesture>>, cheat: bool, draws: seq<Move>)
    requires |draws| == |events|
    requires forall i :: 0 <= i < |events| ==> events[i].None?
    ensures Run(s, events, cheat, draws) == s
    decreases |events|
  {
    if events != [] {
      NoHandsRunKeepsState(s, events[1..], cheat, draws[1..]);
    }
  }

  /** A gesture that is already the last one draws nothing while it is held, through frames without hands too. */
  lemma {:induction false} HeldGestureNeverDraws(g: Gesture, events: seq<Option<Gesture>>)
    requires forall i :: 0 <= i < |events| ==> events[i] == None || events[i] == Some(g)
    ensures Draws(Some(g), events) == 0
    decreases |events|
  {
    if events != [] {
      HeldGestureNeverDraws(g, events[1..]);
    }
  }

  /**
   * Showing one move over a run of hand frames, possibly broken by frames
   * without hands, draws exactly once when the move is new and never when
   * it was already the last gesture.
   */
  lemma {:induction false} HeldMoveDrawsOnce(last: Option<Gesture>, m: Move, events: seq<Option<Gesture>>)
    requires forall i :: 0 <= i < |events| ==> events[i] == None || events[i] == Some(Shape(m))
    requires exists i :: 0 <= i < |events| && events[i] == Some(Shape(m))
    ensures Draws(last, events) == if last == Some(Shape(m)) then 0 else 1
    decreases |events|
  {
    if last == Some(Shape(m)) {
      HeldGestureNeverDraws(Shape(m), events);
    } else if events[0] == None {
      var i :| 0 <= i < |events| && events[i] == Some(Shape(m));
      assert events[1..][i - 1] == events[i];
      HeldMoveDrawsOnce(last, m, events[1..]);
    } else {
      HeldGestureNeverDraws(Shape(m), events[1..]);
    }
  }

  /**
   * A move, then another gesture, then the same move again draws again:
   * the middle frame replaces `last_gesture`, even when it is "thinking"
   * or "none" and draws nothing itself.
   */
  lemma InBetweenRearms(last: Option<Gesture>, m: Move, x: Gesture)
    requires x != Shape(m)
    ensures Draws(last, [Some(Shape(m)), Some(x), Some(Shape(m))])
            == (if last == Some(Shape(m)) then 0 else 1) + (if x.Shape? then 1 else 0) + 1
  {
    var es := [Some(Shape(m)), Some(x), Some(Shape(m))];
    assert es[1..] == [Some(x), Some(Shape(m))];
    assert es[1..][1..] == [Some(Shape(m))];
    assert Draws(Some(Shape(m)), es[1..][1..]) == 0;
    assert Draws(Some(x), es[1..][1..]) == 1;
    assert Draws(Some(Shape(m)), es[1..]) == (if x.Shape? then 1 else 0) + 1;
  }

  /** Rock, thinking, rock from the start of the game draws twice. */
  lemma RockThinkingRock()
    ensures Draws(None, [Some(Shape(Rock)), Some(Thinking), Some(Shape(Rock))]) == 2
  {
  }

  /** Rock, a frame without hands, rock draws once: an empty frame does not re-arm. */
  lemma RockGapRock()
    ensures Draws(None, [Some(Shape(Rock)), None, Some(Shape(Rock))]) == 1
  {
  }

  /**
   * Frames "none", rock, rock, "none", paper: two draws; after the fourth
   * frame the computer's move is still the one drawn for rock, but no
   * result is shown on that frame.
   */
  lemma StickyComputerMove(d: seq<Move>)
    requires |d| == 4
    ensures Draws(None, [Some(NoGesture), Some(Shape(Rock)), Some(Shape(Rock)), Some(NoGesture), Some(Shape(Paper))]) == 2
    ensures Run(Initial, [Some(NoGesture), Some(Shape(Rock)), Some(Shape(Rock)), Some(NoGesture)], Cheat, d).choice == Some(d[1])
    ensures Shown(Run(Initial, [Some(NoGesture), Some(Shape(Rock)), Some(Shape(Rock)), Some(NoGesture)], Cheat, d), Some(NoGesture))
            == Display(Some(NoGesture), Some(d[1]), None)
  {
  }

  /** "None" then rock, with the random draw giving paper: rock loses to paper. */
  lemma HonestScenario()
    ensures Shown(Run(Initial, [Some(NoGesture), Some(Shape(Rock))], false, [Rock, Paper]), Some(Shape(Rock)))
            == Display(Some(Shape(Rock)), Some(Paper), Some(ComputerWins))
  {
  }

  /** "None" then scissors with cheating on: the computer throws rock and wins, whatever the draws. */
  lemma CheatScenario(d0: Move, d1: Move)
    ensures Shown(Run(Initial, [Some(NoGesture), Some(Shape(Scissors))], true, [d0, d1]), Some(Shape(Scissors)))
            == Display(Some(Shape(Scissors)), Some(Rock), Some(ComputerWins))
  {
  }

  /** Two hands closer than the threshold show "thinking" and draw nothing, whatever the right hand shows. */
  lemma TogetherDrawsNothing(hands: seq<Hand>, draw: Move)
    requires |hands| > 0 && HandsTogether(hands)
    ensures Event(hands) == Some(Thinking)
    ensures Advance(Initial, Event(hands), Cheat, draw) == RoundState(Some(Thinking), None)
  {
  }
}
