# Hand-tracking rock, paper, scissors: the game logic

A Dafny model of the logic in `game.py`, the webcam rock-paper-scissors game. A hand detector reports the hands it sees in each frame.
The game turns the right hand's pose into a gesture: rock, paper, scissors, "thinking" (both wrists together) or "none".
When the player moves into a new throw, the computer picks a move, and the frame shows the gesture, the computer's move and the result.

Modules:

- `Options` (`options.dfy`): the `Option` type used wherever the game keeps `None`.
- `Geometry` (`geometry.dfy`): landmark points and the strict "wrists closer than 0.15" test on exact reals.
- `Rules` (`rules.dfy`): moves and outcomes, and `get_winner` as `Winner`. `Winner` is checked against a separate cyclic definition of which move beats which. `get_computer_choice` is `ComputerChoice`, with the random draw passed in.
- `Gestures` (`gestures.dfy`): `get_gesture` as two functions, `Fingers` (the 5-flag finger vector) and `Classify` (the fixed pattern table). Also the mirror symmetry of the classifier.
- `Hands` (`hands.dfy`): the per-frame scan of the detected hands. `ResolveHands` is a method with the hand loop of game.py:72-79, proved against the specification functions `LastIndex` and `FrameGesture`.
- `Round` (`round.dfy`): the state carried across frames (`last_gesture`, `computer_choice`) as the class `Game`, whose `Step` method runs one loop iteration. `Step` is proved against the pure transition `Advance`. Lemmas about runs of frames are stated with `Run` and `Draws`.

Two behaviours of game.py that the model keeps:
- The result is not sticky. game.py:95-99 recomputes it on every hand frame and draws no result line when the gesture is not a move. Only the computer's move persists (`Round.StickyComputerMove`).
- Only frames with hands change `last_gesture`. A hand frame showing "none" or "thinking" re-arms the trigger (`Round.InBetweenRearms`). A frame with no hands does not (`Round.RockGapRock`, `Round.HeldMoveDrawsOnce`).

## Model

| member | source | states |
|---|---|---|
| `Geometry.SquaredDistance` | game.py:10-11 | the squared wrist distance is non-negative, zero for a point and itself, and at least the square of each coordinate difference |
| `Geometry.Close` | game.py:82-84 | the strict `distance < 0.15` test: a point is close to itself, and close wrists differ by less than 0.15 on each axis |
| `Geometry.CloseSymmetric` | game.py:82-84 | the closeness test does not depend on which wrist comes first |
| `Geometry.CloseBoundary` | game.py:84 | any two wrists exactly 0.15 apart are not close (the test is strict) |
| `Rules.Winner` | game.py:43-49 | tie iff the moves are equal; player wins iff the player's move is one step after the computer's on the rock-paper-scissors cycle; computer wins iff the reverse |
| `Rules.PlayerWinsExactly` | game.py:46-47 | exactly (rock, scissors), (paper, rock) and (scissors, paper) give "Player Wins" |
| `Rules.WinnerAntisymmetric` | game.py:43-49 | for distinct moves, swapping them turns "Player Wins" into "Computer Wins" and back |
| `Rules.DefeatsTotal` | game.py:44-49 | of two distinct moves exactly one beats the other |
| `Rules.Counter` | game.py:41 | the cheat dictionary maps each move to the move that beats it, never to itself |
| `Rules.ComputerChoice` | game.py:38-41 | honest: the random draw is returned; cheating: the returned move beats the player's |
| `Rules.CheatAlwaysWins` | game.py:40-41 | cheating uses the table rock to paper, paper to scissors, scissors to rock, and the computer wins every round |
| `Gestures.Fingers` | game.py:14-25 | five flags; the thumb flag is set iff tip 4 lies left of joint 3 for a right hand and right of it otherwise; flag k of the other fingers is set iff tip 4k+4 is above landmark 4k+2 |
| `Gestures.Classify` | game.py:13-36 | never "thinking"; rock iff thumb and all four fingers curled; paper iff all four fingers up, whatever the thumb does; scissors iff thumb in, index and middle up, ring and pinky down |
| `Gestures.ClassifyTable` | game.py:27-36 | the finger-vector table: 00000 rock, 11111 and 01111 paper, 01100 scissors, thumb-out scissors 11100 none, and none iff the vector is outside those four |
| `Gestures.FingersMirror` | game.py:17-25 | negating every x-coordinate and flipping the side label leaves all five flags unchanged |
| `Gestures.ClassifyMirror` | game.py:13-36 | hence the classification is unchanged under that mirroring |
| `Hands.LastIndex` | game.py:72-79 | the index found carries the label and no later hand does; none is found iff no hand carries it |
| `Hands.ResolveHands` | game.py:67-85 | the scan leaves the left and right wrists of the last such hands, and the frame's gesture |
| `Hands.FrameGesture` | game.py:67-85 | the frame's gesture is "thinking" or the last right hand's shape, and a move only when a right hand is present and the wrists are not together |
| `Hands.NoRightHandNoGesture` | game.py:69-79 | with no right hand in the frame the gesture is "none" |
| `Hands.ThinkingIffTogether` | game.py:82-85 | the gesture is "thinking" exactly when both wrists are present and closer than 0.15 |
| `Hands.LastRightHandDecides` | game.py:77-85 | otherwise the gesture is the classification of the last right hand |
| `Hands.LaterRightHandWins` | game.py:72-79 | of two right hands in a row, the earlier one does not affect the gesture |
| `Round.Fires` | game.py:88 | a new computer move is drawn exactly when the gesture is a move and differs from the last gesture |
| `Round.Advance` | game.py:71-91 | a frame without hands changes nothing; otherwise the last gesture becomes the frame's, a rising edge stores that frame's computer choice, and any other frame keeps the computer move |
| `Round.Shown` | game.py:93-99 | without hands nothing is drawn; otherwise the gesture and the stored computer move are shown, and a result appears exactly when the gesture is a move and a computer move exists, being their winner |
| `Round.Draws` | game.py:88-89 | a run of frames draws a computer move at most once per frame |
| `Round.Game.constructor` | game.py:55-56 | the game starts with no last gesture and no computer move |
| `Round.Game.Step` | game.py:67-99 | the new state is `Advance` of the old one on this frame; a frame without hands changes nothing and draws nothing; on a frame whose gesture is a move, there is a computer move and the result is the winner of the two |
| `Round.AdvanceConsistent` | game.py:88-91 | each frame keeps the invariant "last gesture a move implies a computer move exists" |
| `Round.RunConsistent` | game.py:55-91 | every run of frames keeps that invariant |
| `Round.ResultOnEveryMove` | game.py:88-98 | in a consistent state, a frame whose gesture is a move always shows a result against the stored computer move |
| `Round.NoResultOffMove` | game.py:97-98 | a frame whose gesture is "none" or "thinking" shows no result |
| `Round.ChoiceOnlyOnRisingEdge` | game.py:88-91 | the computer's move changes only on a rising edge, to that frame's choice; it is never cleared; the last gesture becomes the frame's gesture |
| `Round.NoDrawKeepsChoice` | game.py:88-89 | a run with no rising edge leaves the computer's move unchanged |
| `Round.ChoiceNeverCleared` | game.py:88-89 | once a computer move exists, no run of frames removes it |
| `Round.NoHandsRunKeepsState` | game.py:71-91 | any run of frames without hands leaves the whole state unchanged |
| `Round.HeldGestureNeverDraws` | game.py:88-91 | holding the last gesture, with or without empty frames in between, never draws |
| `Round.HeldMoveDrawsOnce` | game.py:71-91 | one move shown over many hand frames draws exactly once if it is new, never if it was already the last gesture |
| `Round.InBetweenRearms` | game.py:88-91 | move, other gesture, same move: the middle frame re-arms the trigger, so the third frame draws again |
| `Round.RockThinkingRock` | game.py:84-91 | rock, thinking, rock from the start draws twice |
| `Round.RockGapRock` | game.py:71-91 | rock, no hands, rock from the start draws once |
| `Round.StickyComputerMove` | game.py:88-99 | none, rock, rock, none, paper draws twice; after the fourth frame the computer's move is still rock's draw and no result is shown |
| `Round.HonestScenario` | game.py:88-99 | none then rock with the draw paper shows rock, paper, "Computer Wins" |
| `Round.CheatScenario` | game.py:38-49 | none then scissors while cheating shows scissors, rock, "Computer Wins" |
| `Round.TogetherDrawsNothing` | game.py:82-89 | two wrists closer than the threshold give "thinking", and no computer move is drawn |

## Left out

- Camera capture, frame flipping and colour conversion (game.py:5, 59-64): I/O.
- The MediaPipe hand detector (game.py:7-8, 51, 65): a foreign perception library. Its output is the input `seq<Hand>`: a side label and exactly 21 landmarks per hand (the subset type `Landmarks`). The side label has only the two values the detector produces, so the `else` branch of the thumb test is the `Left` case. The two parallel lists of landmarks and labels are one list of pairs.
- Text rendering, the window and key polling (game.py:93-108): UI. What would be drawn is `Step`'s `Display` result.
- Floating point and `math.sqrt` in `get_distance` (game.py:10-11): coordinates are exact reals. Closeness compares the squared distance against 0.15 squared, which is equivalent because the square root is monotone. Float rounding of 0.15 and of the sum is not modelled.
- `random.choice` (game.py:39-40): the random move is the parameter `draw`. Nothing about uniformity or independence is modelled.
- Ending the loop on a failed camera read or the 'q' key (game.py:60-61, 105-106): I/O-driven control flow. The loop itself is the caller's repeated calls of `Step`. A run of frames is the function `Run`.
- The main loop always calls the strategy with cheating off (game.py:89), so `Step` uses the constant `Cheat = false`. The cheating path is specified on `Rules.ComputerChoice`. `Advance` takes the flag as a parameter, so the cheating scenario is checked on it.
- `Round.Draws`: its own contract only bounds the count by the number of frames. The exact counts are the lemmas `HeldMoveDrawsOnce`, `InBetweenRearms`, `RockThinkingRock` and `RockGapRock`. A counted frame is exactly one where `Fires` holds, which is where `Advance` stores a new computer move.
