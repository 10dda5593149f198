/** Moves, the outcome of a round and the computer's strategy (game.py:38-49). */
module Rules {

  datatype Move = Rock | Paper | Scissors

  datatype Outcome = Tie | PlayerWins | ComputerWins

  /** Position of a move on the rock, paper, scissors cycle. */
  function Ordinal(m: Move): int
  {
    match m
    case Rock => 0
    case Paper => 1
    case Scissors => 2
  }

  /**
   * Reference statement of the rules, independent of the table in
   * `Winner`: a move defeats the move one step before it on the cycle.
   */
  predicate Defeats(a: Move, b: Move)
  {
    (Ordinal(a) - Ordinal(b)) % 3 == 1
  }

  /** `get_winner`: the outcome for the player throwing `player` against `computer`. */
  function Winner(player: Move, computer: Move): (r: Outcome)
    ensures r == Tie <==> player == computer
    ensures r == PlayerWins <==> Defeats(player, computer)
    ensures r == ComputerWins <==> Defeats(computer, player)
  {
    if player == computer then Tie
    else if (player == Rock && computer == Scissors)
         || (player == Paper && computer == Rock)
         || (player == Scissors && computer == Paper)
    then PlayerWins
    else ComputerWins
  }

  /** The cheating table: the move that beats the player's move. */
  function Counter(m: Move): (r: Move)
    ensures Defeats(r, m)
    ensures r != m
  {
    match m
    case Rock => Paper
    case Paper => Scissors
    case Scissors => Rock
  }

  /**
   * `get_computer_choice`. The random draw of the honest path is the
   * parameter `draw`, which by its type is one of the three moves.
   */
  function ComputerChoice(cheat: bool, player: Move, draw: Move): (r: Move)
    ensures !cheat ==> r == draw
    ensures cheat ==> Defeats(r, player)
  {
    if !cheat then draw else Counter(player)
  }

  /** Exactly three ordered pairs make the player win. */
  lemma PlayerWinsExactly(p: Move, c: Move)
    ensures Winner(p, c) == PlayerWins <==>
              (p == Rock && c == Scissors) || (p == Paper && c == Rock) || (p == Scissors && c == Paper)
  {
  }

  /** Swapping two distinct moves swaps the winner. */
  lemma WinnerAntisymmetric(a: Move, b: Move)
    requires a != b
    ensures Winner(a, b) == PlayerWins <==> Winner(b, a) == ComputerWins
    ensures Winner(a, b) == ComputerWins <==> Winner(b, a) == PlayerWins
  {
  }

  /** Of two distinct moves exactly one defeats the other. */
  lemma DefeatsTotal(a: Move, b: Move)
    requires a != b
    ensures Defeats(a, b) != Defeats(b, a)
  {
  }

  /** With cheating on, the computer wins every round. */
  lemma CheatAlwaysWins(p: Move, draw: Move)
    ensures ComputerChoice(true, p, draw) == Counter(p)
    ensures Winner(p, ComputerChoice(true, p, draw)) == ComputerWins
  {
  }
}
