/** The turn logic of the Snake-and-Ladder game widget: two players, Red
    (player A, who starts) and Green (player B), alternate pushes; each push
    rolls the dice and moves the player whose turn it is. */
module SnakeGame {
  import opened SnakeBoard

  const Home := SquareCount

  datatype Player = Red | Green

  /** The scoreboard text, by kind: the plain dice-roll line names the player
      and the roll; a win names the winner. */
  datatype Message =
    | Blank
    | DiceRoll(player: Player, roll: int)
    | GreatLuck
    | BadLuck
    | Congratulations(winner: Player)

  /** Positions of player A (Red) and player B (Green), whose turn it is
      (`turn` is true when it is Green's), whether the game is over, and
      the scoreboard message. */
  datatype Game = Game(posA: int, posB: int, turn: bool, gameDone: bool, message: Message)

  /** A window event: a mouse push, or anything else. */
  datatype Event = Push | OtherEvent

  /** The game after an event, and whether the widget consumed the event
      (otherwise it is passed on to the toolkit unchanged). */
  datatype Reaction = Reaction(game: Game, consumed: bool)

  function Other(p: Player): Player {
    if p == Red then Green else Red
  }

  /** The player whose turn it is. */
  function Current(g: Game): Player {
    if g.turn then Green else Red
  }

  function PositionOf(g: Game, p: Player): int {
    if p == Red then g.posA else g.posB
  }

  function WithPosition(g: Game, p: Player, pos: int): (g': Game)
    ensures PositionOf(g', p) == pos && PositionOf(g', Other(p)) == PositionOf(g, Other(p))
    ensures g'.turn == g.turn && g'.gameDone == g.gameDone && g'.message == g.message
  {
    if p == Red then g.(posA := pos) else g.(posB := pos)
  }

  predicate InBounds(g: Game) {
    OnBoard(g.posA) && OnBoard(g.posB)
  }

  /** What every reachable game satisfies: both pieces rest on resting squares,
      the game is over exactly when one of them is home (never both), and a
      finished game shows the winner's congratulations. */
  predicate Valid(g: Game) {
    && Resting(g.posA) && Resting(g.posB)
    && (g.gameDone <==> (g.posA == Home || g.posB == Home))
    && !(g.posA == Home && g.posB == Home)
    && (g.gameDone ==> g.message == Congratulations(if g.posA == Home then Red else Green))
  }

  /** Both players on square 1, Red to move, an empty scoreboard. */
  function NewGame(): (g: Game)
    ensures Valid(g) && !g.gameDone && Current(g) == Red
    ensures PositionOf(g, Red) == 1 && PositionOf(g, Green) == 1
  {
    Game(1, 1, false, false, Blank)
  }

  /** One event with the dice showing `roll`. */
  function Handle(g: Game, event: Event, roll: int): (r: Reaction)
    requires InBounds(g)
    requires 1 <= roll <= 6
    ensures InBounds(r.game)
    // a finished game, or any other event, changes nothing
    ensures !r.consumed <==> (g.gameDone || event != Push)
    ensures !r.consumed ==> r.game == g
    // every handled push passes the turn, and never moves the other player
    ensures r.consumed ==> r.game.turn == !g.turn
    ensures r.consumed ==> PositionOf(r.game, Other(Current(g))) == PositionOf(g, Other(Current(g)))
    // overshooting the last square leaves everything in place
    ensures var target := PositionOf(g, Current(g)) + roll;
            r.consumed && target > Home ==>
              r.game.posA == g.posA && r.game.posB == g.posB && !r.game.gameDone
              && r.game.message == DiceRoll(Current(g), roll)
    // otherwise the mover lands on the target square and follows its ladder or snake
    ensures var target := PositionOf(g, Current(g)) + roll;
            r.consumed && target <= Home ==>
              PositionOf(r.game, Current(g)) == (if target in Ladders then Ladders[target]
                                                 else if target in Snakes then Snakes[target]
                                                 else target)
    // the game ends exactly when the mover lands on the last square
    ensures r.game.gameDone <==> g.gameDone || (r.consumed && PositionOf(g, Current(g)) + roll == Home)
    ensures var target := PositionOf(g, Current(g)) + roll;
            r.consumed && target == Home ==> r.game.message == Congratulations(Current(g))
    ensures var target := PositionOf(g, Current(g)) + roll;
            r.consumed && target < Home ==>
              r.game.message == (if target in Ladders then GreatLuck
                                 else if target in Snakes then BadLuck
                                 else DiceRoll(Current(g), roll))
  {
    if g.gameDone || event != Push then
      Reaction(g, false)
    else
      var mover := Current(g);
      var pos := PositionOf(g, mover);
      var moved := (
        if pos + roll > Home then
          g.(message := DiceRoll(mover, roll))
        else
          var newpos := GetDestination(pos + roll);
          HomeOnlyFromHome(pos + roll);
          if newpos == Home then
            WithPosition(g, mover, newpos).(message := Congratulations(mover), gameDone := true)
          else
            var message :=
              if newpos > pos + roll then GreatLuck
              else if newpos < pos + roll then BadLuck
              else DiceRoll(mover, roll);
            WithPosition(g, mover, newpos).(message := message));
      Reaction(moved.(turn := !g.turn), true)
  }

  /** Handling an event keeps a game valid. */
  lemma HandlePreservesValid(g: Game, event: Event, roll: int)
    requires Valid(g)
    requires 1 <= roll <= 6
    ensures Valid(Handle(g, event, roll).game)
  {
    var r := Handle(g, event, roll);
    if r.consumed {
      var target := PositionOf(g, Current(g)) + roll;
      if target <= Home {
        HomeOnlyFromHome(target);
      }
    }
  }

  /** A sequence of pushes, one per dice roll. */
  function Play(g: Game, rolls: seq<int>): (g': Game)
    requires InBounds(g)
    requires forall i :: 0 <= i < |rolls| ==> 1 <= rolls[i] <= 6
    ensures InBounds(g')
    decreases |rolls|
  {
    if rolls == [] then g else Play(Handle(g, Push, rolls[0]).game, rolls[1..])
  }

  /** The players whose turn each push took (an overshoot takes a turn without
      moving); pushes after the end take no turn. */
  function Movers(g: Game, rolls: seq<int>): seq<Player>
    requires InBounds(g)
    requires forall i :: 0 <= i < |rolls| ==> 1 <= rolls[i] <= 6
    decreases |rolls|
  {
    if rolls == [] || g.gameDone then []
    else [Current(g)] + Movers(Handle(g, Push, rolls[0]).game, rolls[1..])
  }

  /** Every reachable game is valid. */
  lemma {:induction false} PlayPreservesValid(g: Game, rolls: seq<int>)
    requires Valid(g)
    requires forall i :: 0 <= i < |rolls| ==> 1 <= rolls[i] <= 6
    ensures Valid(Play(g, rolls))
    decreases |rolls|
  {
    if rolls != [] {
      HandlePreservesValid(g, Push, rolls[0]);
      PlayPreservesValid(Handle(g, Push, rolls[0]).game, rolls[1..]);
    }
  }

  /** Once the game is won, no further push changes anything. */
  lemma {:induction false} FinishedGameIsFrozen(g: Game, rolls: seq<int>)
    requires InBounds(g) && g.gameDone
    requires forall i :: 0 <= i < |rolls| ==> 1 <= rolls[i] <= 6
    ensures Play(g, rolls) == g
    decreases |rolls|
  {
    if rolls != [] {
      FinishedGameIsFrozen(Handle(g, Push, rolls[0]).game, rolls[1..]);
    }
  }

  /** The players strictly alternate: the k-th turn is taken by the player
      who was to move at the start when k is even, by the other when k is odd. */
  lemma {:induction false} PlayersAlternate(g: Game, rolls: seq<int>)
    requires InBounds(g)
    requires forall i :: 0 <= i < |rolls| ==> 1 <= rolls[i] <= 6
    ensures forall k :: 0 <= k < |Movers(g, rolls)| ==>
              Movers(g, rolls)[k] == (if k % 2 == 0 then Current(g) else Other(Current(g)))
    decreases |rolls|
  {
    if rolls != [] && !g.gameDone {
      var next := Handle(g, Push, rolls[0]).game;
      PlayersAlternate(next, rolls[1..]);
      var rest := Movers(next, rolls[1..]);
      assert Current(next) == Other(Current(g));
      forall k | 0 <= k < |Movers(g, rolls)|
        ensures Movers(g, rolls)[k] == (if k % 2 == 0 then Current(g) else Other(Current(g)))
      {
        if k > 0 {
          assert Movers(g, rolls)[k] == rest[k - 1];
        }
      }
    }
  }

  /** From a fresh game, Red takes the even turns and Green the odd ones. */
  lemma RedStarts(rolls: seq<int>)
    requires forall i :: 0 <= i < |rolls| ==> 1 <= rolls[i] <= 6
    ensures forall k :: 0 <= k < |Movers(NewGame(), rolls)| ==>
              Movers(NewGame(), rolls)[k] == (if k % 2 == 0 then Red else Green)
  {
    PlayersAlternate(NewGame(), rolls);
  }

  /** While the game lasts, every push takes a turn: the turn flag after n pushes
      is the starting flag flipped n times. */
  lemma {:induction false} TurnParity(g: Game, rolls: seq<int>)
    requires InBounds(g)
    requires forall i :: 0 <= i < |rolls| ==> 1 <= rolls[i] <= 6
    requires !Play(g, rolls).gameDone
    ensures Play(g, rolls).turn == (g.turn != (|rolls| % 2 == 1))
    ensures |Movers(g, rolls)| == |rolls|
    decreases |rolls|
  {
    if rolls != [] {
      var next := Handle(g, Push, rolls[0]).game;
      if next.gameDone {
        FinishedGameIsFrozen(next, rolls[1..]);
        assert false;
      }
      TurnParity(next, rolls[1..]);
    }
  }

  /** The same-square test used when placing the pieces: both pieces are
      drawn at one place. */
  function PlayersOverlap(g: Game): (same: bool)
    requires InBounds(g)
    ensures same <==> GetDestination(g.posA) == GetDestination(g.posB)
    ensures Valid(g) ==> (same <==> g.posA == g.posB)
  {
    SamePixelsIffSameDestination(g.posA, g.posB);
    var a, b := PixelCoordinates(g.posA), PixelCoordinates(g.posB);
    a.x == b.x && a.y == b.y
  }
}
