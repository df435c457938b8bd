/** The React Native screen of the Snake game: a 15 x 15 board, positions
    `{x, y}` with the head at index 0, directions named "UP", "DOWN", "LEFT"
    and "RIGHT", and no score. */
module NativeSnake {
  import opened Sequences

  /** Side of the square board, in cells. */
  const GRID_SIZE: int := 15

  /** A board cell; x grows to the right and y grows downwards. */
  datatype Pos = Pos(x: int, y: int)

  datatype Direction = Up | Down | Left | Right

  /** Everything the tick, the buttons and the restart read or write. */
  datatype State = State(snake: seq<Pos>, apple: Pos, direction: Direction, gameOver: bool)

  /** What drives the screen: a timer tick (with the cell the random apple
      placement would pick), a press on a direction button, or Restart. */
  datatype Event = Tick(spawn: Pos) | Press(requested: Direction) | Restart

  predicate InGrid(p: Pos) {
    0 <= p.x < GRID_SIZE && 0 <= p.y < GRID_SIZE
  }

  function Abs(n: int): nat {
    if n < 0 then -n else n
  }

  /** The direction that undoes `d`. */
  function Reverse(d: Direction): Direction {
    match d
    case Up => Down
    case Down => Up
    case Left => Right
    case Right => Left
  }

  /** The cell next to `p` in direction `d`: the switch that moves the copied head. */
  function Shifted(p: Pos, d: Direction): (q: Pos)
    ensures Abs(q.x - p.x) + Abs(q.y - p.y) == 1
    ensures q.x == p.x <==> d == Up || d == Down
  {
    match d
    case Up => p.(y := p.y - 1)
    case Down => p.(y := p.y + 1)
    case Left => p.(x := p.x - 1)
    case Right => p.(x := p.x + 1)
  }

  /** Stepping back the opposite way returns to the cell one came from. */
  lemma ShiftedReverse(p: Pos, d: Direction)
    ensures Shifted(Shifted(p, d), Reverse(d)) == p
  {
  }

  /** From one cell, the four directions lead to four different cells. */
  lemma ShiftedInjective(p: Pos, d: Direction, e: Direction)
    requires Shifted(p, d) == Shifted(p, e)
    ensures d == e
  {
  }

  /** Body cells in the grid, no cell twice, apple in the grid: what holds
      in every state the screen can reach. */
  predicate Sound(s: State) {
    && |s.snake| >= 1
    && (forall i :: 0 <= i < |s.snake| ==> InGrid(s.snake[i]))
    && Distinct(s.snake)
    && InGrid(s.apple)
  }

  /** The state the screen starts in and that Restart restores. */
  function Initial(): (s: State)
    ensures Sound(s) && !s.gameOver && |s.snake| == 1
  {
    State([Pos(5, 5)], Pos(10, 10), Right, false)
  }

  /** The candidate head of the next tick. */
  function NextHead(s: State): Pos
    requires |s.snake| >= 1
  {
    Shifted(s.snake[0], s.direction)
  }

  /** The next tick ends the game: the candidate head leaves the board or
      lies on the body, tail included. */
  predicate Crashes(s: State)
    requires |s.snake| >= 1
  {
    !InGrid(NextHead(s)) || NextHead(s) in s.snake
  }

  /** One tick of `moveSnake`, where `spawn` is the cell the random apple
      placement picks. */
  function Moved(s: State, spawn: Pos): (r: State)
    requires |s.snake| >= 1
    ensures |r.snake| >= 1 && r.direction == s.direction
    ensures s.gameOver ==> r == s
    ensures r.gameOver <==> s.gameOver || Crashes(s)
    ensures r.gameOver ==> r.snake == s.snake && r.apple == s.apple
    ensures !r.gameOver ==>
      && r.snake[0] == NextHead(s)
      && r.snake[1..] <= s.snake
      && (NextHead(s) == s.apple ==> |r.snake| == |s.snake| + 1 && r.apple == spawn)
      && (NextHead(s) != s.apple ==> |r.snake| == |s.snake| && r.apple == s.apple)
  {
    if s.gameOver then s
    else
      var head := NextHead(s);
      if !InGrid(head) || head in s.snake then s.(gameOver := true)
      else if head == s.apple then s.(snake := [head] + s.snake, apple := spawn)
      else s.(snake := [head] + s.snake[..|s.snake| - 1])
  }

  /** A tick that does not end the game keeps the state sound, provided the
      random apple cell lies in the grid. */
  lemma MovedKeepsSound(s: State, spawn: Pos)
    requires Sound(s) && InGrid(spawn)
    ensures Sound(Moved(s, spawn))
  {
  }

  /** `changeDirection`: the requested direction replaces the current one
      unless it is the exact reverse of it. */
  function Turned(current: Direction, requested: Direction): (r: Direction)
    ensures r == if requested == Reverse(current) then current else requested
  {
    if || (current == Up && requested == Down)
       || (current == Down && requested == Up)
       || (current == Left && requested == Right)
       || (current == Right && requested == Left)
    then current
    else requested
  }

  /** One accepted turn between two ticks never steers the head onto the
      segment right behind it. */
  lemma TurnSparesNeck(s: State, spawn: Pos, requested: Direction)
    requires |s.snake| >= 1
    requires !Moved(s, spawn).gameOver && |Moved(s, spawn).snake| >= 2
    ensures
      var t := Moved(s, spawn);
      var u := t.(direction := Turned(t.direction, requested));
      NextHead(u) != u.snake[1]
  {
    var t := Moved(s, spawn);
    var u := t.(direction := Turned(t.direction, requested));
    assert u.snake[1] == s.snake[0];
    ShiftedReverse(s.snake[0], s.direction);
    if NextHead(u) == u.snake[1] {
      ShiftedInjective(t.snake[0], u.direction, Reverse(s.direction));
    }
  }

  /** What one event does to the state. */
  function Apply(s: State, e: Event): (r: State)
    requires |s.snake| >= 1
    ensures |r.snake| >= 1
  {
    match e
    case Tick(spawn) => Moved(s, spawn)
    case Press(requested) => s.(direction := Turned(s.direction, requested))
    case Restart => Initial()
  }

  /** The state after a whole run of events. */
  function Run(s: State, events: seq<Event>): (r: State)
    requires |s.snake| >= 1
    ensures |r.snake| >= 1
    decreases |events|
  {
    if events == [] then s else Run(Apply(s, events[0]), events[1..])
  }

  /** Every tick of the run places the apple, if at all, inside the grid. */
  predicate SpawnsInGrid(events: seq<Event>) {
    forall i :: 0 <= i < |events| && events[i].Tick? ==> InGrid(events[i].spawn)
  }

  lemma {:induction false} RunKeepsSound(s: State, events: seq<Event>)
    requires Sound(s) && SpawnsInGrid(events)
    ensures Sound(Run(s, events))
    decreases |events|
  {
    if events != [] {
      if events[0].Tick? {
        MovedKeepsSound(s, events[0].spawn);
      }
      assert SpawnsInGrid(events[1..]) by {
        forall i | 0 <= i < |events[1..]| && events[1..][i].Tick?
          ensures InGrid(events[1..][i].spawn)
        {
          assert events[1..][i] == events[i + 1];
        }
      }
      RunKeepsSound(Apply(s, events[0]), events[1..]);
    }
  }

  /** Every state reachable from the start is sound: the body stays on the
      board and never covers a cell twice. */
  lemma ReachableSound(events: seq<Event>)
    requires SpawnsInGrid(events)
    ensures Sound(Run(Initial(), events))
  {
    RunKeepsSound(Initial(), events);
  }

  /** Once the game is over, ticks and presses leave the snake, the apple and
      the game-over flag alone until Restart. */
  lemma {:induction false} GameOverFreezes(s: State, events: seq<Event>)
    requires |s.snake| >= 1 && s.gameOver
    requires forall i :: 0 <= i < |events| ==> !events[i].Restart?
    ensures
      var r := Run(s, events);
      r.gameOver && r.snake == s.snake && r.apple == s.apple
    decreases |events|
  {
    if events != [] {
      assert !events[0].Restart?;
      assert forall i :: 0 <= i < |events[1..]| ==> events[1..][i] == events[i + 1];
      GameOverFreezes(Apply(s, events[0]), events[1..]);
    }
  }

  /** The guard looks only at the current direction, so two presses between
      ticks (UP, then LEFT, while moving RIGHT) turn the snake back onto its
      own neck and the next tick ends the game. */
  lemma TwoTurnsReachNeck()
    ensures
      var s := State([Pos(5, 5), Pos(4, 5)], Pos(10, 10), Right, false);
      var r := Run(s, [Press(Up), Press(Left), Tick(Pos(0, 0))]);
      Sound(s) && r.direction == Reverse(s.direction) && r.gameOver
  {
    var s := State([Pos(5, 5), Pos(4, 5)], Pos(10, 10), Right, false);
    var s1 := Apply(s, Press(Up));
    var s2 := Apply(s1, Press(Left));
    assert s2.direction == Left;
    assert NextHead(s2) == Pos(4, 5) == s2.snake[1];
    assert Run(s, [Press(Up), Press(Left), Tick(Pos(0, 0))]) == Run(s1, [Press(Left), Tick(Pos(0, 0))]);
    assert Run(s1, [Press(Left), Tick(Pos(0, 0))]) == Run(s2, [Tick(Pos(0, 0))]);
  }

  /** The screen's component state, updated in place by its setters. */
  class Game {
    var snake: seq<Pos>
    var apple: Pos
    var direction: Direction
    var gameOver: bool

    /** The snapshot the fields hold. */
    function Current(): State
      reads this
    {
      State(snake, apple, direction, gameOver)
    }

    /** The body always has a head. */
    predicate Valid()
      reads this
    {
      |snake| >= 1
    }

    /** The `useState` initial values. */
    constructor ()
      ensures Valid() && Current() == Initial()
    {
      snake := [Pos(5, 5)];
      apple := Pos(10, 10);
      direction := Right;
      gameOver := false;
    }

    /** `moveSnake`: one timer tick. */
    method Step(spawn: Pos)
      requires Valid() && InGrid(spawn)
      modifies this
      ensures Valid() && Current() == Moved(old(Current()), spawn)
      ensures old(Sound(Current())) ==> Sound(Current())
    {
      ghost var before := Current();
      if Sound(before) {
        MovedKeepsSound(before, spawn);
      }
      if gameOver {
        return;
      }
      var newSnake := snake;
      var head := newSnake[0];
      match direction {
        case Up => head := head.(y := head.y - 1);
        case Down => head := head.(y := head.y + 1);
        case Left => head := head.(x := head.x - 1);
        case Right => head := head.(x := head.x + 1);
      }
      assert head == NextHead(before);
      if head.x < 0 || head.x >= GRID_SIZE || head.y < 0 || head.y >= GRID_SIZE || head in newSnake {
        gameOver := true;
        return;
      }
      newSnake := [head] + newSnake;
      if head == apple {
        assert Moved(before, spawn) == before.(snake := newSnake, apple := spawn);
        apple := spawn;
      } else {
        assert newSnake[..|newSnake| - 1] == [head] + before.snake[..|before.snake| - 1];
        assert Moved(before, spawn) == before.(snake := newSnake[..|newSnake| - 1]);
        newSnake := newSnake[..|newSnake| - 1];
      }
      snake := newSnake;
    }

    /** `changeDirection`: a button press. */
    method ChangeDirection(newDir: Direction)
      modifies this
      ensures Current() == old(Current()).(direction := Turned(old(direction), newDir))
    {
      if || (direction == Up && newDir == Down)
         || (direction == Down && newDir == Up)
         || (direction == Left && newDir == Right)
         || (direction == Right && newDir == Left)
      {
        return;
      }
      direction := newDir;
    }

    /** `resetGame`: the Restart button. */
    method Reset()
      modifies this
      ensures Valid() && Current() == Initial()
    {
      snake := [Pos(5, 5)];
      apple := Pos(10, 10);
      direction := Right;
      gameOver := false;
    }
  }
}
