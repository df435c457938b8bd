/** The web page of the Snake game: a 20 x 20 board, cells `[x, y]` with the
    head as the last element, directions as unit vectors `[dx, dy]` set by the
    arrow keys, and a score. */
module WebSnake {
  import opened Sequences

  /** Side of the square board, in cells. */
  const BOARD_SIZE: int := 20

  /** A board cell `[x, y]`; x grows to the right and y grows downwards. */
  datatype Cell = Cell(x: int, y: int)

  /** A direction `[dx, dy]`. */
  datatype Vec = Vec(dx: int, dy: int)

  /** The `key` of a keydown event: the four arrows, or anything else. */
  datatype Key = ArrowUp | ArrowDown | ArrowLeft | ArrowRight | OtherKey

  /** Everything the tick, the key handler and the restart read or write. */
  datatype State = State(snake: seq<Cell>, food: Cell, direction: Vec, score: nat, gameOver: bool)

  /** What drives the page: a timer tick (with the cell the random food
      placement would pick), a keydown, or the Restart button. */
  datatype Event = Tick(spawn: Cell) | KeyDown(key: Key) | Restart

  predicate InBoard(c: Cell) {
    0 <= c.x < BOARD_SIZE && 0 <= c.y < BOARD_SIZE
  }

  /** One of the four directions the arrow keys set. */
  predicate IsUnit(v: Vec) {
    v == Vec(0, -1) || v == Vec(0, 1) || v == Vec(-1, 0) || v == Vec(1, 0)
  }

  function Negated(v: Vec): Vec {
    Vec(-v.dx, -v.dy)
  }

  function Plus(c: Cell, v: Vec): Cell {
    Cell(c.x + v.dx, c.y + v.dy)
  }

  /** The direction an arrow key asks for. */
  function KeyVec(key: Key): Vec
    requires key != OtherKey
  {
    match key
    case ArrowUp => Vec(0, -1)
    case ArrowDown => Vec(0, 1)
    case ArrowLeft => Vec(-1, 0)
    case ArrowRight => Vec(1, 0)
  }

  /** Cells on the board, no cell twice, food on the board, a unit
      direction, and one point for every segment beyond the first: what
      holds in every state the page can reach. */
  predicate Sound(s: State) {
    && |s.snake| >= 1
    && (forall i :: 0 <= i < |s.snake| ==> InBoard(s.snake[i]))
    && Distinct(s.snake)
    && InBoard(s.food)
    && IsUnit(s.direction)
    && s.score == |s.snake| - 1
  }

  /** The state the page starts in and that Restart restores. */
  function Initial(): (s: State)
    ensures Sound(s) && !s.gameOver && |s.snake| == 1
  {
    State([Cell(8, 8)], Cell(10, 10), Vec(1, 0), 0, false)
  }

  /** `a` is what remains of `b` after dropping some of its first elements. */
  predicate IsSuffix(a: seq<Cell>, b: seq<Cell>) {
    |a| <= |b| && a == b[|b| - |a|..]
  }

  /** The last element of the body: the head. */
  function Head(s: State): Cell
    requires |s.snake| >= 1
  {
    s.snake[|s.snake| - 1]
  }

  /** The candidate head of the next move. */
  function NextHead(s: State): Cell
    requires |s.snake| >= 1
  {
    Plus(Head(s), s.direction)
  }

  /** The next move ends the game: the candidate head leaves the board or
      lies on the body, tail included. */
  predicate Crashes(s: State)
    requires |s.snake| >= 1
  {
    !InBoard(NextHead(s)) || NextHead(s) in s.snake
  }

  /** `moveSnake`, which itself does not look at the game-over flag; `spawn`
      is the cell the random food placement picks. */
  function Advanced(s: State, spawn: Cell): (r: State)
    requires |s.snake| >= 1
    ensures |r.snake| >= 1 && r.direction == s.direction
    ensures Crashes(s) ==> r == s.(gameOver := true)
    ensures !Crashes(s) ==>
      && r.gameOver == s.gameOver
      && Head(r) == NextHead(s)
      && IsSuffix(r.snake[..|r.snake| - 1], s.snake)
      && (NextHead(s) == s.food ==>
            |r.snake| == |s.snake| + 1 && r.score == s.score + 1 && r.food == spawn)
      && (NextHead(s) != s.food ==>
            |r.snake| == |s.snake| && r.score == s.score && r.food == s.food)
  {
    var head := NextHead(s);
    if !InBoard(head) || head in s.snake then s.(gameOver := true)
    else if head == s.food then s.(snake := s.snake + [head], food := spawn, score := s.score + 1)
    else s.(snake := s.snake[1..] + [head])
  }

  /** A move that does not end the game keeps the state sound, provided the
      random food cell lies on the board. */
  lemma AdvancedKeepsSound(s: State, spawn: Cell)
    requires Sound(s) && InBoard(spawn)
    ensures Sound(Advanced(s, spawn))
  {
  }

  /** A timer tick: no interval runs while the game is over, so the state
      only moves while it is not. */
  function Ticked(s: State, spawn: Cell): State
    requires |s.snake| >= 1
  {
    if s.gameOver then s else Advanced(s, spawn)
  }

  /** The keydown handler: an arrow key sets its direction unless the current
      direction has the opposite sign on the key's axis. */
  function Steered(current: Vec, key: Key): (r: Vec)
    ensures key == OtherKey ==> r == current
    ensures IsUnit(current) && key != OtherKey ==>
      r == if KeyVec(key) == Negated(current) then current else KeyVec(key)
  {
    match key
    case ArrowUp => if current.dy != 1 then Vec(0, -1) else current
    case ArrowDown => if current.dy != -1 then Vec(0, 1) else current
    case ArrowLeft => if current.dx != 1 then Vec(-1, 0) else current
    case ArrowRight => if current.dx != -1 then Vec(1, 0) else current
    case OtherKey => current
  }

  /** Whatever key comes next, the head one step past `neck` in direction
      `dir` does not step back onto `neck`. */
  lemma SteeredAvoidsNeck(neck: Cell, dir: Vec, key: Key)
    requires IsUnit(dir)
    ensures Plus(Plus(neck, dir), Steered(dir, key)) != neck
  {
  }

  /** After a move that does not end the game, the old head is the segment
      right behind the new one. */
  lemma NeckIsOldHead(s: State, spawn: Cell)
    requires |s.snake| >= 1 && !Crashes(s) && |Advanced(s, spawn).snake| >= 2
    ensures
      var t := Advanced(s, spawn);
      t.snake[|t.snake| - 2] == Head(s) && Head(t) == Plus(Head(s), s.direction)
  {
    var t := Advanced(s, spawn);
    var n := |t.snake|;
    assert t.snake[n - 2] == t.snake[..n - 1][n - 2];
  }

  /** One accepted key between two moves never steers the head onto the
      segment right behind it. */
  lemma KeySparesNeck(s: State, spawn: Cell, key: Key)
    requires |s.snake| >= 1 && IsUnit(s.direction)
    requires !Crashes(s) && |Advanced(s, spawn).snake| >= 2
    ensures
      var t := Advanced(s, spawn);
      var u := t.(direction := Steered(t.direction, key));
      NextHead(u) != u.snake[|u.snake| - 2]
  {
    NeckIsOldHead(s, spawn);
    SteeredAvoidsNeck(Head(s), s.direction, key);
  }

  /** What one event does to the state. */
  function Apply(s: State, e: Event): (r: State)
    requires |s.snake| >= 1
    ensures |r.snake| >= 1
  {
    match e
    case Tick(spawn) => Ticked(s, spawn)
    case KeyDown(key) => s.(direction := Steered(s.direction, key))
    case Restart => Initial()
  }

  /** The state after a whole run of events. */
  function Run(s: State, events: seq<Event>): (r: State)
    requires |s.snake| >= 1
    ensures |r.snake| >= 1
    decreases |events|
  {
    if events == [] then s else Run(Apply(s, events[0]), events[1..])
  }

  /** Every tick of the run places the food, if at all, on the board. */
  predicate SpawnsInBoard(events: seq<Event>) {
    forall i :: 0 <= i < |events| && events[i].Tick? ==> InBoard(events[i].spawn)
  }

  lemma {:induction false} RunKeepsSound(s: State, events: seq<Event>)
    requires Sound(s) && SpawnsInBoard(events)
    ensures Sound(Run(s, events))
    decreases |events|
  {
    if events != [] {
      if events[0].Tick? {
        AdvancedKeepsSound(s, events[0].spawn);
      }
      assert SpawnsInBoard(events[1..]) by {
        forall i | 0 <= i < |events[1..]| && events[1..][i].Tick?
          ensures InBoard(events[1..][i].spawn)
        {
          assert events[1..][i] == events[i + 1];
        }
      }
      RunKeepsSound(Apply(s, events[0]), events[1..]);
    }
  }

  /** Every state reachable from the start is sound: the body stays on the
      board, never covers a cell twice, and the score counts the food eaten. */
  lemma ReachableSound(events: seq<Event>)
    requires SpawnsInBoard(events)
    ensures Sound(Run(Initial(), events))
  {
    RunKeepsSound(Initial(), events);
  }

  /** Once the game is over, ticks and keys leave the snake, the food, the
      score and the game-over flag alone until Restart. */
  lemma {:induction false} GameOverFreezes(s: State, events: seq<Event>)
    requires |s.snake| >= 1 && s.gameOver
    requires forall i :: 0 <= i < |events| ==> !events[i].Restart?
    ensures
      var r := Run(s, events);
      r.gameOver && r.snake == s.snake && r.food == s.food && r.score == s.score
    decreases |events|
  {
    if events != [] {
      assert !events[0].Restart?;
      assert forall i :: 0 <= i < |events[1..]| ==> events[1..][i] == events[i + 1];
      GameOverFreezes(Apply(s, events[0]), events[1..]);
    }
  }

  /** The guard looks only at the current direction, so two keys between
      moves (ArrowUp, then ArrowLeft, while moving right) turn the snake back
      onto its own neck and the next move ends the game. */
  lemma TwoKeysReachNeck()
    ensures
      var s := State([Cell(4, 8), Cell(5, 8)], Cell(10, 10), Vec(1, 0), 1, false);
      var r := Run(s, [KeyDown(ArrowUp), KeyDown(ArrowLeft), Tick(Cell(0, 0))]);
      Sound(s) && r.direction == Negated(s.direction) && r.gameOver
  {
    var s := State([Cell(4, 8), Cell(5, 8)], Cell(10, 10), Vec(1, 0), 1, false);
    var s1 := Apply(s, KeyDown(ArrowUp));
    var s2 := Apply(s1, KeyDown(ArrowLeft));
    assert s2.direction == Vec(-1, 0);
    assert NextHead(s2) == Cell(4, 8) == s2.snake[0];
    assert Run(s, [KeyDown(ArrowUp), KeyDown(ArrowLeft), Tick(Cell(0, 0))])
        == Run(s1, [KeyDown(ArrowLeft), Tick(Cell(0, 0))]);
    assert Run(s1, [KeyDown(ArrowLeft), Tick(Cell(0, 0))]) == Run(s2, [Tick(Cell(0, 0))]);
  }

  /** The self-collision loop of `moveSnake`: walks the whole body, tail
      included, looking for the candidate head. */
  method HitsBody(body: seq<Cell>, head: Cell) returns (hit: bool)
    ensures hit <==> head in body
  {
    var i := 0;
    while i < |body|
      invariant 0 <= i <= |body|
      invariant head !in body[..i]
    {
      if body[i] == head {
        return true;
      }
      i := i + 1;
    }
    return false;
  }

  /** The page's component state, updated in place by its setters. */
  class Game {
    var snake: seq<Cell>
    var food: Cell
    var direction: Vec
    var score: nat
    var gameOver: bool

    /** The snapshot the fields hold. */
    function Current(): State
      reads this
    {
      State(snake, food, direction, score, gameOver)
    }

    /** The body always has a head. */
    predicate Valid()
      reads this
    {
      |snake| >= 1
    }

    /** The `useState` initial values. */
    constructor ()
      ensures Valid() && Current() == Initial()
    {
      snake := [Cell(8, 8)];
      food := Cell(10, 10);
      direction := Vec(1, 0);
      score := 0;
      gameOver := false;
    }

    /** `moveSnake`. */
    method MoveSnake(spawn: Cell)
      requires Valid() && InBoard(spawn)
      modifies this
      ensures Valid() && Current() == Advanced(old(Current()), spawn)
      ensures old(Sound(Current())) ==> Sound(Current())
    {
      ghost var before := Current();
      if Sound(before) {
        AdvancedKeepsSound(before, spawn);
      }
      var newSnake := snake;
      var head := newSnake[|newSnake| - 1];
      var newHead := Cell(head.x + direction.dx, head.y + direction.dy);
      assert newHead == NextHead(before);
      if newHead.x < 0 || newHead.y < 0 || newHead.x >= BOARD_SIZE || newHead.y >= BOARD_SIZE {
        gameOver := true;
        return;
      }
      var hit := HitsBody(newSnake, newHead);
      if hit {
        gameOver := true;
        return;
      }
      assert !Crashes(before);
      newSnake := newSnake + [newHead];
      if newHead == food {
        assert newSnake == before.snake + [NextHead(before)];
        assert Advanced(before, spawn) == before.(snake := newSnake, food := spawn, score := score + 1);
        score := score + 1;
        food := spawn;
      } else {
        assert newSnake[1..] == before.snake[1..] + [newHead];
        assert Advanced(before, spawn) == before.(snake := newSnake[1..]);
        newSnake := newSnake[1..];
      }
      snake := newSnake;
    }

    /** The interval the page runs: a tick moves the snake only while the
        game is not over. */
    method Tick(spawn: Cell)
      requires Valid() && InBoard(spawn)
      modifies this
      ensures Valid() && Current() == Ticked(old(Current()), spawn)
      ensures old(Sound(Current())) ==> Sound(Current())
    {
      if !gameOver {
        MoveSnake(spawn);
      }
    }

    /** `handleKey`: a keydown. */
    method HandleKey(key: Key)
      modifies this
      ensures Current() == old(Current()).(direction := Steered(old(direction), key))
    {
      match key {
        case ArrowUp =>
          if direction.dy != 1 { direction := Vec(0, -1); }
        case ArrowDown =>
          if direction.dy != -1 { direction := Vec(0, 1); }
        case ArrowLeft =>
          if direction.dx != 1 { direction := Vec(-1, 0); }
        case ArrowRight =>
          if direction.dx != -1 { direction := Vec(1, 0); }
        case OtherKey =>
      }
    }

    /** `resetGame`: the Restart button. */
    method Reset()
      modifies this
      ensures Valid() && Current() == Initial()
    {
      snake := [Cell(8, 8)];
      food := Cell(10, 10);
      direction := Vec(1, 0);
      score := 0;
      gameOver := false;
    }
  }
}
