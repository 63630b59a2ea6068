/** The snake game of `main/ui/screens/ui_Screen7.c`: a 40 x 24 grid, a snake
    kept head-first in a fixed array, steering from the phone controller, wall
    and self collisions, and growth on eating. Drawing is not modelled; the
    random source of `spawn_food` is a parameter. */
module Snake {
  import opened Bytes

  const GridW: int := 40
  const GridH: int := 24
  /** Cells of the grid. */
  const GridCells: int := 960
  /** Size of `Point snake[100]` as declared. */
  const SourceCapacity: int := 100
  /** Size of the segment array in this model: one slot per grid cell. */
  const Capacity: int := GridCells

  datatype Point = Point(x: int, y: int)

  /** The controller state read once per tick: stick position and START. */
  datatype Input = Input(x: int, y: int, start: bool)

  /** Two values of `esp_random()`, for one `spawn_food`. */
  datatype Draw = Draw(rx: U32, ry: U32)

  /** The game state; `body` is `snake[0..snake_len)`, head first. */
  datatype Game = Game(body: seq<Point>, food: Point, dirX: int, dirY: int, gameOver: bool, score: int)

  predicate InGrid(p: Point)
  {
    0 <= p.x < GridW && 0 <= p.y < GridH
  }

  predicate AllInGrid(s: seq<Point>)
  {
    forall i :: 0 <= i < |s| ==> InGrid(s[i])
  }

  predicate Distinct(s: seq<Point>)
  {
    forall i, j :: 0 <= i < j < |s| ==> s[i] != s[j]
  }

  /** Exactly one of the two direction components is +-1, the other 0. */
  predicate UnitDir(dx: int, dy: int)
  {
    (dx == 0 && (dy == 1 || dy == -1)) || (dy == 0 && (dx == 1 || dx == -1))
  }

  /** What holds of every state the game reaches from a reset. */
  predicate Inv(g: Game)
  {
    && |g.body| >= 3
    && AllInGrid(g.body)
    && Distinct(g.body)
    && UnitDir(g.dirX, g.dirY)
    && g.score == 10 * (|g.body| - 3)
    && InGrid(g.food)
  }

  /** `spawn_food`: both coordinates reduced into the grid. */
  function SpawnFood(d: Draw): (p: Point)
    ensures InGrid(p)
    ensures d.rx < GridW && d.ry < GridH ==> p == Point(d.rx, d.ry)
  {
    Point(d.rx % GridW, d.ry % GridH)
  }

  /** `reset_game`. */
  function Reset(d: Draw): Game
  {
    Game([Point(10, 10), Point(9, 10), Point(8, 10)], SpawnFood(d), 1, 0, false, 0)
  }

  /** The input handling of `game_loop`: a stick deflection beyond 50 turns
      onto the other axis only; horizontal before vertical, positive before
      negative. */
  function Steer(dx: int, dy: int, inp: Input): (int, int)
  {
    if inp.x > 50 && dx == 0 then (1, 0)
    else if inp.x < -50 && dx == 0 then (-1, 0)
    else if inp.y > 50 && dy == 0 then (0, 1)
    else if inp.y < -50 && dy == 0 then (0, -1)
    else (dx, dy)
  }

  function NextHead(g: Game): Point
    requires g.body != []
  {
    Point(g.body[0].x + g.dirX, g.body[0].y + g.dirY)
  }

  /** The movement part of `game_loop`, after the START check. */
  function Move(g: Game, eatDraw: Draw): Game
    requires g.body != []
  {
    if g.gameOver then g
    else
      var h := NextHead(g);
      if !InGrid(h) || h in g.body then g.(gameOver := true)
      else if h == g.food then g.(body := [h] + g.body, score := g.score + 10, food := SpawnFood(eatDraw))
      else g.(body := [h] + g.body[..|g.body| - 1])
  }

  /** The part of `game_loop` before the move: steer, then reset when START
      is pressed after a game over. */
  function Prepare(g: Game, inp: Input, resetDraw: Draw): Game
  {
    var (dx, dy) := Steer(g.dirX, g.dirY, inp);
    var steered := g.(dirX := dx, dirY := dy);
    if inp.start && steered.gameOver then Reset(resetDraw) else steered
  }

  /** One tick of `game_loop`: nothing unless the game screen is active. */
  function Step(g: Game, active: bool, inp: Input, resetDraw: Draw, eatDraw: Draw): Game
    requires g.body != []
  {
    if !active then g else Move(Prepare(g, inp, resetDraw), eatDraw)
  }

  /** A reset leaves a 3-segment snake at (10,10), (9,10), (8,10) heading
      right, score 0, no game over, food inside the grid. */
  lemma ResetEstablishesInv(d: Draw)
    ensures var g := Reset(d);
            && Inv(g) && g.body == [Point(10, 10), Point(9, 10), Point(8, 10)]
            && g.dirX == 1 && g.dirY == 0 && g.score == 0 && !g.gameOver
  {
  }

  /** Steering keeps exactly one unit component and never reverses. */
  lemma SteerNeverReverses(dx: int, dy: int, inp: Input)
    requires UnitDir(dx, dy)
    ensures var (nx, ny) := Steer(dx, dy, inp);
            UnitDir(nx, ny) && (nx, ny) != (-dx, -dy)
            && ((nx, ny) != (dx, dy) ==> (dx == 0 <==> nx != 0))
  {
  }

  /** While the game is over and START is not pressed, a tick changes only
      the direction. */
  lemma GameOverFreezes(g: Game, inp: Input, resetDraw: Draw, eatDraw: Draw)
    requires g.body != [] && g.gameOver && !inp.start
    ensures var r := Step(g, true, inp, resetDraw, eatDraw);
            r.body == g.body && r.score == g.score && r.food == g.food && r.gameOver
  {
  }

  /** START after a game over restarts from the reset state, then moves. */
  lemma StartAfterGameOverResets(g: Game, inp: Input, resetDraw: Draw, eatDraw: Draw)
    requires g.body != [] && g.gameOver && inp.start
    ensures Step(g, true, inp, resetDraw, eatDraw) == Move(Reset(resetDraw), eatDraw)
  {
  }

  /** A head leaving the grid, or landing on any segment (the tail
      included), ends the game and leaves snake and score as they were. */
  lemma CollisionEndsGame(g: Game, eatDraw: Draw)
    requires g.body != [] && !g.gameOver
    requires !InGrid(NextHead(g)) || NextHead(g) in g.body
    ensures var r := Move(g, eatDraw);
            r.gameOver && r.body == g.body && r.score == g.score && r.food == g.food
  {
  }

  /** A move onto a free cell: the snake shifts by one with the new head in
      front; it grows by one and scores 10 exactly when the head meets the
      food. */
  lemma MoveShiftsSnake(g: Game, eatDraw: Draw)
    requires g.body != [] && !g.gameOver && InGrid(NextHead(g)) && NextHead(g) !in g.body
    ensures var r := Move(g, eatDraw);
            var h := NextHead(g);
            && !r.gameOver && r.body[0] == h
            && r.body[1..] == (if h == g.food then g.body else g.body[..|g.body| - 1])
            && (r.score == g.score + 10 <==> h == g.food)
            && (r.score == g.score <==> h != g.food)
  {
  }

  /** Every tick keeps the invariant: segments in the grid and pairwise
      distinct, a unit direction, score = 10 x (length - 3), food in the grid. */
  lemma {:induction false} StepPreservesInv(g: Game, active: bool, inp: Input, resetDraw: Draw, eatDraw: Draw)
    requires Inv(g)
    ensures Inv(Step(g, active, inp, resetDraw, eatDraw))
  {
    if active {
      PreparePreservesInv(g, inp, resetDraw);
      MovePreservesInv(Prepare(g, inp, resetDraw), eatDraw);
    }
  }

  lemma PreparePreservesInv(g: Game, inp: Input, resetDraw: Draw)
    requires Inv(g)
    ensures Inv(Prepare(g, inp, resetDraw))
  {
    SteerNeverReverses(g.dirX, g.dirY, inp);
    ResetEstablishesInv(resetDraw);
  }

  lemma {:induction false} MovePreservesInv(g: Game, eatDraw: Draw)
    requires Inv(g)
    ensures Inv(Move(g, eatDraw))
  {
    if !g.gameOver {
      var h := NextHead(g);
      if InGrid(h) && h !in g.body {
        var rest := if h == g.food then g.body else g.body[..|g.body| - 1];
        var nb := [h] + rest;
        forall i, j | 0 <= i < j < |nb|
          ensures nb[i] != nb[j]
        {
          if i == 0 {
            assert nb[j] == rest[j - 1] == g.body[j - 1];
          } else {
            assert nb[i] == g.body[i - 1] && nb[j] == g.body[j - 1];
          }
        }
        assert Move(g, eatDraw).body == nb;
      }
    }
  }

  /** Index of a grid cell, row by row. */
  function CellIndex(p: Point): int
  {
    p.y * 40 + p.x
  }

  lemma CellIndexInjective(p: Point, q: Point)
    requires InGrid(p) && InGrid(q) && CellIndex(p) == CellIndex(q)
    ensures p == q
  {
  }

  function CellIndices(s: seq<Point>): set<int>
  {
    if s == [] then {} else {CellIndex(s[0])} + CellIndices(s[1..])
  }

  lemma {:induction false} CellIndicesOfDistinct(s: seq<Point>)
    requires AllInGrid(s) && Distinct(s)
    ensures |CellIndices(s)| == |s|
    ensures forall k :: k in CellIndices(s) ==> 0 <= k < GridCells
  {
    if s != [] {
      CellIndicesOfDistinct(s[1..]);
      if CellIndex(s[0]) in CellIndices(s[1..]) {
        var j := CellIndexFrom(s[1..], CellIndex(s[0]));
        CellIndexInjective(s[0], s[1..][j]);
        assert false;
      }
    }
  }

  lemma {:induction false} CellIndexFrom(s: seq<Point>, k: int) returns (j: nat)
    requires k in CellIndices(s)
    ensures j < |s| && CellIndex(s[j]) == k
  {
    if CellIndex(s[0]) == k {
      j := 0;
    } else {
      j := CellIndexFrom(s[1..], k);
      j := j + 1;
    }
  }

  /** A set of naturals below n has at most n elements. */
  lemma {:induction false} BoundedSetSize(s: set<int>, n: nat)
    requires forall k :: k in s ==> 0 <= k < n
    ensures |s| <= n
  {
    if n > 0 {
      var smaller := s - {n - 1};
      BoundedSetSize(smaller, n - 1);
    } else {
      assert forall k :: k !in s;
      assert s == {};
    }
  }

  /** Pigeonhole: distinct segments inside the grid number at most 960. */
  lemma LengthBoundedByGrid(body: seq<Point>)
    requires AllInGrid(body) && Distinct(body)
    ensures |body| <= GridCells
  {
    CellIndicesOfDistinct(body);
    BoundedSetSize(CellIndices(body), GridCells);
  }

  /** A move that goes ahead has room to write slot `snake_len`: with the new
      head the snake still has distinct cells inside the grid. */
  lemma MoveFitsCapacity(g: Game)
    requires Inv(g) && !g.gameOver && InGrid(NextHead(g)) && NextHead(g) !in g.body
    ensures |g.body| < Capacity
  {
    var nb := [NextHead(g)] + g.body;
    assert forall i :: 1 <= i < |nb| ==> nb[i] == g.body[i - 1];
    LengthBoundedByGrid(nb);
  }

  /** The shift of `game_loop` on the source's `Point snake[100]`: slots
      `len` down to 1 take their predecessor, slot 0 the new head. Slot `len`
      must exist. */
  function ShiftAsWritten(cells: seq<Point>, len: nat, head: Point): (r: seq<Point>)
    requires |cells| == SourceCapacity && len < SourceCapacity
    ensures |r| == SourceCapacity && r[..len + 1] == [head] + cells[..len]
  {
    [head] + cells[..len] + cells[len + 1..]
  }

  /** Cell j of a path that fills row 0 left to right, row 1 right to left,
      and so on. */
  function Serpentine(j: nat): Point
  {
    var row := j / 40;
    Point(if row % 2 == 0 then j % 40 else 39 - j % 40, row)
  }

  lemma SerpentineInjective(a: nat, b: nat)
    requires Serpentine(a) == Serpentine(b)
    ensures a == b
  {
    assert a / 40 == b / 40;
    assert a % 40 == b % 40;
  }

  /** A snake of n segments laid along the serpentine path, head last. */
  function Coiled(n: nat): (s: seq<Point>)
    ensures |s| == n
  {
    seq(n, i requires 0 <= i < n => Serpentine(n - 1 - i))
  }

  /** The source's array is too small: a game state of 100 segments that
      satisfies the invariant of every reachable state, where the next tick
      moves on, so the shift writes `snake[100]` of a 100-slot array. */
  lemma SourceArrayOverflows()
    ensures var g := Game(Coiled(SourceCapacity), Point(0, 23), 1, 0, false, 970);
            var r := Step(g, true, Input(0, 0, false), Draw(0, 0), Draw(0, 0));
            && Inv(g) && !r.gameOver && |r.body| == SourceCapacity
            && !(|g.body| < SourceCapacity)
  {
    var g := Game(Coiled(SourceCapacity), Point(0, 23), 1, 0, false, 970);
    forall i, j | 0 <= i < j < |g.body|
      ensures g.body[i] != g.body[j]
    {
      if g.body[i] == g.body[j] {
        SerpentineInjective(SourceCapacity - 1 - i, SourceCapacity - 1 - j);
      }
    }
    assert g.body[0] == Serpentine(99) == Point(19, 2);
    var h := NextHead(g);
    assert h == Point(20, 2);
  }

  /** The state of `ui_Screen7.c`: `snake`, `snake_len`, `food`, `dir_x`,
      `dir_y`, `game_over` and `score`. */
  class SnakeGame {
    const snake: array<Point>
    var snakeLen: int
    var food: Point
    var dirX: int
    var dirY: int
    var gameOver: bool
    var score: int

    predicate Valid()
      reads this
    {
      snake.Length == Capacity && 1 <= snakeLen <= Capacity
    }

    function State(): Game
      reads this, snake
      requires Valid()
    {
      Game(snake[..snakeLen], food, dirX, dirY, gameOver, score)
    }

    /** The screen's initialisation, which calls `reset_game` before the
        first tick. */
    constructor (d: Draw)
      ensures Valid() && State() == Reset(d)
    {
      snake := new Point[Capacity];
      snakeLen, dirX, dirY, gameOver, score := 3, 1, 0, false, 0;
      new;
      snake[0], snake[1], snake[2] := Point(10, 10), Point(9, 10), Point(8, 10);
      food := SpawnFood(d);
    }

    /** `reset_game`. */
    method ResetGame(d: Draw)
      requires snake.Length == Capacity
      modifies this, snake
      ensures Valid() && State() == Reset(d)
    {
      snakeLen := 3;
      snake[0], snake[1], snake[2] := Point(10, 10), Point(9, 10), Point(8, 10);
      dirX, dirY := 1, 0;
      score := 0;
      gameOver := false;
      food := SpawnFood(d);
      assert snake[..snakeLen] == [Point(10, 10), Point(9, 10), Point(8, 10)];
    }

    /** The self-collision scan of `game_loop`: whether `p` is one of the
        `snake_len` segments, the tail included. */
    method Occupied(p: Point) returns (hit: bool)
      requires Valid()
      ensures hit <==> p in State().body
    {
      var i := 0;
      while i < snakeLen
        invariant 0 <= i <= snakeLen
        invariant forall k :: 0 <= k < i ==> snake[k] != p
      {
        if p.x == snake[i].x && p.y == snake[i].y {
          assert State().body[i] == p;
          return true;
        }
        i := i + 1;
      }
      return false;
    }

    /** The shift loop of `game_loop`: slots `snake_len` down to 1 take their
        predecessor, then slot 0 takes the new head. */
    method ShiftIn(head: Point)
      requires Valid() && snakeLen < snake.Length
      modifies snake
      ensures snake[..snakeLen + 1] == [head] + old(snake[..snakeLen])
    {
      ghost var body := snake[..snakeLen];
      var i := snakeLen;
      while i > 0
        invariant 0 <= i <= snakeLen
        invariant forall k :: 0 <= k < i ==> snake[k] == body[k]
        invariant forall k :: i < k <= snakeLen ==> snake[k] == body[k - 1]
      {
        snake[i] := snake[i - 1];
        i := i - 1;
      }
      snake[0] := head;
    }

    /** The movement part of `game_loop`: stop on a game over, end the game
        on a wall or the snake, otherwise shift the snake and eat. */
    method Advance(eatDraw: Draw)
      requires Valid() && Inv(State())
      modifies this, snake
      ensures Valid() && State() == Move(old(State()), eatDraw)
    {
      ghost var ready := State();
      if gameOver {
        return;
      }
      var head := Point(snake[0].x + dirX, snake[0].y + dirY);
      if head.x < 0 || head.x >= GridW || head.y < 0 || head.y >= GridH {
        gameOver := true;
        return;
      }
      var hit := Occupied(head);
      if hit {
        gameOver := true;
        return;
      }
      MoveFitsCapacity(ready);
      ShiftIn(head);
      assert snake[..snakeLen + 1] == [head] + ready.body;
      if head.x == food.x && head.y == food.y {
        snakeLen := snakeLen + 1;
        score := score + 10;
        food := SpawnFood(eatDraw);
      } else {
        assert snake[..snakeLen] == [head] + ready.body[..snakeLen - 1];
      }
    }

    /** `game_loop`: one tick with the screen activity, the controller state
        and the random draws of the two possible `spawn_food` calls. */
    method GameLoop(active: bool, inp: Input, resetDraw: Draw, eatDraw: Draw)
      requires Valid() && Inv(State())
      modifies this, snake
      ensures Valid() && State() == Step(old(State()), active, inp, resetDraw, eatDraw)
      ensures Inv(State())
    {
      ghost var g0 := State();
      StepPreservesInv(g0, active, inp, resetDraw, eatDraw);
      if !active {
        return;
      }
      if inp.x > 50 && dirX == 0 {
        dirX, dirY := 1, 0;
      } else if inp.x < -50 && dirX == 0 {
        dirX, dirY := -1, 0;
      } else if inp.y > 50 && dirY == 0 {
        dirX, dirY := 0, 1;
      } else if inp.y < -50 && dirY == 0 {
        dirX, dirY := 0, -1;
      }
      if inp.start && gameOver {
        ResetGame(resetDraw);
      }
      assert State() == Prepare(g0, inp, resetDraw);
      PreparePreservesInv(g0, inp, resetDraw);
      Advance(eatDraw);
    }
  }
}
