/** The Snake mini-game (client/src/components/SnakeGame.tsx) on a 20 by 20
    grid. The game's state is the body (head first), the food cell, the
    heading, the game-over flag and the score; the timer's tick and the key
    handler are the two methods that change it. The random food cell that
    `generateFood` draws is a parameter of the tick. */
module Snake {
  import opened Wrappers

  const GridSize: int := 20
  const FoodPoints: int := 10

  datatype Pos = Pos(x: int, y: int)

  datatype Heading = Up | Down | Left | Right

  predicate InGrid(p: Pos) {
    0 <= p.x < GridSize && 0 <= p.y < GridSize
  }

  function Abs(n: int): nat {
    if n < 0 then -n else n
  }

  /** The two cells share a side. */
  predicate Adjacent(a: Pos, b: Pos) {
    Abs(a.x - b.x) + Abs(a.y - b.y) == 1
  }

  function Opposite(h: Heading): Heading {
    match h
    case Up => Down
    case Down => Up
    case Left => Right
    case Right => Left
  }

  /** The cell one step from `p` along `h`; y grows downwards, so Up is y - 1. */
  function Step(p: Pos, h: Heading): (r: Pos)
    ensures Adjacent(p, r)
    ensures (h == Up || h == Down) ==> r.x == p.x
    ensures (h == Left || h == Right) ==> r.y == p.y
    ensures h == Up ==> r.y < p.y
    ensures h == Down ==> r.y > p.y
    ensures h == Left ==> r.x < p.x
    ensures h == Right ==> r.x > p.x
  {
    match h
    case Up => Pos(p.x, p.y - 1)
    case Down => Pos(p.x, p.y + 1)
    case Left => Pos(p.x - 1, p.y)
    case Right => Pos(p.x + 1, p.y)
  }

  /** Stepping back along the opposite heading undoes a step. */
  lemma StepBack(p: Pos, h: Heading)
    ensures Step(Step(p, h), Opposite(h)) == p
  {
  }

  /** `segments.some(s => s.x === p.x && s.y === p.y)`. */
  function Occurs(p: Pos, segments: seq<Pos>): (r: bool)
    ensures r <==> p in segments
  {
    if segments == [] then false
    else segments[0] == p || Occurs(p, segments[1..])
  }

  /** `checkCollision(head, body)`: the head is off the grid, or it lands on
      one of the body's segments other than the first. */
  function Collides(head: Pos, body: seq<Pos>): (r: bool)
    ensures r <==> !InGrid(head) || exists i :: 1 <= i < |body| && body[i] == head
  {
    if head.x < 0 || head.x >= GridSize || head.y < 0 || head.y >= GridSize then true
    else
      var rest := if |body| >= 1 then body[1..] else [];
      assert forall i :: 1 <= i < |body| ==> body[i] == rest[i - 1];
      Occurs(head, rest)
  }

  predicate Distinct(s: seq<Pos>) {
    forall i, j :: 0 <= i < j < |s| ==> s[i] != s[j]
  }

  predicate Connected(s: seq<Pos>) {
    forall i :: 0 <= i < |s| - 1 ==> Adjacent(s[i], s[i + 1])
  }

  /** A body the game can be in: at least one segment, all on the grid, no
      two on the same cell, each next to the one before it. */
  predicate WellFormed(body: seq<Pos>) {
    && |body| >= 1
    && (forall i :: 0 <= i < |body| ==> InGrid(body[i]))
    && Distinct(body)
    && Connected(body)
  }

  /** Prepending an on-grid cell that is next to the old head and on none
      of the body's cells keeps the body well formed. */
  lemma {:induction false} PrependFresh(body: seq<Pos>, head: Pos)
    requires WellFormed(body) && InGrid(head) && Adjacent(head, body[0])
    requires head !in body
    ensures WellFormed([head] + body)
  {
    var grown := [head] + body;
    assert forall i :: 1 <= i < |grown| ==> grown[i] == body[i - 1];
    assert Distinct(grown) by {
      forall i, j | 0 <= i < j < |grown| ensures grown[i] != grown[j] {
        if i > 0 {
          assert body[i - 1] != body[j - 1];
        } else {
          assert body[j - 1] in body;
        }
      }
    }
    assert Connected(grown) by {
      forall i | 0 <= i < |grown| - 1 ensures Adjacent(grown[i], grown[i + 1]) {
        if i > 0 { assert Adjacent(body[i - 1], body[i]); }
      }
    }
  }

  /** Prepending a head that is next to the old head and does not collide
      keeps the body well formed, with or without dropping the tail. */
  lemma {:induction false} GrowWellFormed(body: seq<Pos>, head: Pos)
    requires WellFormed(body)
    requires Adjacent(head, body[0]) && !Collides(head, body)
    ensures WellFormed([head] + body)
  {
    assert head != body[0];
    assert head !in body by {
      forall i | 0 <= i < |body| ensures body[i] != head {
        if i > 0 { assert !(1 <= i < |body| && body[i] == head); }
      }
    }
    PrependFresh(body, head);
  }

  lemma {:induction false} SlideWellFormed(body: seq<Pos>, head: Pos)
    requires WellFormed(body)
    requires Adjacent(head, body[0]) && !Collides(head, body)
    ensures WellFormed([head] + body[..|body| - 1])
  {
    GrowWellFormed(body, head);
    var grown := [head] + body;
    assert [head] + body[..|body| - 1] == grown[..|grown| - 1];
  }

  /** The heading a key asks for: arrows and WASD in either case. */
  function KeyHeading(key: string): (r: Option<Heading>)
    ensures r == Some(Up) <==> key in {"ArrowUp", "w", "W"}
    ensures r == Some(Down) <==> key in {"ArrowDown", "s", "S"}
    ensures r == Some(Left) <==> key in {"ArrowLeft", "a", "A"}
    ensures r == Some(Right) <==> key in {"ArrowRight", "d", "D"}
  {
    if key == "ArrowUp" || key == "w" || key == "W" then Some(Up)
    else if key == "ArrowDown" || key == "s" || key == "S" then Some(Down)
    else if key == "ArrowLeft" || key == "a" || key == "A" then Some(Left)
    else if key == "ArrowRight" || key == "d" || key == "D" then Some(Right)
    else None
  }

  /** The heading after a request: a reversal is refused, anything else is
      taken; the result is never the reverse of the current heading. */
  function Turn(current: Heading, requested: Heading): (r: Heading)
    ensures requested != Opposite(current) ==> r == requested
    ensures requested == Opposite(current) ==> r == current
    ensures r != Opposite(current)
  {
    if requested == Opposite(current) then current else requested
  }

  class Game {
    var body: seq<Pos>
    var food: Pos
    var heading: Heading
    var gameOver: bool
    var score: int

    /** The body is well formed, the food is on the grid, and the score is
        ten points for every segment grown beyond the first. */
    ghost predicate Valid()
      reads this
    {
      && WellFormed(body)
      && InGrid(food)
      && score == FoodPoints * (|body| - 1)
    }

    /** The state the component mounts with. */
    constructor ()
      ensures Valid()
      ensures body == [Pos(10, 10)] && food == Pos(15, 15) && heading == Right
      ensures !gameOver && score == 0
    {
      body := [Pos(10, 10)];
      food := Pos(15, 15);
      heading := Right;
      gameOver := false;
      score := 0;
    }

    /** `moveSnake`, one timer tick. `newFood` is the cell `generateFood`
        draws; `scored` is the score handed to `onScore`, if any. */
    method Tick(newFood: Pos) returns (scored: Option<int>)
      requires Valid() && InGrid(newFood)
      modifies this
      ensures Valid()
      ensures heading == old(heading)
      // A tick after the game is over changes nothing.
      ensures old(gameOver) ==>
        && gameOver && body == old(body) && food == old(food) && score == old(score) && scored == None
      // A collision ends the game and leaves the body, food and score as they were.
      ensures !old(gameOver) && Collides(Step(old(body)[0], old(heading)), old(body)) ==>
        && gameOver && body == old(body) && food == old(food) && score == old(score) && scored == None
      // Eating: the body grows by the new head, ten points, new food.
      ensures !old(gameOver) && !Collides(Step(old(body)[0], old(heading)), old(body))
              && Step(old(body)[0], old(heading)) == old(food) ==>
        && !gameOver && body == [old(food)] + old(body)
        && score == old(score) + FoodPoints && food == newFood && scored == Some(score)
      // Any other move: the new head, then the old body without its tail.
      ensures !old(gameOver) && !Collides(Step(old(body)[0], old(heading)), old(body))
              && Step(old(body)[0], old(heading)) != old(food) ==>
        && !gameOver && body == [Step(old(body)[0], old(heading))] + old(body)[..|old(body)| - 1]
        && |body| == |old(body)| && score == old(score) && food == old(food) && scored == None
    {
      scored := None;
      if gameOver {
        return;
      }
      var head := body[0];
      match heading {
        case Up => head := head.(y := head.y - 1);
        case Down => head := head.(y := head.y + 1);
        case Left => head := head.(x := head.x - 1);
        case Right => head := head.(x := head.x + 1);
      }
      assert head == Step(body[0], heading);
      if Collides(head, body) {
        gameOver := true;
        return;
      }
      var newBody := [head] + body;
      if head == food {
        GrowWellFormed(body, head);
        food := newFood;
        score := score + FoodPoints;
        scored := Some(score);
      } else {
        SlideWellFormed(body, head);
        newBody := newBody[..|newBody| - 1];
        assert newBody == [head] + body[..|body| - 1];
      }
      body := newBody;
    }

    /** The key handler. Escape exits whatever the state; a direction key
        changes the heading unless it asks for the reverse; any other key
        does nothing. */
    method KeyPress(key: string) returns (exit: bool)
      modifies this
      ensures exit <==> key == "Escape"
      ensures exit || KeyHeading(key).None? ==> heading == old(heading)
      ensures !exit && KeyHeading(key).Some? ==> heading == Turn(old(heading), KeyHeading(key).value)
      ensures body == old(body) && food == old(food) && gameOver == old(gameOver) && score == old(score)
    {
      if key == "Escape" {
        return true;
      }
      exit := false;
      if key == "ArrowUp" || key == "w" || key == "W" {
        if heading != Down { heading := Up; }
      } else if key == "ArrowDown" || key == "s" || key == "S" {
        if heading != Up { heading := Down; }
      } else if key == "ArrowLeft" || key == "a" || key == "A" {
        if heading != Right { heading := Left; }
      } else if key == "ArrowRight" || key == "d" || key == "D" {
        if heading != Left { heading := Right; }
      }
    }
  }
}
