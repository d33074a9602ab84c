/**
 * The pattern-matching snippets of the tutorial that compute something:
 * `transpose`, `Point` addition, the two ordered `match` classifications of
 * `match_expressions`, and the `while let` loop that drains a stack.
 * The printed messages become the values the arms select.
 */
module Patterns {
  import opened Prelude

  /** `transpose`: the pair with its components swapped. */
  function Transpose(p: (I32, I32)): (r: (I32, I32))
    ensures r.0 == p.1 && r.1 == p.0
  {
    (p.1, p.0)
  }

  /** Transposing twice gives the pair back. */
  lemma TransposeTwice(p: (I32, I32))
    ensures Transpose(Transpose(p)) == p
  {
  }

  /** `if_while_let_for` transposes (2, 3). */
  lemma TransposeExample()
    ensures Transpose((2, 3)) == (3, 2)
  {
  }

  datatype Point = Point(x: I32, y: I32)

  /** Both coordinate sums fit in `i32`; `+` on `i32` panics on overflow in a debug build. */
  predicate CanAdd(a: Point, b: Point) {
    IsI32(a.x + b.x) && IsI32(a.y + b.y)
  }

  /** `impl Add for Point`: componentwise addition. */
  function Add(a: Point, b: Point): (r: Point)
    requires CanAdd(a, b)
    ensures r.x == a.x + b.x && r.y == a.y + b.y
  {
    Point(a.x + b.x, a.y + b.y)
  }

  /** Addition does not depend on the order of its operands. */
  lemma AddCommutes(a: Point, b: Point)
    requires CanAdd(a, b)
    ensures CanAdd(b, a) && Add(a, b) == Add(b, a)
  {
  }

  /** `add_points`: (1, 0) + (2, 3) == (3, 3). */
  lemma AddPoints()
    ensures Add(Point(1, 0), Point(2, 3)) == Point(3, 3)
  {
  }

  /** The five arms of the `match num` statement. */
  datatype NumSize = Small | Medium | AlmostTen | TooSmall | TooBig

  /**
   * `match num`: the first arm that matches wins. The arms cover every `i32`,
   * and the last one, `_`, is left with exactly the numbers from 10 on.
   */
  function ClassifyNum(num: I32): (r: NumSize)
    ensures r == Small <==> num == 1 || num == 2
    ensures r == Medium <==> 3 <= num <= 7
    ensures r == AlmostTen <==> 8 <= num <= 9
    ensures r == TooSmall <==> num <= 0
    ensures r == TooBig <==> num >= 10
  {
    match num
    case 1 | 2 => Small
    case _ =>
      if 3 <= num <= 7 then Medium
      else if 8 <= num <= 9 then AlmostTen
      else if num <= 0 then TooSmall
      else TooBig
  }

  /** `match_expressions` matches `num = 3`: a medium number. */
  lemma ClassifyNumExample()
    ensures ClassifyNum(3) == Medium
  {
  }

  /** The three arms of the `match option_int` statement. */
  datatype OptionArm = NothingDone | ZeroIgnored | Reported(n: I32)

  /** `match option_int`: `Some(0)` is caught before the general `Some(n)`. */
  function MatchOptionInt(o: Option<I32>): (r: OptionArm)
    ensures r == NothingDone <==> o.None?
    ensures r == ZeroIgnored <==> o == Some(0)
    ensures r.Reported? <==> o.Some? && o.value != 0
    ensures r.Reported? ==> r.n == o.value
  {
    match o
    case None => NothingDone
    case Some(0) => ZeroIgnored
    case Some(n) => Reported(n)
  }

  /** `match_expressions` matches `Some(42)`: reported as n=42. */
  lemma MatchOptionIntExample()
    ensures MatchOptionInt(Some(42)) == Reported(42)
  {
  }

  /**
   * `while let Some(top) = stack.pop()`: pops until the stack is empty, so
   * the elements come out last first.
   */
  method DrainStack<T>(stack0: seq<T>) returns (popped: seq<T>, remaining: seq<T>)
    ensures remaining == []
    ensures |popped| == |stack0|
    ensures forall k | 0 <= k < |popped| :: popped[k] == stack0[|stack0| - 1 - k]
  {
    var stack := stack0;
    popped := [];
    while |stack| > 0
      invariant stack == stack0[..|stack|]
      invariant |popped| == |stack0| - |stack|
      invariant forall k | 0 <= k < |popped| :: popped[k] == stack0[|stack0| - 1 - k]
    {
      var top := stack[|stack| - 1];
      stack := stack[..|stack| - 1];
      popped := popped + [top];
    }
    remaining := stack;
  }

  /** `if_while_let_for` drains ['a', 'b', 'c'] in the order c, b, a and leaves nothing to enumerate. */
  method WhileLetExample() returns (popped: seq<char>, remaining: seq<char>)
    ensures popped == ['c', 'b', 'a']
    ensures remaining == []
  {
    popped, remaining := DrainStack(['a', 'b', 'c']);
  }
}
