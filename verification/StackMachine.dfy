/** The operand stack and the arithmetic requests (value_stack.cpp and the
    arithmetic handlers of client_connection.cpp). */
module StackMachine {
  import opened Digits
  import opened Messages
  import opened Wrappers

  datatype ArithOp = Add | Sub | Mul | Div

  /** Why a request on the stack is refused; each stands for one exception text. */
  datatype Refusal = NothingToPop | NothingOnTop | TooFewOperands(op: ArithOp) | NotAnInteger

  /** `Crash` covers what the handlers do not survive: an operand out of the
      range of int, signed overflow, and division by zero. */
  datatype Result = Next(stack: seq<string>) | Refuse(why: Refusal, stack: seq<string>) | Crash

  /** C++ division, which truncates toward zero. */
  function TruncatedQuotient(a: int, b: int): int
    requires b != 0
  {
    if (a < 0) == (b < 0) then Magnitude(a) / Magnitude(b) else 0 - Magnitude(a) / Magnitude(b)
  }

  function Magnitude(a: int): nat {
    if a < 0 then 0 - a else a
  }

  /** The exact result, if the machine has one. */
  function Compute(op: ArithOp, l: int, r: int): (x: Option<int>)
    ensures x.Some? ==> IsInt(x.value)
  {
    if op == Div && r == 0 then None else
      var x :=
        match op
        case Add => l + r
        case Sub => l - r
        case Mul => l * r
        case Div => TruncatedQuotient(l, r);
      if IsInt(x) then Some(x) else None
  }

  /** Truncation characterises C++ division: quotient times divisor misses the
      dividend by less than the divisor, and never overshoots it. */
  lemma TruncatedQuotientIsQuotient(a: int, b: int)
    requires b != 0
    ensures var q := TruncatedQuotient(a, b);
            && Magnitude(a - q * b) < Magnitude(b)
            && (a - q * b == 0 || (a - q * b < 0 <==> a < 0))
  {
    var m, n := Magnitude(a), Magnitude(b);
    var d, r := m / n, m % n;
    DivisionParts(m, n);
    assert d * n + r == m;
    if (a < 0) == (b < 0) {
      if a < 0 {
        assert d * b == -(d * n);
      }
    } else {
      assert (0 - d) * b == if b < 0 then d * n else -(d * n);
    }
  }

  // ----- what the results are, in integers --------------------------------

  /** `x` is the result of the operation on integers of any size. A quotient times the
      divisor misses the dividend by less than the divisor, on the side of zero. */
  predicate IsResult(op: ArithOp, l: int, r: int, x: int) {
    match op
    case Add => x == l + r
    case Sub => x == l - r
    case Mul => x == l * r
    case Div =>
      var rest := l - x * r;
      && (if r < 0 then r < rest < -r else -r < rest < r)
      && (rest > 0 ==> l > 0)
      && (rest < 0 ==> l < 0)
  }

  lemma MultiplesAreApart(d: int, r: int)
    requires d != 0
    ensures Magnitude(d * r) >= Magnitude(r)
  {
    ProductGrows(1, Magnitude(d), Magnitude(r), Magnitude(r));
    assert d * r == if (d < 0) == (r < 0) then Magnitude(d) * Magnitude(r) else -(Magnitude(d) * Magnitude(r));
  }

  /** There is one result at most. */
  lemma ResultIsUnique(op: ArithOp, l: int, r: int, x: int, y: int)
    requires IsResult(op, l, r, x) && IsResult(op, l, r, y)
    ensures x == y
  {
    if op == Div && x != y {
      assert (l - x * r) - (l - y * r) == (y - x) * r;
      MultiplesAreApart(y - x, r);
      assert false;
    }
  }

  /** The result on integers of any size; division drops the fraction. */
  function Exact(op: ArithOp, l: int, r: int): int
    requires op == Div ==> r != 0
  {
    match op
    case Add => l + r
    case Sub => l - r
    case Mul => l * r
    case Div => if l >= 0 then l / r else -(-l / r)
  }

  lemma RemainderParts(m: nat, r: int)
    requires r != 0
    ensures m == (m / r) * r + m % r && 0 <= m % r < Magnitude(r)
    ensures m == 0 ==> m % r == 0
  {
  }

  lemma ExactIsResult(op: ArithOp, l: int, r: int)
    requires op == Div ==> r != 0
    ensures IsResult(op, l, r, Exact(op, l, r))
  {
    if op == Div {
      RemainderParts(Magnitude(l), r);
      var q := Magnitude(l) / r;
      assert l < 0 ==> -q * r == -(q * r);
    }
  }

  lemma TruncatedIsResult(l: int, r: int)
    requires r != 0
    ensures IsResult(Div, l, r, TruncatedQuotient(l, r))
  {
    TruncatedQuotientIsQuotient(l, r);
    NothingToDivide(r);
    RestIsResult(l, r, TruncatedQuotient(l, r), TruncatedQuotient(l, r) * r);
  }

  lemma NothingToDivide(r: int)
    requires r != 0
    ensures TruncatedQuotient(0, r) == 0
  {
    DivisionParts(0, Magnitude(r));
  }

  lemma RestIsResult(l: int, r: int, x: int, p: int)
    requires p == x * r && Magnitude(l - p) < Magnitude(r)
    requires l - p == 0 || (l - p < 0 <==> l < 0)
    requires l == 0 ==> p == 0
    ensures IsResult(Div, l, r, x)
  {
  }

  /** The machine finds the exact result if it is an int of 32 bits, and none otherwise. */
  lemma {:induction false} ComputeExactly(op: ArithOp, l: int, r: int)
    ensures Compute(op, l, r) ==
              if (op == Div && r == 0) || !(-0x8000_0000 <= Exact(op, l, r) <= 0x7fff_ffff) then None
              else Some(Exact(op, l, r))
  {
    if op == Div && r != 0 {
      ExactIsResult(Div, l, r);
      TruncatedIsResult(l, r);
      ResultIsUnique(Div, l, r, Exact(Div, l, r), TruncatedQuotient(l, r));
    }
  }

  /** In other words: it finds `x` if and only if `x` is the result, and an int. */
  lemma {:induction false} ComputesResult(op: ArithOp, l: int, r: int, x: int)
    ensures Compute(op, l, r) == Some(x) <==> IsResult(op, l, r, x) && -0x8000_0000 <= x <= 0x7fff_ffff
  {
    ComputeExactly(op, l, r);
    if op == Div && r == 0 {
    } else {
      ExactIsResult(op, l, r);
      if IsResult(op, l, r, x) {
        ResultIsUnique(op, l, r, x, Exact(op, l, r));
      }
    }
  }

  /** What converting the two topmost entries yields. */
  datatype Operands = Both(left: int, right: int) | LeftFails(right: int) | RightFails | Fatal

  function Classify(left: Conversion, right: Conversion): (o: Operands) {
    match right
    case OutOfRange => Fatal
    case InvalidArgument => RightFails
    case Value(r) =>
      match left
      case OutOfRange => Fatal
      case InvalidArgument => LeftFails(r)
      case Value(l) => Both(l, r)
  }

  /** The stack after the operands were taken, or put back. */
  function Conclude(op: ArithOp, stack: seq<string>, o: Operands): (r: Result)
    requires |stack| >= 2
  {
    var n := |stack|;
    match o
    case Fatal => Crash
    case RightFails => Refuse(NotAnInteger, stack)
    case LeftFails(right) => Refuse(NotAnInteger, stack[..n - 1] + [ToString(right)])
    case Both(left, right) =>
      match Compute(op, left, right)
      case None => Crash
      case Some(x) => Next(stack[..n - 2] + [ToString(x)])
  }

  /** An arithmetic request, top of the stack last. */
  function Arith(op: ArithOp, stack: seq<string>): (r: Result) {
    if |stack| < 2 then Refuse(TooFewOperands(op), stack)
    else Conclude(op, stack, Classify(Stoi(stack[|stack| - 2]), Stoi(stack[|stack| - 1])))
  }

  class ValueStack {
    var items: seq<string>

    constructor ()
      ensures items == []
    {
      items := [];
    }

    method IsEmpty() returns (b: bool)
      ensures b <==> items == []
    {
      b := |items| == 0;
    }

    method GetSize() returns (n: nat)
      ensures n == |items|
    {
      n := |items|;
    }

    method Push(value: string)
      modifies this
      ensures items == old(items) + [value]
    {
      items := items + [value];
    }

    /** None stands for the exception on an empty stack. */
    method GetTop() returns (r: Option<string>)
      ensures r == if items == [] then None else Some(items[|items| - 1])
    {
      if items == [] {
        return None;
      }
      return Some(items[|items| - 1]);
    }

    method Pop() returns (ok: bool)
      modifies this
      ensures ok <==> old(items) != []
      ensures items == if ok then old(items)[..|old(items)| - 1] else old(items)
    {
      ok := items != [];
      if ok {
        items := items[..|items| - 1];
      }
    }
  }

  /** The try block of the four handlers: pop right, pop left, and put the right
      operand back if the left one does not convert. */
  method TakeOperands(stack: ValueStack) returns (o: Operands)
    requires |stack.items| >= 2
    modifies stack
    ensures var was, n := old(stack.items), |old(stack.items)|;
            && o == Classify(Stoi(was[n - 2]), Stoi(was[n - 1]))
            && (o.Both? ==> stack.items == was[..n - 2])
            && (o.LeftFails? ==> stack.items == was[..n - 1] + [ToString(o.right)])
            && (o.RightFails? ==> stack.items == was)
  {
    var top := stack.GetTop();
    var right := Stoi(top.value);
    if right == InvalidArgument {
      return RightFails;
    } else if right == Conversion.OutOfRange {
      return Fatal;
    }
    var popped := stack.Pop();
    top := stack.GetTop();
    var left := Stoi(top.value);
    if left == InvalidArgument {
      stack.Push(ToString(right.n));
      return LeftFails(right.n);
    } else if left == Conversion.OutOfRange {
      return Fatal;
    }
    popped := stack.Pop();
    return Both(left.n, right.n);
  }

  /** `handle_add`, `handle_sub`, `handle_mul`, `handle_div`. A crash leaves no
      stack to speak of. */
  method HandleArith(stack: ValueStack, op: ArithOp) returns (r: Result)
    modifies stack
    ensures r == Arith(op, old(stack.items))
    ensures !r.Crash? ==> stack.items == r.stack
    ensures r.Next? ==>
              var was, n := old(stack.items), |old(stack.items)|;
              && n >= 2 && Stoi(was[n - 2]).Value? && Stoi(was[n - 1]).Value? && (op == Div ==> Stoi(was[n - 1]).n != 0)
              && stack.items == was[..n - 2] + [ToString(Exact(op, Stoi(was[n - 2]).n, Stoi(was[n - 1]).n))]
  {
    if |stack.items| < 2 {
      return Refuse(TooFewOperands(op), stack.items);
    }
    var o := TakeOperands(stack);
    match o
    case Fatal =>
      return Crash;
    case RightFails =>
      return Refuse(NotAnInteger, stack.items);
    case LeftFails(_) =>
      return Refuse(NotAnInteger, stack.items);
    case Both(left, right) =>
      var x := Compute(op, left, right);
      ComputeExactly(op, left, right);
      if x == None {
        return Crash;
      }
      stack.Push(ToString(x.value));
      return Next(stack.items);
  }

  // ----- what a refused request leaves behind -----------------------------

  predicate IsCanonical(w: string) {
    Stoi(w).Value? && w == ToString(Stoi(w).n)
  }

  lemma RefusedStack(op: ArithOp, stack: seq<string>, left: Conversion, right: Conversion)
    requires |stack| >= 2 && Conclude(op, stack, Classify(left, right)).Refuse?
    ensures !right.OutOfRange?
    ensures Conclude(op, stack, Classify(left, right)).stack ==
              stack[..|stack| - 1] + [if right.Value? then ToString(right.n) else stack[|stack| - 1]]
  {
    assert stack == stack[..|stack| - 1] + [stack[|stack| - 1]];
  }

  /** The top entry as a refused request leaves it. */
  function Repaired(top: string): string {
    if Stoi(top).Value? then ToString(Stoi(top).n) else top
  }

  lemma RepairedDenotesSame(top: string)
    ensures Stoi(Repaired(top)) == Stoi(top)
    ensures Stoi(top).Value? ==> IsCanonical(Repaired(top))
  {
    if Stoi(top).Value? {
      StoiIsInt(top);
      StoiOfToString(Stoi(top).n);
    }
  }

  /** A refused arithmetic request keeps the depth and everything below the top,
      changes the top at most into the canonical form of the same number, and
      restores the stack exactly if the top was canonical or not a number. */
  lemma RefusalRepairsStack(op: ArithOp, stack: seq<string>)
    requires Arith(op, stack).Refuse? && |stack| >= 2
    ensures var below, top, after := stack[..|stack| - 1], stack[|stack| - 1], Arith(op, stack).stack;
            && after == below + [Repaired(top)]
            && Stoi(Repaired(top)) == Stoi(top)
            && (Stoi(top).Value? ==> IsCanonical(Repaired(top)))
            && (after == stack <==> IsCanonical(top) || Stoi(top) == InvalidArgument)
  {
    var below, top := stack[..|stack| - 1], stack[|stack| - 1];
    assert stack == below + [top];
    RefusedStack(op, stack, Stoi(stack[|stack| - 2]), Stoi(top));
    RepairedDenotesSame(top);
    RepairedTop(below, top, Repaired(top));
  }

  lemma RepairedTop(below: seq<string>, old_: string, new_: string)
    ensures below + [old_] == below + [new_] <==> old_ == new_
  {
    assert (below + [old_])[|below|] == old_;
    assert (below + [new_])[|below|] == new_;
  }

  lemma StoiIsInt(w: string)
    ensures Stoi(w).Value? ==> IsInt(Stoi(w).n)
  {
  }

  // ----- expressions ------------------------------------------------------

  datatype Expr = Literal(text: string) | Operation(op: ArithOp, left: Expr, right: Expr)

  /** The value of an expression, computed on integers; None if some part has none,
      or one that is no int of 32 bits. */
  function Meaning(e: Expr): (x: Option<int>) {
    match e
    case Literal(w) => if Stoi(w).Value? then Some(Stoi(w).n) else None
    case Operation(op, l, r) =>
      if Meaning(l) == None || Meaning(r) == None || (op == Div && Meaning(r).value == 0) then None
      else
        var x := Exact(op, Meaning(l).value, Meaning(r).value);
        if -0x8000_0000 <= x <= 0x7fff_ffff then Some(x) else None
  }

  lemma MeaningComputes(e: Expr)
    requires e.Operation? && Meaning(e).Some?
    ensures Meaning(e.left).Some? && Meaning(e.right).Some?
    ensures Compute(e.op, Meaning(e.left).value, Meaning(e.right).value) == Meaning(e)
    ensures IsInt(Meaning(e).value)
  {
    ComputeExactly(e.op, Meaning(e.left).value, Meaning(e.right).value);
  }

  function RequestFor(op: ArithOp): MessageType {
    match op case Add => ADD case Sub => SUB case Mul => MUL case Div => DIV
  }

  /** The requests that evaluate an expression, in postorder. */
  function Program(e: Expr): seq<Content> {
    match e
    case Literal(w) => [Content(PUSH, [w])]
    case Operation(op, l, r) => Program(l) + Program(r) + [Content(RequestFor(op), [])]
  }
}
