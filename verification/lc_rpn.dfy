/** The Limit Checker's actionpoint equations: the stack evaluator, the table-load
    validator, and what both mean in terms of ordinary boolean expressions. */
module LcRpn {

  const MAX_WATCHPOINTS: nat := 176
  const MAX_EQU_SIZE: nat := 20

  // Operators share the 16-bit item space with watchpoint numbers.
  const AND: nat := 0xFFF1
  const OR: nat := 0xFFF2
  const XOR: nat := 0xFFF3
  const NOT: nat := 0xFFF4
  const EQUAL: nat := 0xFFF5

  datatype Watch = Stale | False | True | Error

  datatype Action = ActionStale | Pass | Fail | ActionError

  /** The watchpoint results table. */
  type Results = w: seq<Watch> | |w| == MAX_WATCHPOINTS witness seq(MAX_WATCHPOINTS, _ => Stale)

  function OfBool(b: bool): Watch { if b then True else False }

  function And(a: Watch, b: Watch): Watch
  {
    if a == False || b == False then False
    else if a == Error || b == Error then Error
    else if a == Stale || b == Stale then Stale
    else True
  }

  function Or(a: Watch, b: Watch): Watch
  {
    if a == True || b == True then True
    else if a == Error || b == Error then Error
    else if a == Stale || b == Stale then Stale
    else False
  }

  function Xor(a: Watch, b: Watch): Watch
  {
    if a == Error || b == Error then Error
    else if a == Stale || b == Stale then Stale
    else OfBool(a != b)
  }

  function Not(a: Watch): Watch
  {
    if a == Error || a == Stale then a else OfBool(a == False)
  }

  predicate IsBinary(item: nat) { item == AND || item == OR || item == XOR }

  function Binary(op: nat, a: Watch, b: Watch): Watch
    requires IsBinary(op)
  {
    if op == AND then And(a, b) else if op == OR then Or(a, b) else Xor(a, b)
  }

  // ---------------------------------------------------------------- evaluation

  /** How an evaluation ends: with an operand on top when EQUAL is met, or illegally. */
  datatype Outcome = Illegal | Value(v: Watch)

  /** The stack machine, from item `i` on with stack `st` (top last). */
  function Run(eq: seq<nat>, i: nat, st: seq<Watch>, w: Results): Outcome
    requires i <= |eq|
    decreases |eq| - i
  {
    if i == |eq| then Illegal
    else if IsBinary(eq[i]) then
      if |st| < 2 then Illegal
      else Run(eq, i + 1, st[..|st| - 2] + [Binary(eq[i], st[|st| - 2], st[|st| - 1])], w)
    else if eq[i] == NOT then
      if |st| < 1 then Illegal
      else Run(eq, i + 1, st[..|st| - 1] + [Not(st[|st| - 1])], w)
    else if eq[i] == EQUAL then
      if |st| < 1 then Illegal
      else if |st| == 1 || st[|st| - 1] == Error || st[|st| - 1] == Stale then Value(st[|st| - 1])
      else Illegal
    else if eq[i] < MAX_WATCHPOINTS then Run(eq, i + 1, st + [w[eq[i]]], w)
    else Illegal
  }

  function ActionOf(o: Outcome): Action
  {
    match o
    case Illegal => ActionError
    case Value(Error) => ActionError
    case Value(Stale) => ActionStale
    case Value(False) => Pass
    case Value(True) => Fail
  }

  function Evaluation(eq: seq<nat>, w: Results): Action { ActionOf(Run(eq, 0, [], w)) }

  /** What each item makes of the operands on top of the stack. */
  lemma RunTakes(eq: seq<nat>, k: nat, st: seq<Watch>, a: Watch, b: Watch, w: Results)
    requires k < |eq|
    ensures eq[k] < MAX_WATCHPOINTS ==> Run(eq, k, st, w) == Run(eq, k + 1, st + [w[eq[k]]], w)
    ensures eq[k] == NOT ==> Run(eq, k, st + [a], w) == Run(eq, k + 1, st + [Not(a)], w)
    ensures IsBinary(eq[k]) ==> Run(eq, k, st + [a] + [b], w) == Run(eq, k + 1, st + [Binary(eq[k], a, b)], w)
    ensures eq[k] == EQUAL ==>
              Run(eq, k, st + [a], w) == if st == [] || a == Error || a == Stale then Value(a) else Illegal
  {
    assert (st + [a])[..|st|] == st;
    assert (st + [a] + [b])[..|st|] == st;
  }

  /** Where a run cannot go on: an item short of operands, one that is neither, and the buffer's end. */
  lemma RunStops(eq: seq<nat>, k: nat, st: seq<Watch>, w: Results)
    requires k <= |eq|
    ensures k == |eq| ==> Run(eq, k, st, w) == Illegal
    ensures k < |eq| && IsBinary(eq[k]) && |st| < 2 ==> Run(eq, k, st, w) == Illegal
    ensures k < |eq| && (eq[k] == NOT || eq[k] == EQUAL) && st == [] ==> Run(eq, k, st, w) == Illegal
    ensures k < |eq| && (MAX_WATCHPOINTS <= eq[k] < AND || eq[k] > EQUAL) ==> Run(eq, k, st, w) == Illegal
  {
  }

  /** Take the top operand; on an empty stack the source yields TRUE and flags the equation. */
  method Pop(stack: array<Watch>, sp: nat) returns (v: Watch, sp': nat, ok: bool)
    requires sp <= stack.Length
    ensures ok <==> sp > 0
    ensures ok ==> sp' == sp - 1 && stack[..sp] == stack[..sp'] + [v]
    ensures !ok ==> sp' == sp && v == True
  {
    if sp == 0 {
      return True, sp, false;
    }
    return stack[sp - 1], sp - 1, true;
  }

  /** Put an operand on top. */
  method Push(stack: array<Watch>, sp: nat, v: Watch) returns (sp': nat)
    requires sp < stack.Length
    modifies stack
    ensures sp' == sp + 1 && stack[..sp'] == old(stack[..sp]) + [v]
  {
    stack[sp] := v;
    return sp + 1;
  }

  method EvaluateRpn(eq: seq<nat>, w: Results) returns (result: Action)
    requires |eq| == MAX_EQU_SIZE
    ensures result == Evaluation(eq, w)
  {
    hide Run, Binary, Not;
    var stack := new Watch[MAX_EQU_SIZE](_ => Stale);
    var sp: nat := 0;
    var ptr: nat := 0;
    var done, illegalRpn, illegalOperand := false, false, false;
    var eval := Error;
    while !done && !illegalRpn && !illegalOperand
      invariant sp <= ptr <= MAX_EQU_SIZE
      invariant !done && !illegalRpn && !illegalOperand ==> ptr < MAX_EQU_SIZE
      invariant !done && !illegalRpn && !illegalOperand ==> Run(eq, ptr, stack[..sp], w) == Run(eq, 0, [], w)
      invariant illegalRpn ==> Run(eq, 0, [], w) == Illegal
      invariant !illegalRpn && (done || illegalOperand) ==> Run(eq, 0, [], w) == Value(eval)
      decreases MAX_EQU_SIZE - ptr, !done && !illegalRpn && !illegalOperand
    {
      var item := eq[ptr];
      RunStops(eq, ptr, stack[..sp], w);
      ptr := ptr + 1;
      if IsBinary(item) {
        var b, sp1, ok1 := Pop(stack, sp);
        var a, sp2, ok2 := Pop(stack, sp1);
        illegalRpn := !ok1 || !ok2;
        RunTakes(eq, ptr - 1, stack[..sp2], a, b, w);
        sp := Push(stack, sp2, Binary(item, a, b));
      } else if item == NOT {
        var a, sp1, ok1 := Pop(stack, sp);
        illegalRpn := !ok1;
        RunTakes(eq, ptr - 1, stack[..sp1], a, a, w);
        sp := Push(stack, sp1, Not(a));
      } else if item == EQUAL {
        var v, sp1, ok1 := Pop(stack, sp);
        RunTakes(eq, ptr - 1, stack[..sp1], v, v, w);
        eval, sp, illegalRpn := v, sp1, !ok1;
        if eval == Error || eval == Stale {
          illegalOperand := true;
        } else if sp == 0 {
          done := true;
        } else {
          illegalRpn := true;
        }
      } else if item < MAX_WATCHPOINTS {
        RunTakes(eq, ptr - 1, stack[..sp], True, True, w);
        sp := Push(stack, sp, w[item]);
      } else {
        illegalRpn := true;
      }
      if !done && !illegalRpn && !illegalOperand {
        if ptr >= MAX_EQU_SIZE {
          RunStops(eq, ptr, stack[..sp], w);
          illegalRpn := true;
        }
      }
    }
    if illegalRpn {
      result := ActionError;
    } else if eval == Error {
      result := ActionError;
    } else if eval == Stale {
      result := ActionStale;
    } else if eval == False {
      result := Pass;
    } else {
      result := Fail;
    }
  }

  // ---------------------------------------------------------------- validation

  /** The validator's stack-depth walk, from item `i` on. */
  predicate Accepts(eq: seq<nat>, i: nat, depth: nat)
    requires i <= |eq|
    decreases |eq| - i
  {
    i < |eq| &&
    if eq[i] == EQUAL then depth == 1
    else if IsBinary(eq[i]) then depth > 1 && Accepts(eq, i + 1, depth - 1)
    else if eq[i] == NOT then depth > 0 && Accepts(eq, i + 1, depth)
    else eq[i] < MAX_WATCHPOINTS && Accepts(eq, i + 1, depth + 1)
  }

  method ValidateRpn(eq: seq<nat>) returns (valid: bool)
    requires |eq| == MAX_EQU_SIZE
    ensures valid <==> Accepts(eq, 0, 0)
  {
    var depth: int := 0;
    var i := 0;
    var item := eq[0];
    while i < MAX_EQU_SIZE
      invariant 0 <= i <= MAX_EQU_SIZE
      invariant 0 <= depth && (i > 0 ==> depth > 0)
      invariant i > 0 ==> item == eq[i - 1] && item != EQUAL
      invariant Accepts(eq, 0, 0) == Accepts(eq, i, depth)
    {
      item := eq[i];
      if IsBinary(item) {
        depth := depth - 1;
      } else if item == NOT {
      } else if item == EQUAL {
        break;
      } else if item < MAX_WATCHPOINTS {
        depth := depth + 1;
      } else {
        break;
      }
      if depth <= 0 {
        break;
      }
      i := i + 1;
    }
    valid := item == EQUAL && depth == 1;
  }

  // ---------------------------------------------------------------- meaning

  /** An ordinary expression over watchpoints. */
  datatype Expr = Wp(n: nat) | Neg(e: Expr) | Op(op: nat, l: Expr, r: Expr)

  predicate WellFormed(e: Expr)
  {
    match e
    case Wp(n) => n < MAX_WATCHPOINTS
    case Neg(x) => WellFormed(x)
    case Op(op, l, r) => IsBinary(op) && WellFormed(l) && WellFormed(r)
  }

  function Meaning(e: Expr, w: Results): Watch
    requires WellFormed(e)
  {
    match e
    case Wp(n) => w[n]
    case Neg(x) => Not(Meaning(x, w))
    case Op(op, l, r) => Binary(op, Meaning(l, w), Meaning(r, w))
  }

  function Postfix(e: Expr): seq<nat>
  {
    match e
    case Wp(n) => [n]
    case Neg(x) => Postfix(x) + [NOT]
    case Op(op, l, r) => Postfix(l) + Postfix(r) + [op]
  }

  predicate SpelledAt(eq: seq<nat>, i: nat, part: seq<nat>)
  {
    i + |part| <= |eq| && eq[i..i + |part|] == part
  }

  lemma SpelledParts(eq: seq<nat>, i: nat, a: seq<nat>, b: seq<nat>)
    requires SpelledAt(eq, i, a + b)
    ensures SpelledAt(eq, i, a) && SpelledAt(eq, i + |a|, b)
  {
    var whole := eq[i..i + |a| + |b|];
    assert whole == a + b;
    assert whole[..|a|] == a && whole[|a|..] == b;
    assert eq[i..i + |a|] == whole[..|a|];
    assert eq[i + |a|..i + |a| + |b|] == whole[|a|..];
  }

  lemma RunItem(eq: seq<nat>, k: nat, item: nat, st: seq<Watch>, a: Watch, b: Watch, w: Results)
    requires SpelledAt(eq, k, [item])
    ensures item < MAX_WATCHPOINTS ==> Run(eq, k, st, w) == Run(eq, k + 1, st + [w[item]], w)
    ensures item == NOT ==> Run(eq, k, st + [a], w) == Run(eq, k + 1, st + [Not(a)], w)
    ensures IsBinary(item) ==> Run(eq, k, st + [a] + [b], w) == Run(eq, k + 1, st + [Binary(item, a, b)], w)
  {
    assert eq[k..k + 1][0] == item;
    RunTakes(eq, k, st, a, b, w);
  }

  /** Running over the postfix form of `e`, wherever it sits, pushes exactly `e`'s value. */
  lemma {:induction false} RunPostfix(eq: seq<nat>, i: nat, e: Expr, st: seq<Watch>, w: Results)
    requires WellFormed(e)
    requires SpelledAt(eq, i, Postfix(e))
    ensures Run(eq, i, st, w) == Run(eq, i + |Postfix(e)|, st + [Meaning(e, w)], w)
    decreases e
  {
    hide Run, SpelledAt;
    match e
    case Wp(n) =>
      RunItem(eq, i, n, st, True, True, w);
    case Neg(x) =>
      SpelledParts(eq, i, Postfix(x), [NOT]);
      RunPostfix(eq, i, x, st, w);
      RunItem(eq, i + |Postfix(x)|, NOT, st, Meaning(x, w), True, w);
    case Op(op, l, r) =>
      var m, k := i + |Postfix(l)|, i + |Postfix(l)| + |Postfix(r)|;
      SpelledParts(eq, i, Postfix(l) + Postfix(r), [op]);
      SpelledParts(eq, i, Postfix(l), Postfix(r));
      RunPostfix(eq, i, l, st, w);
      RunPostfix(eq, m, r, st + [Meaning(l, w)], w);
      RunItem(eq, k, op, st, Meaning(l, w), Meaning(r, w), w);
  }

  /** The equation of an expression, whatever follows its EQUAL in the 20-item buffer. */
  ghost predicate Encodes(eq: seq<nat>, e: Expr)
  {
    WellFormed(e) && Postfix(e) + [EQUAL] <= eq
  }

  /** An equation that encodes an expression evaluates to that expression's value. */
  lemma EvaluationIsMeaning(eq: seq<nat>, e: Expr, w: Results)
    requires Encodes(eq, e)
    ensures Evaluation(eq, w) == ActionOf(Value(Meaning(e, w)))
  {
    var n := |Postfix(e)|;
    assert eq[0..n + 1] == eq[..n + 1] == Postfix(e) + [EQUAL];
    SpelledParts(eq, 0, Postfix(e), [EQUAL]);
    RunPostfix(eq, 0, e, [], w);
    assert [] + [Meaning(e, w)] == [Meaning(e, w)];
    assert eq[n..n + 1][0] == EQUAL;
  }

  // ------------------------------------------- the validator accepts exactly the encodings

  /** The concatenated postfix forms of a stack of expressions. */
  function Flatten(es: seq<Expr>): seq<nat>
  {
    if es == [] then [] else Flatten(es[..|es| - 1]) + Postfix(es[|es| - 1])
  }

  lemma FlattenPush(es: seq<Expr>, e: Expr)
    ensures Flatten(es + [e]) == Flatten(es) + Postfix(e)
  {
    assert (es + [e])[..|es|] == es;
  }

  lemma FlattenOp(es: seq<Expr>, l: Expr, r: Expr, op: nat)
    ensures Flatten(es + [Op(op, l, r)]) == Flatten(es + [l] + [r]) + [op]
  {
    hide Flatten;
    FlattenPush(es + [l], r);
    FlattenPush(es, l);
    FlattenPush(es, Op(op, l, r));
  }

  lemma FlattenNeg(es: seq<Expr>, x: Expr)
    ensures Flatten(es + [Neg(x)]) == Flatten(es + [x]) + [NOT]
  {
    hide Flatten;
    FlattenPush(es, x);
    FlattenPush(es, Neg(x));
  }

  /** Parsing: if the first `i` items spell the expression stack `es` and the validator still
      accepts from there, the whole equation encodes some expression. */
  lemma {:induction false} AcceptedParses(eq: seq<nat>, i: nat, es: seq<Expr>) returns (e: Expr)
    requires i <= |eq| && Accepts(eq, i, |es|)
    requires forall k :: 0 <= k < |es| ==> WellFormed(es[k])
    requires Flatten(es) == eq[..i]
    ensures Encodes(eq, e)
    decreases |eq| - i
  {
    hide Flatten, Postfix;
    var n, item := |es|, eq[i];
    assert eq[..i + 1] == eq[..i] + [item];
    if item == EQUAL {
      e := es[0];
      assert es == [] + [e];
      FlattenPush([], e);
      FlattenEmpty();
      assert Postfix(e) + [EQUAL] == eq[..i + 1];
    } else if IsBinary(item) {
      var init, l, r := es[..n - 2], es[n - 2], es[n - 1];
      assert es == init + [l] + [r];
      FlattenOp(init, l, r, item);
      e := AcceptedParses(eq, i + 1, init + [Op(item, l, r)]);
    } else if item == NOT {
      var init, x := es[..n - 1], es[n - 1];
      assert es == init + [x];
      FlattenNeg(init, x);
      e := AcceptedParses(eq, i + 1, init + [Neg(x)]);
    } else {
      FlattenPush(es, Wp(item));
      PostfixWp(item);
      e := AcceptedParses(eq, i + 1, es + [Wp(item)]);
    }
  }

  lemma FlattenEmpty() ensures Flatten([]) == [] {}

  lemma PostfixWp(n: nat) ensures Postfix(Wp(n)) == [n] {}

  lemma AcceptsItem(eq: seq<nat>, k: nat, item: nat, depth: nat)
    requires SpelledAt(eq, k, [item])
    ensures item < MAX_WATCHPOINTS ==> Accepts(eq, k, depth) == Accepts(eq, k + 1, depth + 1)
    ensures item == NOT ==> Accepts(eq, k, depth + 1) == Accepts(eq, k + 1, depth + 1)
    ensures IsBinary(item) ==> Accepts(eq, k, depth + 2) == Accepts(eq, k + 1, depth + 1)
  {
    assert eq[k..k + 1][0] == item;
  }

  /** Printing: over a postfix form the validator's depth goes up by one. */
  lemma {:induction false} PostfixAccepted(eq: seq<nat>, i: nat, e: Expr, depth: nat)
    requires WellFormed(e)
    requires SpelledAt(eq, i, Postfix(e))
    ensures Accepts(eq, i, depth) == Accepts(eq, i + |Postfix(e)|, depth + 1)
    decreases e
  {
    hide Accepts, SpelledAt;
    match e
    case Wp(n) =>
      AcceptsItem(eq, i, n, depth);
    case Neg(x) =>
      SpelledParts(eq, i, Postfix(x), [NOT]);
      PostfixAccepted(eq, i, x, depth);
      AcceptsItem(eq, i + |Postfix(x)|, NOT, depth);
    case Op(op, l, r) =>
      var m, k := i + |Postfix(l)|, i + |Postfix(l)| + |Postfix(r)|;
      SpelledParts(eq, i, Postfix(l) + Postfix(r), [op]);
      SpelledParts(eq, i, Postfix(l), Postfix(r));
      PostfixAccepted(eq, i, l, depth);
      PostfixAccepted(eq, m, r, depth + 1);
      AcceptsItem(eq, k, op, depth);
  }

  /** The validator accepts a buffer if and only if it encodes an expression. */
  lemma AcceptsIffEncodes(eq: seq<nat>)
    ensures Accepts(eq, 0, 0) <==> exists e :: Encodes(eq, e)
  {
    if Accepts(eq, 0, 0) {
      var e := AcceptedParses(eq, 0, []);
    }
    forall e | Encodes(eq, e) ensures Accepts(eq, 0, 0) {
      var n := |Postfix(e)|;
      assert eq[0..n + 1] == eq[..n + 1] == Postfix(e) + [EQUAL];
      SpelledParts(eq, 0, Postfix(e), [EQUAL]);
      PostfixAccepted(eq, 0, e, 0);
      assert eq[n..n + 1][0] == EQUAL;
    }
  }

  /** A rejected equation never reaches a pass or fail verdict, whatever the watchpoints say. */
  lemma {:induction false} RejectedNeverDecides(eq: seq<nat>, i: nat, st: seq<Watch>, w: Results)
    requires i <= |eq| && !Accepts(eq, i, |st|)
    ensures ActionOf(Run(eq, i, st, w)) in {ActionError, ActionStale}
    decreases |eq| - i
  {
    if i < |eq| {
      if IsBinary(eq[i]) {
        if |st| >= 2 {
          RejectedNeverDecides(eq, i + 1, st[..|st| - 2] + [Binary(eq[i], st[|st| - 2], st[|st| - 1])], w);
        }
      } else if eq[i] == NOT {
        if |st| >= 1 {
          RejectedNeverDecides(eq, i + 1, st[..|st| - 1] + [Not(st[|st| - 1])], w);
        }
      } else if eq[i] != EQUAL && eq[i] < MAX_WATCHPOINTS {
        RejectedNeverDecides(eq, i + 1, st + [w[eq[i]]], w);
      }
    }
  }

  ghost predicate AllMeasured(w: Results) { forall i :: 0 <= i < |w| ==> w[i] == True || w[i] == False }

  lemma {:induction false} MeasuredMeaning(e: Expr, w: Results)
    requires WellFormed(e) && AllMeasured(w)
    ensures Meaning(e, w) == True || Meaning(e, w) == False
  {
    match e
    case Wp(n) =>
    case Neg(x) => MeasuredMeaning(x, w);
    case Op(op, l, r) =>
      MeasuredMeaning(l, w);
      MeasuredMeaning(r, w);
  }

  /** Load-time validation is exactly right: once every watchpoint is measured, an equation
      gives a verdict if and only if the validator accepted it. */
  lemma ValidatorIsExact(eq: seq<nat>, w: Results)
    requires AllMeasured(w)
    ensures Accepts(eq, 0, 0) <==> Evaluation(eq, w) in {Pass, Fail}
  {
    if Accepts(eq, 0, 0) {
      AcceptsIffEncodes(eq);
      var e :| Encodes(eq, e);
      EvaluationIsMeaning(eq, e, w);
      MeasuredMeaning(e, w);
    } else {
      RejectedNeverDecides(eq, 0, [], w);
    }
  }
}
