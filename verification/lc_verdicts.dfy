/** What an equation's verdict means, whatever the watchpoints say: measured, stale or in error. */
module LcVerdicts {
  import opened LcRpn
  import opened LcRegions

  predicate Decided(v: Watch) { v == True || v == False }

  // ------------------------------------------------------------ over measured watchpoints

  /** The watchpoints an expression mentions. */
  function Mentions(e: Expr): set<nat>
  {
    match e
    case Wp(n) => {n}
    case Neg(x) => Mentions(x)
    case Op(_, l, r) => Mentions(l) + Mentions(r)
  }

  /** An expression read as an ordinary boolean one. */
  predicate Truth(e: Expr, w: Results)
    requires WellFormed(e)
  {
    match e
    case Wp(n) => w[n] == True
    case Neg(x) => !Truth(x, w)
    case Op(op, l, r) =>
      if op == AND then Truth(l, w) && Truth(r, w)
      else if op == OR then Truth(l, w) || Truth(r, w)
      else Truth(l, w) != Truth(r, w)
  }

  /** Over measured watchpoints an expression means what it means as a boolean one. */
  lemma {:induction false} MeaningIsTruth(e: Expr, w: Results)
    requires WellFormed(e) && forall n :: n in Mentions(e) ==> n < MAX_WATCHPOINTS && Decided(w[n])
    ensures Meaning(e, w) == if Truth(e, w) then True else False
  {
    match e
    case Wp(n) => assert n in Mentions(e);
    case Neg(x) =>
      assert Mentions(x) == Mentions(e);
      MeaningIsTruth(x, w);
    case Op(_, l, r) =>
      assert forall n :: n in Mentions(l) || n in Mentions(r) ==> n in Mentions(e);
      MeaningIsTruth(l, w);
      MeaningIsTruth(r, w);
  }

  // ------------------------------------------------------------ safety of a verdict

  /** Later results agree with earlier ones on every watchpoint that was measured then. */
  ghost predicate Agree(w: Results, w': Results)
  {
    forall i :: 0 <= i < MAX_WATCHPOINTS && Decided(w[i]) ==> w'[i] == w[i]
  }

  lemma {:induction false} MeaningIsSafe(e: Expr, w: Results, w': Results)
    requires WellFormed(e) && Agree(w, w') && Decided(Meaning(e, w))
    ensures Meaning(e, w') == Meaning(e, w)
  {
    match e
    case Wp(n) =>
    case Neg(x) => MeaningIsSafe(x, w, w');
    case Op(_, l, r) =>
      if Decided(Meaning(l, w)) { MeaningIsSafe(l, w, w'); }
      if Decided(Meaning(r, w)) { MeaningIsSafe(r, w, w'); }
  }

  /** No verdict rests on a stale or erroneous watchpoint: whatever such watchpoints turn out to be,
      a pass stays a pass and a fail a fail. So for every equation, accepted or not. */
  lemma VerdictIsSafe(eq: seq<nat>, w: Results, w': Results)
    requires Agree(w, w') && (Evaluation(eq, w) == Pass || Evaluation(eq, w) == Fail)
    ensures Evaluation(eq, w') == Evaluation(eq, w)
  {
    hide Run;
    if !Accepts(eq, 0, 0) {
      RejectedNeverDecides(eq, 0, [], w);
    }
    AcceptsIffEncodes(eq);
    var e :| Encodes(eq, e);
    EvaluationIsMeaning(eq, e, w);
    EvaluationIsMeaning(eq, e, w');
    MeaningIsSafe(e, w, w');
  }

  // ------------------------------------------------------------ every equation's evaluation

  /** The items before the first EQUAL spell a stack of expressions. */
  ghost predicate Stacks(eq: seq<nat>, es: seq<Expr>)
  {
    es != [] && (forall k :: 0 <= k < |es| ==> WellFormed(es[k])) && Flatten(es) + [EQUAL] <= eq
  }

  function Meanings(es: seq<Expr>, w: Results): (ms: seq<Watch>)
    requires forall k :: 0 <= k < |es| ==> WellFormed(es[k])
    ensures |ms| == |es| && forall k :: 0 <= k < |es| ==> ms[k] == Meaning(es[k], w)
  {
    seq(|es|, k requires 0 <= k < |es| => Meaning(es[k], w))
  }

  /** Running over a stack of postfix forms stacks their meanings. */
  lemma {:induction false} RunFlatten(eq: seq<nat>, es: seq<Expr>, w: Results)
    requires (forall k :: 0 <= k < |es| ==> WellFormed(es[k])) && Flatten(es) <= eq
    ensures Run(eq, 0, [], w) == Run(eq, |Flatten(es)|, Meanings(es, w), w)
    decreases |es|
  {
    hide Run, Postfix;
    if es == [] {
      assert Meanings(es, w) == [];
    } else {
      var init, e := es[..|es| - 1], es[|es| - 1];
      RunFlatten(eq, init, w);
      var i := |Flatten(init)|;
      assert eq[i..i + |Postfix(e)|] == Postfix(e);
      RunPostfix(eq, i, e, Meanings(init, w), w);
      assert Meanings(es, w) == Meanings(init, w) + [Meaning(e, w)];
    }
  }

  /** An equation whose items up to EQUAL leave a stack is stale or in error as the top of the stack
      is; otherwise it has its verdict if nothing is left below, and is in error if something is. */
  lemma StackDecides(eq: seq<nat>, es: seq<Expr>, w: Results)
    requires Stacks(eq, es)
    ensures WellFormed(es[|es| - 1])
    ensures var top := Meaning(es[|es| - 1], w);
      Evaluation(eq, w) ==
      if top == Stale then ActionStale
      else if top == Error || |es| > 1 then ActionError
      else if top == True then Fail else Pass
  {
    hide Run, Flatten;
    RunFlatten(eq, es, w);
    var n, ms := |Flatten(es)|, Meanings(es, w);
    assert eq[n] == (Flatten(es) + [EQUAL])[n];
    var st, top := ms[..|ms| - 1], ms[|ms| - 1];
    assert ms == st + [top];
    RunTakes(eq, n, st, top, top, w);
  }

  /** An equation that goes on without ever meeting EQUAL on a stack is in error. */
  lemma {:induction false} RunParses(eq: seq<nat>, i: nat, es: seq<Expr>, w: Results)
    requires i <= |eq| && Flatten(es) == eq[..i] && forall k :: 0 <= k < |es| ==> WellFormed(es[k])
    requires forall all :: !Stacks(eq, all)
    ensures Run(eq, i, Meanings(es, w), w) == Illegal
    decreases |eq| - i
  {
    hide Run, Flatten, Postfix;
    var n, ms := |es|, Meanings(es, w);
    RunStops(eq, i, ms, w);
    if i < |eq| {
      var item := eq[i];
      assert eq[..i + 1] == eq[..i] + [item];
      if item == EQUAL {
        if n > 0 {
          assert Stacks(eq, es);
        }
      } else if IsBinary(item) && n >= 2 {
        var init, l, r := es[..n - 2], es[n - 2], es[n - 1];
        assert es == init + [l] + [r];
        FlattenOp(init, l, r, item);
        assert ms == Meanings(init, w) + [Meaning(l, w)] + [Meaning(r, w)];
        RunTakes(eq, i, Meanings(init, w), Meaning(l, w), Meaning(r, w), w);
        RunParses(eq, i + 1, init + [Op(item, l, r)], w);
        assert Meanings(init + [Op(item, l, r)], w) == Meanings(init, w) + [Meaning(Op(item, l, r), w)];
      } else if item == NOT && n >= 1 {
        var init, x := es[..n - 1], es[n - 1];
        assert es == init + [x];
        FlattenNeg(init, x);
        assert ms == Meanings(init, w) + [Meaning(x, w)];
        RunTakes(eq, i, Meanings(init, w), Meaning(x, w), Meaning(x, w), w);
        RunParses(eq, i + 1, init + [Neg(x)], w);
        assert Meanings(init + [Neg(x)], w) == Meanings(init, w) + [Meaning(Neg(x), w)];
      } else if item < MAX_WATCHPOINTS {
        FlattenPush(es, Wp(item));
        PostfixWp(item);
        RunTakes(eq, i, ms, True, True, w);
        RunParses(eq, i + 1, es + [Wp(item)], w);
        assert Meanings(es + [Wp(item)], w) == ms + [Meaning(Wp(item), w)];
      }
    }
  }

  /** Every other equation is in error, whatever the watchpoints say. */
  lemma NoStackIsError(eq: seq<nat>, w: Results)
    requires forall es :: !Stacks(eq, es)
    ensures Evaluation(eq, w) == ActionError
  {
    FlattenEmpty();
    assert Meanings([], w) == [];
    RunParses(eq, 0, [], w);
  }

  // ------------------------------------------------------------ the operators by their codes

  lemma Begins(eq: seq<nat>, e: Expr, n: nat)
    requires n <= |eq| && WellFormed(e) && eq[..n] == Postfix(e) + [EQUAL]
    ensures Encodes(eq, e)
  {
  }

  /** The operators by the codes the tables hold, over any two watchpoints. */
  lemma OperatorCodes(eq: seq<nat>, a: nat, b: nat, w: Results)
    requires |eq| == 20 && a < 176 && b < 176
    ensures eq[..4] == [a, b, 0xFFF1, 0xFFF5] ==>
      (Evaluation(eq, w) == Fail <==> w[a] == True && w[b] == True) && (Evaluation(eq, w) == Pass <==> w[a] == False || w[b] == False)
    ensures eq[..4] == [a, b, 0xFFF2, 0xFFF5] ==>
      (Evaluation(eq, w) == Fail <==> w[a] == True || w[b] == True) && (Evaluation(eq, w) == Pass <==> w[a] == False && w[b] == False)
    ensures eq[..4] == [a, b, 0xFFF3, 0xFFF5] && Decided(w[a]) && Decided(w[b]) ==>
      Evaluation(eq, w) == if w[a] != w[b] then Fail else Pass
    ensures eq[..3] == [a, 0xFFF4, 0xFFF5] ==>
      (Evaluation(eq, w) == Fail <==> w[a] == False) && (Evaluation(eq, w) == Pass <==> w[a] == True)
  {
    hide Evaluation;
    forall op | IsBinary(op) && eq[..4] == [a, b, op, EQUAL]
      ensures Evaluation(eq, w) == ActionOf(Value(Binary(op, w[a], w[b])))
    {
      var e := Op(op, Wp(a), Wp(b));
      assert Postfix(e) + [EQUAL] == [a, b, op, EQUAL];
      Begins(eq, e, 4);
      EvaluationIsMeaning(eq, e, w);
    }
    if eq[..3] == [a, NOT, EQUAL] {
      var e := Neg(Wp(a));
      assert Postfix(e) + [EQUAL] == [a, NOT, EQUAL];
      Begins(eq, e, 3);
      EvaluationIsMeaning(eq, e, w);
    }
  }

  // ------------------------------------------------------------ folds of any length

  /** The watchpoints `first`, ..., `first + n - 1`, folded from the left. */
  function LeftFold(op: nat, first: nat, n: nat): Expr
    requires n >= 1
  {
    if n == 1 then Wp(first) else Op(op, LeftFold(op, first, n - 1), Wp(first + n - 1))
  }

  predicate Some(w: Results, first: nat, n: nat, v: Watch)
    requires first + n <= MAX_WATCHPOINTS
  {
    exists i :: first <= i < first + n && w[i] == v
  }

  function CountTrue(w: Results, first: nat, n: nat): nat
    requires first + n <= MAX_WATCHPOINTS
  {
    multiset(w[first..first + n])[True]
  }

  lemma SomeMore(w: Results, first: nat, n: nat, v: Watch)
    requires first + n < MAX_WATCHPOINTS
    ensures Some(w, first, n + 1, v) <==> Some(w, first, n, v) || w[first + n] == v
    ensures CountTrue(w, first, n + 1) == CountTrue(w, first, n) + if w[first + n] == True then 1 else 0
  {
    assert w[first..first + n + 1] == w[first..first + n] + [w[first + n]];
  }

  lemma SomeOne(w: Results, first: nat, v: Watch)
    requires first < MAX_WATCHPOINTS
    ensures Some(w, first, 1, v) <==> w[first] == v
    ensures CountTrue(w, first, 1) == if w[first] == True then 1 else 0
  {
    assert w[first..first + 1] == [w[first]];
  }

  lemma OddMore(n: nat)
    ensures (n + 1) % 2 == 1 - n % 2
  {
  }

  /** A conjunction is true when all its watchpoints are, false when one is; otherwise in error when
      one is, and stale only then. */
  lemma {:induction false} ConjunctionExactly(first: nat, n: nat, w: Results)
    requires n >= 1 && first + n <= MAX_WATCHPOINTS
    ensures WellFormed(LeftFold(AND, first, n))
    ensures Meaning(LeftFold(AND, first, n), w) ==
      if Some(w, first, n, False) then False
      else if Some(w, first, n, Error) then Error
      else if Some(w, first, n, Stale) then Stale
      else True
    decreases n
  {
    if n > 1 {
      ConjunctionExactly(first, n - 1, w);
      SomeMore(w, first, n - 1, False);
      SomeMore(w, first, n - 1, Error);
      SomeMore(w, first, n - 1, Stale);
      hide Some;
    }
  }

  /** A disjunction is false when all its watchpoints are, true when one is; otherwise likewise. */
  lemma {:induction false} DisjunctionExactly(first: nat, n: nat, w: Results)
    requires n >= 1 && first + n <= MAX_WATCHPOINTS
    ensures WellFormed(LeftFold(OR, first, n))
    ensures Meaning(LeftFold(OR, first, n), w) ==
      if Some(w, first, n, True) then True
      else if Some(w, first, n, Error) then Error
      else if Some(w, first, n, Stale) then Stale
      else False
    decreases n
  {
    if n > 1 {
      DisjunctionExactly(first, n - 1, w);
      SomeMore(w, first, n - 1, True);
      SomeMore(w, first, n - 1, Error);
      SomeMore(w, first, n - 1, Stale);
      hide Some;
    }
  }

  /** An exclusive or is in error or stale when one of its watchpoints is, error first; otherwise it
      is the parity of those that are true. */
  lemma {:induction false} ParityExactly(first: nat, n: nat, w: Results)
    requires n >= 1 && first + n <= MAX_WATCHPOINTS
    ensures WellFormed(LeftFold(XOR, first, n))
    ensures Meaning(LeftFold(XOR, first, n), w) ==
      if Some(w, first, n, Error) then Error
      else if Some(w, first, n, Stale) then Stale
      else if CountTrue(w, first, n) % 2 == 1 then True else False
    decreases n
  {
    hide Some, CountTrue;
    if n == 1 {
      SomeOne(w, first, Error);
      SomeOne(w, first, Stale);
    } else {
      ParityExactly(first, n - 1, w);
      SomeMore(w, first, n - 1, Error);
      SomeMore(w, first, n - 1, Stale);
      OddMore(CountTrue(w, first, n - 1));
    }
  }

  /** A negation is stale or in error when its operand is; any operand, stale ones included. */
  lemma NegationExactly(e: Expr, w: Results)
    requires WellFormed(e)
    ensures Meaning(Neg(e), w) == match Meaning(e, w) case True => False case False => True case Stale => Stale case Error => Error
  {
  }

  lemma {:induction false} LeftAndIsFold(first: nat, n: nat)
    requires n >= 1
    ensures LeftAnd(first, n) == LeftFold(AND, first, n)
  {
    if n > 1 {
      LeftAndIsFold(first, n - 1);
    }
  }

  // ------------------------------------------------------------ the tables' equations

  function Verdict(v: Watch): Action
  {
    match v case True => Fail case False => Pass case Stale => ActionStale case Error => ActionError
  }

  /** What each of the twelve equations gives for all watchpoint results: the watchpoint of its own
      number; a region's five watchpoints, whose enter fires only when all five are true and passes
      when one is false; the opposite of that for leaving; and 26 with 24. */
  lemma EquationVerdict(ap: nat, w: Results)
    requires 25 <= ap <= 36
    ensures ap <= 29 ==> Evaluation(Equation(ap), w) == Verdict(w[ap])
    ensures 30 <= ap <= 35 ==>
      var first := 30 + 5 * ((ap - 30) % 3);
      Evaluation(Equation(ap), w) ==
      if Some(w, first, 5, False) then (if ap <= 32 then Pass else Fail)
      else if Some(w, first, 5, Error) then ActionError
      else if Some(w, first, 5, Stale) then ActionStale
      else if ap <= 32 then Fail else Pass
    ensures ap == 36 ==>
      var a, b := w[26], w[24];
      Evaluation(Equation(ap), w) ==
      if a == False || b == False then Pass
      else if a == Error || b == Error then ActionError
      else if a == Stale || b == Stale then ActionStale
      else Fail
  {
    hide Equation, Evaluation, Some;
    EquationsEncodeInfix(ap);
    EvaluationIsMeaning(Equation(ap), Infix(ap), w);
    if 30 <= ap <= 35 {
      var r := (ap - 30) % 3;
      assert r == if ap <= 32 then ap - 30 else ap - 33;
      LeftAndIsFold(30 + 5 * r, 5);
      ConjunctionExactly(30 + 5 * r, 5, w);
      hide LeftAnd, LeftFold;
    }
  }
}
