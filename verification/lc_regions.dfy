/** The science-mode watchpoints and actionpoint equations as the tables define them. */
module LcRegions {
  import opened LcRpn

  /** The telemetry the watchpoints look at. */
  datatype Telemetry = Telemetry(lat: real, lon: real, enabled: seq<nat>, mode: nat, volts: nat, deviceStatus: nat)

  const SAFE_MODE: nat := 1
  const SCIENCE_MODE: nat := 3
  const SCIENCE_REBOOT_MODE: nat := 4

  // Regions: 0 is AK, 1 is CONUS, 2 is HI. Each is an open box in degrees.
  datatype Box = Box(south: real, north: real, west: real, east: real)

  function RegionBox(r: nat): Box
    requires r < 3
  {
    if r == 0 then Box(51.22, 71.35, -179.15, -129.99)
    else if r == 1 then Box(24.52, 49.38, -125.0, -66.95)
    else Box(18.9, 28.4, -178.7, -154.8)
  }

  /** Watchpoints 24 to 44 of the definition table. The five watchpoints from 30 + 5r on
      bound region r and check that science over it is enabled. */
  predicate WatchTrue(n: nat, t: Telemetry)
    requires 24 <= n <= 44 && |t.enabled| == 3
  {
    if n == 24 then t.deviceStatus != 0
    else if n == 25 then t.mode == SCIENCE_REBOOT_MODE
    else if n == 26 then t.mode == SCIENCE_MODE
    else if n == 27 then t.volts < 24240
    else if n == 28 then t.volts > 24960
    else if n == 29 then t.mode == SAFE_MODE
    else RegionWatch((n - 30) / 5, (n - 30) % 5, t)
  }

  predicate RegionWatch(r: nat, k: nat, t: Telemetry)
    requires r < 3 && k < 5 && |t.enabled| == 3
  {
    var b := RegionBox(r);
    match k
    case 0 => t.lat < b.north
    case 1 => t.lat > b.south
    case 2 => t.lon < b.east
    case 3 => t.lon > b.west
    case _ => t.enabled[r] == 1
  }

  /** Watchpoint results once every telemetry packet has been seen; unused entries stay stale. */
  function Measured(t: Telemetry): (w: Results)
    requires |t.enabled| == 3
  {
    seq(MAX_WATCHPOINTS, n requires 0 <= n < MAX_WATCHPOINTS => if 24 <= n <= 44 then OfBool(WatchTrue(n, t)) else Stale)
  }

  /** The equations of actionpoints 25 to 36, as laid out in the definition table. */
  function Equation(ap: nat): seq<nat>
    requires 25 <= ap <= 36
  {
    var body :=
      if ap <= 29 then [ap]
      else if ap <= 32 then RegionItems(30 + 5 * (ap - 30))
      else if ap <= 35 then RegionItems(30 + 5 * (ap - 33)) + [NOT]
      else [26, 24, AND];
    body + [EQUAL] + seq(19 - |body|, _ => 0)
  }

  function RegionItems(n: nat): (items: seq<nat>)
    ensures |items| == 9
  {
    [n, n + 1, AND, n + 2, AND, n + 3, AND, n + 4, AND]
  }

  /** The conjunction of the watchpoints `first`, ..., `first + n - 1`, folded from the left. */
  function LeftAnd(first: nat, n: nat): Expr
    requires n >= 1
  {
    if n == 1 then Wp(first) else Op(AND, LeftAnd(first, n - 1), Wp(first + n - 1))
  }

  /** The infix form the table comments give for each equation. */
  function Infix(ap: nat): Expr
    requires 25 <= ap <= 36
  {
    if ap <= 29 then Wp(ap)
    else if ap <= 32 then LeftAnd(30 + 5 * (ap - 30), 5)
    else if ap <= 35 then Neg(LeftAnd(30 + 5 * (ap - 33), 5))
    else Op(AND, Wp(26), Wp(24))
  }

  /** One more watchpoint in the conjunction adds its number and an AND to the postfix form. */
  lemma LeftAndMore(first: nat, n: nat)
    requires n >= 1 && first + n < MAX_WATCHPOINTS && WellFormed(LeftAnd(first, n))
    ensures WellFormed(LeftAnd(first, n + 1))
    ensures Postfix(LeftAnd(first, n + 1)) == Postfix(LeftAnd(first, n)) + [first + n] + [AND]
  {
    var e, last := LeftAnd(first, n), Wp(first + n);
    assert LeftAnd(first, n + 1) == Op(AND, e, last);
    assert WellFormed(last) && Postfix(last) == [first + n];
  }

  lemma RegionItemsSpellConjunction(n: nat)
    requires n + 4 < MAX_WATCHPOINTS
    ensures WellFormed(LeftAnd(n, 5)) && Postfix(LeftAnd(n, 5)) == RegionItems(n)
  {
    assert WellFormed(LeftAnd(n, 1)) && Postfix(LeftAnd(n, 1)) == [n];
    hide LeftAnd, Postfix, WellFormed;
    LeftAndMore(n, 1);
    LeftAndMore(n, 2);
    LeftAndMore(n, 3);
    LeftAndMore(n, 4);
  }

  /** Every science-mode equation in the table is the postfix of its documented infix form, so
      the validator loads it and it evaluates to that form. */
  lemma EquationsEncodeInfix(ap: nat)
    requires 25 <= ap <= 36
    ensures |Equation(ap)| == MAX_EQU_SIZE && Encodes(Equation(ap), Infix(ap))
    ensures Accepts(Equation(ap), 0, 0)
  {
    if 30 <= ap <= 35 {
      RegionItemsSpellConjunction(30 + 5 * ((ap - 30) % 3));
      assert ap <= 32 ==> (ap - 30) % 3 == ap - 30;
      assert ap > 32 ==> (ap - 30) % 3 == ap - 33;
    }
    assert Encodes(Equation(ap), Infix(ap));
    hide Equation, Infix, Accepts;
    AcceptsIffEncodes(Equation(ap));
  }

  function Opposite(a: Action): Action
  {
    match a
    case Pass => Fail
    case Fail => Pass
    case _ => a
  }

  /** Leaving a region is always the opposite verdict of entering it; a stale or failed
      measurement silences both. */
  lemma LeaveOppositeOfEnter(r: nat, w: Results)
    requires r < 3
    ensures Evaluation(Equation(33 + r), w) == Opposite(Evaluation(Equation(30 + r), w))
  {
    EquationsEncodeInfix(30 + r);
    EquationsEncodeInfix(33 + r);
    EvaluationIsMeaning(Equation(30 + r), Infix(30 + r), w);
    EvaluationIsMeaning(Equation(33 + r), Infix(33 + r), w);
  }

  predicate Inside(r: nat, t: Telemetry)
    requires r < 3 && |t.enabled| == 3
  {
    var b := RegionBox(r);
    b.south < t.lat < b.north && b.west < t.lon < b.east && t.enabled[r] == 1
  }

  /** The enter equation of a region is true exactly when the spacecraft is inside its box and
      science over it is enabled. */
  lemma EnterExactlyInside(r: nat, t: Telemetry)
    requires r < 3 && |t.enabled| == 3
    ensures Evaluation(Equation(30 + r), Measured(t)) == if Inside(r, t) then Fail else Pass
  {
    var n, w := 30 + 5 * r, Measured(t);
    EquationsEncodeInfix(30 + r);
    EvaluationIsMeaning(Equation(30 + r), Infix(30 + r), w);
    RegionItemsSpellConjunction(n);
    RegionConjunction(r, 5, t);
    var all := forall k :: 0 <= k < 5 ==> RegionWatch(r, k, t);
    assert all ==> (RegionWatch(r, 0, t) && RegionWatch(r, 1, t) && RegionWatch(r, 2, t) &&
                    RegionWatch(r, 3, t) && RegionWatch(r, 4, t));
    assert all <==> Inside(r, t);
  }

  lemma {:induction false} RegionConjunction(r: nat, n: nat, t: Telemetry)
    requires r < 3 && 1 <= n <= 5 && |t.enabled| == 3
    ensures WellFormed(LeftAnd(30 + 5 * r, n))
    ensures Meaning(LeftAnd(30 + 5 * r, n), Measured(t)) == OfBool(forall k :: 0 <= k < n ==> RegionWatch(r, k, t))
  {
    assert (30 + 5 * r + n - 1 - 30) / 5 == r && (30 + 5 * r + n - 1 - 30) % 5 == n - 1;
    assert Measured(t)[30 + 5 * r + n - 1] == OfBool(RegionWatch(r, n - 1, t));
    if n > 1 {
      RegionConjunction(r, n - 1, t);
    } else {
      assert (forall k :: 0 <= k < n ==> RegionWatch(r, k, t)) == RegionWatch(r, 0, t);
    }
  }

  /** Region by region, in degrees: Alaska, the contiguous states, Hawaii. */
  lemma RegionsByDegrees(t: Telemetry)
    requires |t.enabled| == 3
    ensures Evaluation(Equation(30), Measured(t)) == Fail <==>
            51.22 < t.lat < 71.35 && -179.15 < t.lon < -129.99 && t.enabled[0] == 1
    ensures Evaluation(Equation(31), Measured(t)) == Fail <==>
            24.52 < t.lat < 49.38 && -125.0 < t.lon < -66.95 && t.enabled[1] == 1
    ensures Evaluation(Equation(32), Measured(t)) == Fail <==>
            18.9 < t.lat < 28.4 && -178.7 < t.lon < -154.8 && t.enabled[2] == 1
  {
    hide Evaluation, Equation, Measured;
    EnterExactlyInside(0, t);
    EnterExactlyInside(1, t);
    EnterExactlyInside(2, t);
  }

  datatype Position = Outside | Over(region: nat)

  function PositionOf(t: Telemetry): Position
    requires |t.enabled| == 3
  {
    if Inside(0, t) then Over(0) else if Inside(1, t) then Over(1) else if Inside(2, t) then Over(2) else Outside
  }

  /** Whatever the telemetry, at most one enter equation is true, and each region's pair of
      equations reads off one shared position. */
  lemma EquationsReadPosition(r: nat, t: Telemetry)
    requires r < 3 && |t.enabled| == 3
    ensures Evaluation(Equation(30 + r), Measured(t)) == Fail <==> PositionOf(t) == Over(r)
    ensures Evaluation(Equation(33 + r), Measured(t)) == Fail <==> PositionOf(t) != Over(r)
  {
    EnterExactlyInside(r, t);
    LeaveOppositeOfEnter(r, Measured(t));
  }

  /** What each science actionpoint watches for. */
  predicate Holds(ap: nat, t: Telemetry)
    requires 25 <= ap <= 36 && |t.enabled| == 3
  {
    if ap == 25 then t.mode == 4
    else if ap == 26 then t.mode == 3
    else if ap == 27 then t.volts < 24240
    else if ap == 28 then t.volts > 24960
    else if ap == 29 then t.mode == 1
    else if ap <= 32 then PositionOf(t) == Over(ap - 30)
    else if ap <= 35 then PositionOf(t) != Over(ap - 33)
    else t.mode == 3 && t.deviceStatus != 0
  }

  /** Each of the twelve equations is true exactly when what its actionpoint watches for holds. */
  lemma EquationMeans(ap: nat, t: Telemetry)
    requires 25 <= ap <= 36 && |t.enabled| == 3
    ensures Evaluation(Equation(ap), Measured(t)) == Fail <==> Holds(ap, t)
  {
    hide Equation, Evaluation, Infix, Measured, PositionOf;
    if 30 <= ap <= 35 {
      EquationsReadPosition((ap - 30) % 3, t);
      assert (ap - 30) % 3 == if ap <= 32 then ap - 30 else ap - 33;
    } else {
      hide Holds;
      EquationsEncodeInfix(ap);
      EvaluationIsMeaning(Equation(ap), Infix(ap), Measured(t));
      InfixMeans(ap, t);
    }
  }

  lemma InfixMeans(ap: nat, t: Telemetry)
    requires (25 <= ap <= 29 || ap == 36) && |t.enabled| == 3
    ensures Meaning(Infix(ap), Measured(t)) == OfBool(Holds(ap, t))
  {
    if ap == 36 {
      assert Meaning(Infix(36), Measured(t)) == And(Measured(t)[26], Measured(t)[24]);
    }
  }

  /** Low power and recharged are never both true, and neither is true between the thresholds. */
  lemma BatteryHasHysteresis(t: Telemetry)
    requires |t.enabled| == 3
    ensures !(Evaluation(Equation(27), Measured(t)) == Fail && Evaluation(Equation(28), Measured(t)) == Fail)
    ensures 24240 <= t.volts <= 24960 <==>
            Evaluation(Equation(27), Measured(t)) != Fail && Evaluation(Equation(28), Measured(t)) != Fail
  {
    EquationMeans(27, t);
    EquationMeans(28, t);
    hide Evaluation, Equation;
  }

  // ------------------------------------------------------------ stack depth

  /** The walk reaches EQUAL with the stack never holding more than `limit` operands. */
  predicate FitsIn(eq: seq<nat>, i: nat, depth: nat, limit: nat)
    requires i <= |eq|
    decreases |eq| - i
  {
    depth <= limit && i < |eq| &&
    if eq[i] == EQUAL then true
    else if IsBinary(eq[i]) then depth > 1 && FitsIn(eq, i + 1, depth - 1, limit)
    else if eq[i] == NOT then depth > 0 && FitsIn(eq, i + 1, depth, limit)
    else FitsIn(eq, i + 1, depth + 1, limit)
  }

  /** Stack needed by the postfix form: the right operand is computed on top of the left. */
  function Need(e: Expr): (n: nat)
    ensures n >= 1
  {
    match e
    case Wp(_) => 1
    case Neg(x) => Need(x)
    case Op(_, l, r) => if Need(l) > Need(r) + 1 then Need(l) else Need(r) + 1
  }

  lemma {:induction false} PostfixFits(eq: seq<nat>, i: nat, e: Expr, depth: nat, limit: nat)
    requires WellFormed(e) && SpelledAt(eq, i, Postfix(e))
    ensures FitsIn(eq, i, depth, limit) <==>
            depth + Need(e) <= limit && FitsIn(eq, i + |Postfix(e)|, depth + 1, limit)
    decreases e
  {
    hide FitsIn, SpelledAt;
    match e
    case Wp(n) =>
      ItemFits(eq, i, n, depth, limit);
    case Neg(x) =>
      SpelledParts(eq, i, Postfix(x), [NOT]);
      PostfixFits(eq, i, x, depth, limit);
      ItemFits(eq, i + |Postfix(x)|, NOT, depth, limit);
    case Op(op, l, r) =>
      var m, k := i + |Postfix(l)|, i + |Postfix(l)| + |Postfix(r)|;
      SpelledParts(eq, i, Postfix(l) + Postfix(r), [op]);
      SpelledParts(eq, i, Postfix(l), Postfix(r));
      PostfixFits(eq, i, l, depth, limit);
      PostfixFits(eq, m, r, depth + 1, limit);
      ItemFits(eq, k, op, depth, limit);
      assert |Postfix(e)| == |Postfix(l)| + |Postfix(r)| + 1;
  }

  lemma ItemFits(eq: seq<nat>, k: nat, item: nat, depth: nat, limit: nat)
    requires SpelledAt(eq, k, [item])
    ensures item < MAX_WATCHPOINTS ==> (FitsIn(eq, k, depth, limit) <==> depth <= limit && FitsIn(eq, k + 1, depth + 1, limit))
    ensures item == NOT ==> (FitsIn(eq, k, depth + 1, limit) <==> depth + 1 <= limit && FitsIn(eq, k + 1, depth + 1, limit))
    ensures IsBinary(item) ==> (FitsIn(eq, k, depth + 2, limit) <==> depth + 2 <= limit && FitsIn(eq, k + 1, depth + 1, limit))
    ensures FitsIn(eq, k + 1, depth + 1, limit) ==> depth + 1 <= limit
  {
    assert eq[k..k + 1][0] == item;
  }

  lemma {:induction false} LeftAndNeed(first: nat, n: nat)
    requires 1 <= n && first + n <= MAX_WATCHPOINTS
    ensures WellFormed(LeftAnd(first, n)) && Need(LeftAnd(first, n)) == if n == 1 then 1 else 2
  {
    if n > 1 {
      LeftAndNeed(first, n - 1);
    }
  }

  /** A conjunction folded from the left, however long, evaluates in exactly two stack cells. */
  lemma LeftFoldNeedsTwo(eq: seq<nat>, first: nat, n: nat, limit: nat)
    requires 2 <= n && first + n <= MAX_WATCHPOINTS
    requires Encodes(eq, LeftAnd(first, n))
    ensures FitsIn(eq, 0, 0, limit) <==> limit >= 2
  {
    var e := LeftAnd(first, n);
    var k := |Postfix(e)|;
    assert eq[0..k + 1] == eq[..k + 1] == Postfix(e) + [EQUAL];
    SpelledParts(eq, 0, Postfix(e), [EQUAL]);
    PostfixFits(eq, 0, e, 0, limit);
    LeftAndNeed(first, n);
    assert eq[k..k + 1][0] == EQUAL;
  }
}
