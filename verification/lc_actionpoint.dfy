/** One actionpoint of the Limit Checker: what a sample does to its state and when it
    requests its command sequence. */
module LcActionpoint {
  import opened LcRpn
  import opened Widths

  datatype ApState = Active | Passive | Disabled | PermOff | NotUsed

  /** The part of an actionpoint results entry that decides requests. */
  datatype Entry = Entry(state: ApState, fails: nat)

  predicate Operational(s: ApState) { s == Active || s == Passive }

  /** One sample: the new entry, and whether the command sequence is requested. The
      consecutive-fail counter is a 32-bit unsigned integer. */
  function Sampled(e: Entry, maxFails: nat, lcActive: bool, r: Action): (Entry, bool)
  {
    if !Operational(e.state) then (e, false)
    else
      match r
      case Fail =>
        var fails := (e.fails + 1) % UINT32;
        if fails >= maxFails && e.state == Active
        then (Entry(Passive, fails), lcActive)
        else (Entry(e.state, fails), false)
      case Pass => (Entry(e.state, 0), false)
      case ActionStale => (Entry(e.state, 0), false)
      case ActionError => (e, false)
  }

  class Actionpoint {
    var state: ApState
    var actionResult: Action
    var consecutiveFails: nat
    var cumulativeFails: nat
    var passToFails: nat
    var failToPasses: nat
    var passiveFails: nat
    var rtsExecCount: nat
    const maxFailsBeforeRts: nat

    ghost function Contents(): Entry reads this { Entry(state, consecutiveFails) }

    constructor (defaultState: ApState, maxFails: nat)
      ensures Contents() == Entry(defaultState, 0) && maxFailsBeforeRts == maxFails && actionResult == ActionStale
      ensures cumulativeFails == passToFails == failToPasses == passiveFails == rtsExecCount == 0
    {
      state, actionResult := defaultState, ActionStale;
      consecutiveFails, cumulativeFails, passToFails, failToPasses, passiveFails, rtsExecCount := 0, 0, 0, 0, 0, 0;
      maxFailsBeforeRts := maxFails;
    }

    method Sample(current: Action, lcActive: bool) returns (request: bool)
      modifies this
      ensures (Contents(), request) == Sampled(old(Contents()), maxFailsBeforeRts, lcActive, current)
      ensures var sampled := old(state) == Active || old(state) == Passive;
        && actionResult == (if sampled then current else old(actionResult))
        && rtsExecCount == (if request then (old(rtsExecCount) + 1) % UINT32 else old(rtsExecCount))
        && cumulativeFails == (if sampled && current == Fail then (old(cumulativeFails) + 1) % UINT32 else old(cumulativeFails))
        && passToFails ==
           (if sampled && current == Fail && old(actionResult) == Pass then (old(passToFails) + 1) % UINT32 else old(passToFails))
        && failToPasses ==
           (if sampled && current == Pass && old(actionResult) == Fail then (old(failToPasses) + 1) % UINT32 else old(failToPasses))
      ensures passiveFails ==
        if old(state) == Passive && current == Fail && consecutiveFails >= maxFailsBeforeRts
        then (old(passiveFails) + 1) % UINT32 else old(passiveFails)
    {
      request := false;
      var currentState := state;
      if currentState == Active || currentState == Passive {
        var previous := actionResult;
        actionResult := current;
        if current == Fail {
          consecutiveFails := (consecutiveFails + 1) % UINT32;
          cumulativeFails := (cumulativeFails + 1) % UINT32;
          if previous == Pass {
            passToFails := (passToFails + 1) % UINT32;
          }
          if consecutiveFails >= maxFailsBeforeRts {
            if currentState == Active {
              state := Passive;
              if lcActive {
                request := true;
                rtsExecCount := (rtsExecCount + 1) % UINT32;
              }
            } else {
              passiveFails := (passiveFails + 1) % UINT32;
            }
          }
        } else if current == Pass {
          if previous == Fail {
            failToPasses := (failToPasses + 1) % UINT32;
          }
          consecutiveFails := 0;
        } else if current == ActionStale {
          consecutiveFails := 0;
        }
      }
    }
  }

  /** How many requests a series of samples makes, with no command in between. */
  function Requests(e: Entry, maxFails: nat, lcActive: bool, rs: seq<Action>): nat
    decreases |rs|
  {
    if rs == [] then 0
    else
      var (e', request) := Sampled(e, maxFails, lcActive, rs[0]);
      (if request then 1 else 0) + Requests(e', maxFails, lcActive, rs[1..])
  }

  function AfterAll(e: Entry, maxFails: nat, lcActive: bool, rs: seq<Action>): Entry
    decreases |rs|
  {
    if rs == [] then e else AfterAll(Sampled(e, maxFails, lcActive, rs[0]).0, maxFails, lcActive, rs[1..])
  }

  /** An actionpoint is one-shot: between two re-arming commands it requests its sequence at
      most once, only if it started active, and it is passive from then on. */
  lemma {:induction false} OneShot(e: Entry, maxFails: nat, lcActive: bool, rs: seq<Action>)
    ensures Requests(e, maxFails, lcActive, rs) <= if e.state == Active then 1 else 0
    ensures Requests(e, maxFails, lcActive, rs) > 0 ==> AfterAll(e, maxFails, lcActive, rs).state == Passive
    ensures e.state != Active ==> AfterAll(e, maxFails, lcActive, rs).state == e.state
    decreases |rs|
  {
    if rs != [] {
      OneShot(Sampled(e, maxFails, lcActive, rs[0]).0, maxFails, lcActive, rs[1..]);
    }
  }

  /** With the table's limit of one fail, a sample requests the sequence exactly when the
      actionpoint is active, Limit Checker is active and the equation is true, unless the
      fail counter stands at its 32-bit maximum and so wraps to zero on this very sample. */
  lemma RequestExactly(e: Entry, lcActive: bool, r: Action)
    requires e.fails < 0x1_0000_0000
    ensures Sampled(e, 1, lcActive, r).1 <==>
            e.state == Active && lcActive && r == Fail && e.fails != 0xFFFF_FFFF
  {
    if e.fails == UINT32 - 1 {
      assert (e.fails + 1) % UINT32 == 0;
    } else {
      assert (e.fails + 1) % UINT32 == e.fails + 1;
    }
  }

  // ------------------------------------------------------------ consecutive fails

  lemma {:induction false} AfterAllMore(e: Entry, maxFails: nat, lcActive: bool, rs: seq<Action>, r: Action)
    ensures AfterAll(e, maxFails, lcActive, rs + [r]) == Sampled(AfterAll(e, maxFails, lcActive, rs), maxFails, lcActive, r).0
    ensures Requests(e, maxFails, lcActive, rs + [r]) ==
            Requests(e, maxFails, lcActive, rs) + if Sampled(AfterAll(e, maxFails, lcActive, rs), maxFails, lcActive, r).1 then 1 else 0
    decreases |rs|
  {
    if rs == [] {
      assert ([] + [r])[1..] == [];
    } else {
      assert (rs + [r])[0] == rs[0] && (rs + [r])[1..] == rs[1..] + [r];
      AfterAllMore(Sampled(e, maxFails, lcActive, rs[0]).0, maxFails, lcActive, rs[1..], r);
    }
  }

  lemma {:induction false} StaysOperational(e: Entry, maxFails: nat, lcActive: bool, rs: seq<Action>)
    ensures Operational(AfterAll(e, maxFails, lcActive, rs).state) <==> Operational(e.state)
    ensures AfterAll(e, maxFails, lcActive, rs).state == Active ==> e.state == Active
    decreases |rs|
  {
    if rs != [] {
      StaysOperational(Sampled(e, maxFails, lcActive, rs[0]).0, maxFails, lcActive, rs[1..]);
    }
  }

  /** After any series of samples the count is the number of fails since the last pass or stale
      result, errors not counting, and the count at the start besides if there was none. */
  lemma {:induction false} FailsSince(e: Entry, maxFails: nat, lcActive: bool, rs: seq<Action>, from: nat)
    requires Operational(e.state) && e.fails + |rs| < 0x1_0000_0000 && from <= |rs|
    requires (from > 0 ==> rs[from - 1] == Pass || rs[from - 1] == ActionStale)
    requires forall j :: from <= j < |rs| ==> rs[j] == Fail || rs[j] == ActionError
    ensures AfterAll(e, maxFails, lcActive, rs).fails == multiset(rs[from..])[Fail] + if from == 0 then e.fails else 0
    decreases |rs|
  {
    hide AfterAll, Requests, Sampled, Operational;
    if rs == [] {
      NoSamples(e, maxFails, lcActive);
    } else {
      var init, r := rs[..|rs| - 1], rs[|rs| - 1];
      assert rs == init + [r];
      AfterAllMore(e, maxFails, lcActive, init, r);
      StaysOperational(e, maxFails, lcActive, init);
      FailsBounded(e, maxFails, lcActive, init);
      SampledFails(AfterAll(e, maxFails, lcActive, init), maxFails, lcActive, r);
      if from < |rs| {
        FailsSince(e, maxFails, lcActive, init, from);
        assert rs[from..] == init[from..] + [r];
      } else {
        assert multiset(rs[from..])[Fail] == 0;
      }
    }
  }

  lemma NoSamples(e: Entry, maxFails: nat, lcActive: bool)
    ensures AfterAll(e, maxFails, lcActive, []) == e && Requests(e, maxFails, lcActive, []) == 0
  {
  }

  lemma SampledFails(e: Entry, maxFails: nat, lcActive: bool, r: Action)
    requires Operational(e.state) && e.fails + 1 < 0x1_0000_0000
    ensures Sampled(e, maxFails, lcActive, r).0.fails == if r == Fail then e.fails + 1 else if r == ActionError then e.fails else 0
  {
  }

  lemma {:induction false} FailsBounded(e: Entry, maxFails: nat, lcActive: bool, rs: seq<Action>)
    requires e.fails + |rs| < 0x1_0000_0000
    ensures AfterAll(e, maxFails, lcActive, rs).fails <= e.fails + |rs|
    decreases |rs|
  {
    if rs != [] {
      FailsBounded(Sampled(e, maxFails, lcActive, rs[0]).0, maxFails, lcActive, rs[1..]);
    }
  }

  /** Somewhere in the series enough fails have come, the last of them now, with no pass or stale
      result in between. */
  ghost predicate Overdue(fails: nat, maxFails: nat, rs: seq<Action>)
  {
    exists i: nat, k: nat :: i < k <= |rs| && OverdueAt(fails, maxFails, rs, i, k)
  }

  /** ... and so it is at the `k`th sample. */
  predicate OverdueBy(fails: nat, maxFails: nat, rs: seq<Action>, k: nat)
    requires k <= |rs|
  {
    exists i: nat :: i < k && OverdueAt(fails, maxFails, rs, i, k)
  }

  predicate OverdueAt(fails: nat, maxFails: nat, rs: seq<Action>, i: nat, k: nat)
    requires i < k <= |rs|
  {
    && (forall j :: i <= j < k ==> rs[j] == Fail || rs[j] == ActionError) && rs[k - 1] == Fail
    && multiset(rs[i..k])[Fail] + (if i == 0 then fails else 0) >= maxFails
  }

  /** Where the fails of the current stretch begin: after the last pass or stale result. */
  lemma {:induction false} LastClear(rs: seq<Action>) returns (from: nat)
    ensures from <= |rs| && (from > 0 ==> rs[from - 1] == Pass || rs[from - 1] == ActionStale)
    ensures forall j :: from <= j < |rs| ==> rs[j] == Fail || rs[j] == ActionError
  {
    from := |rs|;
    if rs != [] && rs[|rs| - 1] != Pass && rs[|rs| - 1] != ActionStale {
      from := LastClear(rs[..|rs| - 1]);
    }
  }

  lemma {:induction false} FewerFails(rs: seq<Action>, i: nat, j: nat)
    requires i <= j <= |rs|
    ensures multiset(rs[j..])[Fail] <= multiset(rs[i..])[Fail]
  {
    assert rs[i..] == rs[i..j] + rs[j..];
  }

  /** At its last sample a series is overdue exactly if its current stretch of fails is. */
  lemma OverdueByStretch(fails: nat, maxFails: nat, rs: seq<Action>, r: Action, from: nat)
    requires from <= |rs| && (from > 0 ==> rs[from - 1] == Pass || rs[from - 1] == ActionStale)
    requires forall j :: from <= j < |rs| ==> rs[j] == Fail || rs[j] == ActionError
    ensures OverdueBy(fails, maxFails, rs + [r], |rs| + 1) <==>
            r == Fail && multiset(rs[from..])[Fail] + 1 + (if from == 0 then fails else 0) >= maxFails
  {
    var all, k := rs + [r], |rs| + 1;
    assert all[from..k] == rs[from..] + [r];
    assert forall j :: 0 <= j < |rs| ==> all[j] == rs[j];
    if r == Fail && multiset(rs[from..])[Fail] + 1 + (if from == 0 then fails else 0) >= maxFails {
      assert OverdueAt(fails, maxFails, all, from, k);
    }
    if i: nat :| i < k && OverdueAt(fails, maxFails, all, i, k) {
      LateStretch(fails, maxFails, rs, r, from, i);
    }
  }

  lemma LateStretch(fails: nat, maxFails: nat, rs: seq<Action>, r: Action, from: nat, i: nat)
    requires from <= |rs| && (from > 0 ==> rs[from - 1] == Pass || rs[from - 1] == ActionStale)
    requires i <= |rs| && OverdueAt(fails, maxFails, rs + [r], i, |rs| + 1)
    ensures r == Fail && multiset(rs[from..])[Fail] + 1 + (if from == 0 then fails else 0) >= maxFails
  {
    var all := rs + [r];
    assert all[|rs|] == r && (from > 0 ==> all[from - 1] == rs[from - 1]);
    assert all[i..|rs| + 1] == rs[i..] + [r];
    FewerFails(rs, from, i);
  }

  lemma ActiveRequests(e: Entry, maxFails: nat, r: Action)
    requires e.state == Active && e.fails + 1 < 0x1_0000_0000
    ensures Sampled(e, maxFails, true, r).1 <==> r == Fail && e.fails + 1 >= maxFails
  {
  }

  /** An active actionpoint requests with the first sample that makes it overdue. */
  lemma RequestIfOverdueNow(e: Entry, maxFails: nat, rs: seq<Action>, r: Action)
    requires e.state == Active && e.fails + |rs| + 1 < 0x1_0000_0000 && AfterAll(e, maxFails, true, rs).state == Active
    ensures Sampled(AfterAll(e, maxFails, true, rs), maxFails, true, r).1 <==>
            OverdueBy(e.fails, maxFails, rs + [r], |rs| + 1)
  {
    hide AfterAll, Requests, Sampled, OverdueBy;
    FailsBounded(e, maxFails, true, rs);
    var from := LastClear(rs);
    FailsSince(e, maxFails, true, rs, from);
    OverdueByStretch(e.fails, maxFails, rs, r, from);
    ActiveRequests(AfterAll(e, maxFails, true, rs), maxFails, r);
  }

  lemma OverdueMore(fails: nat, maxFails: nat, rs: seq<Action>, r: Action)
    ensures Overdue(fails, maxFails, rs + [r]) <==>
      Overdue(fails, maxFails, rs) || OverdueBy(fails, maxFails, rs + [r], |rs| + 1)
  {
    var all := rs + [r];
    forall i: nat, k: nat | i < k <= |rs| ensures OverdueAt(fails, maxFails, all, i, k) <==> OverdueAt(fails, maxFails, rs, i, k) {
      assert all[i..k] == rs[i..k];
      assert forall j :: i <= j < k ==> all[j] == rs[j];
    }
    if i: nat, k: nat :| i < k <= |rs| && OverdueAt(fails, maxFails, rs, i, k) {
      assert OverdueAt(fails, maxFails, all, i, k);
    }
  }

  /** For every limit: over a series of samples too short to wrap the counter an active actionpoint
      requests its sequence, once, if and only if at some sample so many fails have come with no pass
      or stale result in between; and that is when it turns passive. */
  lemma {:induction false} RequestsIffOverdue(e: Entry, maxFails: nat, rs: seq<Action>)
    requires e.state == Active && e.fails + |rs| < 0x1_0000_0000
    ensures Requests(e, maxFails, true, rs) == if Overdue(e.fails, maxFails, rs) then 1 else 0
    ensures AfterAll(e, maxFails, true, rs).state == if Overdue(e.fails, maxFails, rs) then Passive else Active
    decreases |rs|
  {
    hide AfterAll, Requests, Sampled, Overdue, OverdueAt;
    if rs == [] {
      NoSamples(e, maxFails, true);
      NeverOverdue(e.fails, maxFails);
    } else {
      var init, r := rs[..|rs| - 1], rs[|rs| - 1];
      assert rs == init + [r];
      RequestsIffOverdue(e, maxFails, init);
      AfterAllMore(e, maxFails, true, init, r);
      OverdueMore(e.fails, maxFails, init, r);
      var last := AfterAll(e, maxFails, true, init);
      RequestTurnsPassive(last, maxFails, r);
      if last.state == Active {
        RequestIfOverdueNow(e, maxFails, init, r);
      }
    }
  }

  lemma NeverOverdue(fails: nat, maxFails: nat)
    ensures !Overdue(fails, maxFails, [])
  {
  }

  lemma RequestTurnsPassive(e: Entry, maxFails: nat, r: Action)
    ensures var (e', request) := Sampled(e, maxFails, true, r);
      && (request ==> e.state == Active)
      && e'.state == if request then Passive else e.state
  {
  }

  /** With Limit Checker itself passive nothing is requested, but every actionpoint changes state and
      count as if it were; a disabled or unused actionpoint is left alone. */
  lemma {:induction false} PassiveLimitChecker(e: Entry, maxFails: nat, rs: seq<Action>)
    ensures Requests(e, maxFails, false, rs) == 0
    ensures AfterAll(e, maxFails, false, rs) == AfterAll(e, maxFails, true, rs)
    ensures e.state != Active && e.state != Passive ==> AfterAll(e, maxFails, true, rs) == e
    decreases |rs|
  {
    if rs != [] {
      PassiveLimitChecker(Sampled(e, maxFails, true, rs[0]).0, maxFails, rs[1..]);
    }
  }

  /** Over a whole series of samples too short to wrap the counter, an active actionpoint with
      limit one requests its sequence if and only if its equation is ever true. */
  lemma {:induction false} RequestsIffEverTrue(e: Entry, rs: seq<Action>)
    requires e.state == Active && e.fails + |rs| < UINT32
    ensures Requests(e, 1, true, rs) == if Fail in rs then 1 else 0
    decreases |rs|
  {
    if rs != [] {
      var (e', request) := Sampled(e, 1, true, rs[0]);
      RequestExactly(e, true, rs[0]);
      if request {
        OneShot(e', 1, true, rs[1..]);
      } else {
        assert rs[0] != Fail && rs == [rs[0]] + rs[1..];
        RequestsIffEverTrue(e', rs[1..]);
      }
    }
  }
}
