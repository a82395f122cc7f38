/**
 Which requests broker/budget.py lets through, over every run: told by the requests it recorded
 before, in both directions.
 */
module BudgetAdmission {
  import opened Wrappers
  import opened Budget
  import opened BudgetWindows

  /** How many of `times` are not before `a`. */
  ghost function Since(times: seq<real>, a: real): nat {
    if times == [] then 0
    else Since(times[..|times| - 1], a) + if a <= times[|times| - 1] then 1 else 0
  }

  lemma {:induction false} SinceSplit(s: seq<real>, t: seq<real>, a: real)
    ensures Since(s + t, a) == Since(s, a) + Since(t, a)
  {
    if t == [] {
      assert s + t == s;
    } else {
      SinceSplit(s, t[..|t| - 1], a);
      assert (s + t)[..|s + t| - 1] == s + t[..|t| - 1];
    }
  }

  lemma {:induction false} SinceBounds(s: seq<real>, a: real)
    ensures AllBelow(s, a) ==> Since(s, a) == 0
    ensures (forall i | 0 <= i < |s| :: a <= s[i]) ==> Since(s, a) == |s|
  {
    if s != [] {
      SinceBounds(s[..|s| - 1], a);
    }
  }

  /** The counter of a window is the number of times recorded since it was opened. */
  lemma CountIsSince(limit: nat, reset: real, count: nat, times: seq<real>)
    requires Window(limit, reset, count, times)
    ensures Since(times, reset) == count
  {
    var k := |times| - count;
    assert times == times[..k] + times[k..];
    SinceSplit(times[..k], times[k..], reset);
    SinceBounds(times[..k], reset);
    SinceBounds(times[k..], reset);
  }

  /** The window of the target is less than an hour old, and `limit` requests were recorded in it. */
  ghost predicate TargetUsedUp(r: Run, m: Model, x: string, at: real, limit: nat) {
    && x in r.t.targets && at - r.t.targets[x].lastReset < 3600.0
    && Since(TargetTimes(r.events, m, x), r.t.targets[x].lastReset) >= limit
  }

  ghost predicate GlobalUsedUp(r: Run, at: real, limit: nat) {
    at - r.t.globalReset < 3600.0 && Since(GlobalTimes(r.events), r.t.globalReset) >= limit
  }

  ghost predicate ThreeActive(r: Run) {
    Sum(r.t.activeRequests) == 3
  }

  ghost predicate Admitted(r: Run, op: Op, r': Run)
    requires op.Admit?
  {
    r'.events == r.events + [Event(op.m, op.target, op.g2, op.n2)]
  }

  lemma TargetCounts(r: Run, x: string)
    requires Inv(r) && x in r.t.targets
    ensures var b := r.t.targets[x];
            && Since(TargetTimes(r.events, Deep, x), b.lastReset) == b.deep
            && Since(TargetTimes(r.events, Coder, x), b.lastReset) == b.coder
  {
    var b := r.t.targets[x];
    assert TargetOk(r.t.targets, r.events, x);
    CountIsSince(DEEP_PER_TARGET_PER_HOUR, b.lastReset, b.deep, TargetTimes(r.events, Deep, x));
    CountIsSince(CODER_PER_TARGET_PER_HOUR, b.lastReset, b.coder, TargetTimes(r.events, Coder, x));
  }

  lemma CheckExact(r: Run, op: Op)
    requires Inv(r) && op.Admit? && ClockAllows(r, op)
    ensures var r' := Do(r, op);
            && (Admitted(r, op, r') || r'.events == r.events)
            && (op.m.Coder? ==>
                  (Admitted(r, op, r') <==> !ThreeActive(r) && !TargetUsedUp(r, Coder, op.target, op.n1, 3)))
            && (op.m.Deep? ==>
                  (Admitted(r, op, r') <==>
                     !ThreeActive(r) && !TargetUsedUp(r, Deep, op.target, op.n1, 5) && !GlobalUsedUp(r, op.g1, 20)))
            && (!op.m.Coder? && !op.m.Deep? ==> Admitted(r, op, r') && r'.t == r.t)
  {
    assert |r.events + [Event(op.m, op.target, op.g2, op.n2)]| > |r.events|;
    if op.target in r.t.targets {
      TargetCounts(r, op.target);
    }
    CountIsSince(DEEP_GLOBAL_PER_HOUR, r.t.globalReset, r.t.globalDeep, GlobalTimes(r.events));
  }

  /**
   Admission, in every run: a request that is neither deep nor coder always passes and changes
   nothing. A coder request is refused exactly when three requests are active or three coder requests
   were recorded in the current window of its target; a deep one when three are active, or five
   were recorded for its target or twenty in all in the current windows.
   */
  lemma AdmissionExact(start: real, ops: seq<Op>, r: Run, op: Op)
    requires Executes(Run(Initial(start), [], start), ops, r) && op.Admit? && ClockAllows(r, op)
    ensures var r' := Do(r, op);
            && (Admitted(r, op, r') || r'.events == r.events)
            && (op.m.Coder? ==>
                  (Admitted(r, op, r') <==> !ThreeActive(r) && !TargetUsedUp(r, Coder, op.target, op.n1, 3)))
            && (op.m.Deep? ==>
                  (Admitted(r, op, r') <==>
                     !ThreeActive(r) && !TargetUsedUp(r, Deep, op.target, op.n1, 5) && !GlobalUsedUp(r, op.g1, 20)))
            && (!op.m.Coder? && !op.m.Deep? ==> Admitted(r, op, r') && r'.t == r.t)
  {
    InitialAgrees(start);
    RunKeeps(Run(Initial(start), [], start), ops, r);
    CheckExact(r, op);
  }
}
