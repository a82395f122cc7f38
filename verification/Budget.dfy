/** broker/budget.py and the limits of broker/config.py. */
module Budget {
  import opened Wrappers

  const DEEP_PER_TARGET_PER_HOUR: nat := 5
  const CODER_PER_TARGET_PER_HOUR: nat := 3
  const DEEP_GLOBAL_PER_HOUR: nat := 20
  const MAX_DEEP_CODER_CONCURRENCY: nat := 3
  const HOUR: real := 3600.0

  /** Model aliases; any other string reaches the same final `return True`. */
  datatype Model = Fast | Plan | Embed | Deep | Coder | Unlisted(name: string)

  predicate Limited(m: Model) {
    m.Deep? || m.Coder?
  }

  datatype BudgetState = BudgetState(deep: nat, coder: nat, lastReset: real)

  /** The fields of a BudgetTracker as one value. */
  datatype Tracker = Tracker(
    targets: map<string, BudgetState>,
    globalDeep: nat,
    globalReset: real,
    current: nat,
    activeTargets: map<string, nat>,
    activeRequests: map<(Model, string), nat>)

  function Initial(now: real): Tracker {
    Tracker(map[], 0, now, 0, map[], map[])
  }

  // ----- The operations as functions of the old state and the clock readings -----

  function ResetGlobal(t: Tracker, now: real): Tracker {
    if now - t.globalReset >= HOUR then t.(globalDeep := 0, globalReset := now) else t
  }

  /** The entry that `_get_target_budget` leaves behind. */
  function TargetEntry(t: Tracker, target: string, now: real): BudgetState {
    if target !in t.targets || now - t.targets[target].lastReset >= HOUR
    then BudgetState(0, 0, now)
    else t.targets[target]
  }

  function Touch(t: Tracker, target: string, now: real): Tracker {
    t.(targets := t.targets[target := TargetEntry(t, target, now)])
  }

  /** can_request: `g` and `n` are the readings for the global and the target window. */
  function CanRequest(t: Tracker, m: Model, target: string, g: real, n: real): (Tracker, bool) {
    match m
    case Deep =>
      var t1 := ResetGlobal(t, g);
      if t1.globalDeep >= DEEP_GLOBAL_PER_HOUR then (t1, false)
      else
        var t2 := Touch(t1, target, n);
        (t2, t2.targets[target].deep < DEEP_PER_TARGET_PER_HOUR && t2.current < MAX_DEEP_CODER_CONCURRENCY)
    case Coder =>
      var t1 := Touch(t, target, n);
      (t1, t1.targets[target].coder < CODER_PER_TARGET_PER_HOUR && t1.current < MAX_DEEP_CODER_CONCURRENCY)
    case _ => (t, true)
  }

  function Counted(b: BudgetState, m: Model): BudgetState {
    if m.Deep? then b.(deep := b.deep + 1) else b.(coder := b.coder + 1)
  }

  function Count(t: Tracker, m: Model, target: string, g: real, n: real): Tracker
    requires Limited(m)
  {
    var t1 := if m.Deep? then ResetGlobal(t, g) else t;
    t1.(globalDeep := if m.Deep? then t1.globalDeep + 1 else t1.globalDeep,
        targets := t.targets[target := Counted(TargetEntry(t, target, n), m)])
  }

  function Raise<K>(m: map<K, nat>, k: K): map<K, nat> {
    m[k := Get(m, k) + 1]
  }

  function Lower<K>(m: map<K, nat>, k: K): map<K, nat> {
    if Get(m, k) <= 1 then m - {k} else m[k := m[k] - 1]
  }

  function Activate(t: Tracker, m: Model, target: string): Tracker {
    t.(current := t.current + 1,
       activeRequests := Raise(t.activeRequests, (m, target)),
       activeTargets := Raise(t.activeTargets, target))
  }

  function Record(t: Tracker, m: Model, target: string, g: real, n: real): Tracker {
    if Limited(m) then Activate(Count(t, m, target, g, n), m, target) else t
  }

  function Release(t: Tracker, m: Model, target: string): Tracker {
    if !Limited(m) || Get(t.activeRequests, (m, target)) == 0 then t
    else t.(activeRequests := Lower(t.activeRequests, (m, target)),
            current := if t.current == 0 then 0 else t.current - 1,
            activeTargets := Lower(t.activeTargets, target))
  }

  // ----- The class, updated in place -----

  class BudgetTracker {
    var targets: map<string, BudgetState>
    var globalDeep: nat
    var globalReset: real
    var current: nat
    var activeTargets: map<string, nat>
    var activeRequests: map<(Model, string), nat>

    function State(): Tracker
      reads this
    {
      Tracker(targets, globalDeep, globalReset, current, activeTargets, activeRequests)
    }

    constructor (now: real)
      ensures State() == Initial(now)
    {
      targets, globalDeep, globalReset := map[], 0, now;
      current, activeTargets, activeRequests := 0, map[], map[];
    }

    method ResetGlobalBudget(now: real)
      modifies this`globalDeep, this`globalReset
      ensures State() == ResetGlobal(old(State()), now)
    {
      if now - globalReset >= HOUR {
        globalDeep, globalReset := 0, now;
      }
    }

    method GetTargetBudget(target: string, now: real) returns (b: BudgetState)
      modifies this`targets
      ensures State() == Touch(old(State()), target, now)
      ensures b == TargetEntry(old(State()), target, now)
    {
      if target !in targets || now - targets[target].lastReset >= HOUR {
        targets := targets[target := BudgetState(0, 0, now)];
      }
      b := targets[target];
      assert targets == old(targets)[target := b];
    }

    method Can(m: Model, target: string, g: real, n: real) returns (ok: bool)
      modifies this`targets, this`globalDeep, this`globalReset
      ensures (State(), ok) == CanRequest(old(State()), m, target, g, n)
    {
      if m.Deep? {
        ResetGlobalBudget(g);
        if globalDeep >= DEEP_GLOBAL_PER_HOUR {
          return false;
        }
        var b := GetTargetBudget(target, n);
        if b.deep >= DEEP_PER_TARGET_PER_HOUR {
          return false;
        }
      } else if m.Coder? {
        var b := GetTargetBudget(target, n);
        if b.coder >= CODER_PER_TARGET_PER_HOUR {
          return false;
        }
      }
      ok := !(Limited(m) && current >= MAX_DEEP_CODER_CONCURRENCY);
    }

    method CountRequest(m: Model, target: string, g: real, n: real)
      requires Limited(m)
      modifies this`targets, this`globalDeep, this`globalReset
      ensures State() == Count(old(State()), m, target, g, n)
    {
      if m.Deep? {
        ResetGlobalBudget(g);
        globalDeep := globalDeep + 1;
      }
      var b := GetTargetBudget(target, n);
      targets := targets[target := Counted(b, m)];
      assert targets == old(targets)[target := Counted(b, m)];
    }

    method RecordRequest(m: Model, target: string, g: real, n: real)
      modifies this
      ensures State() == Record(old(State()), m, target, g, n)
    {
      if !Limited(m) {
        return;
      }
      CountRequest(m, target, g, n);
      current := current + 1;
      activeRequests := Raise(activeRequests, (m, target));
      activeTargets := Raise(activeTargets, target);
    }

    method ReleaseRequest(m: Model, target: string)
      modifies this`current, this`activeTargets, this`activeRequests
      ensures State() == Release(old(State()), m, target)
    {
      if !Limited(m) {
        return;
      }
      var active := Get(activeRequests, (m, target));
      if active == 0 {
        return;
      }
      activeRequests := Lower(activeRequests, (m, target));
      current := if current == 0 then 0 else current - 1;
      activeTargets := Lower(activeTargets, target);
    }
  }

  // ----- Bookkeeping agreement -----

  /** The three counters of active work agree and no dead entry is kept. */
  ghost predicate Agree(t: Tracker) {
    && t.current == Sum(t.activeRequests) == Sum(t.activeTargets)
    && (forall k <- t.activeRequests :: Limited(k.0) && t.activeRequests[k] >= 1)
    && (forall x <- t.activeTargets :: t.activeTargets[x] >= 1)
    && (forall x :: Get(t.activeTargets, x)
                    == Get(t.activeRequests, (Deep, x)) + Get(t.activeRequests, (Coder, x)))
  }

  ghost predicate SameActive(t: Tracker, t': Tracker) {
    t.current == t'.current && t.activeTargets == t'.activeTargets && t.activeRequests == t'.activeRequests
  }

  lemma InitialAgrees(now: real)
    ensures Agree(Initial(now))
  {
  }

  lemma CountingKeepsActive(t: Tracker, m: Model, target: string, g: real, n: real)
    ensures SameActive(t, CanRequest(t, m, target, g, n).0)
    ensures Limited(m) ==> SameActive(t, Count(t, m, target, g, n))
  {
  }

  lemma RaiseSum<K(!new)>(m: map<K, nat>, k: K)
    ensures Sum(Raise(m, k)) == Sum(m) + 1
    ensures forall x :: Get(Raise(m, k), x) == if x == k then Get(m, k) + 1 else Get(m, x)
  {
    SumUpdate(m, k, Get(m, k) + 1);
  }

  lemma ActivateAgrees(t: Tracker, m: Model, target: string)
    requires Agree(t) && Limited(m)
    ensures Agree(Activate(t, m, target))
  {
    RaiseSum(t.activeRequests, (m, target));
    RaiseSum(t.activeTargets, target);
  }

  lemma RecordAgrees(t: Tracker, m: Model, target: string, g: real, n: real)
    requires Agree(t)
    ensures Agree(Record(t, m, target, g, n))
  {
    if Limited(m) {
      CountingKeepsActive(t, m, target, g, n);
      ActivateAgrees(Count(t, m, target, g, n), m, target);
    }
  }

  /** A release of an active request finds both counters positive, so the clamps never fire. */
  lemma ClampNeverFires(t: Tracker, m: Model, target: string)
    requires Agree(t) && Limited(m) && Get(t.activeRequests, (m, target)) >= 1
    ensures t.current >= 1 && Get(t.activeTargets, target) >= 1
    ensures Release(t, m, target).current == t.current - 1
  {
    SumRemove(t.activeRequests, (m, target));
  }

  lemma LowerSum<K(!new)>(m: map<K, nat>, k: K)
    requires Get(m, k) >= 1
    ensures Sum(Lower(m, k)) == Sum(m) - 1
    ensures forall x :: Get(Lower(m, k), x) == if x == k then Get(m, k) - 1 else Get(m, x)
  {
    SumRemove(m, k);
    if m[k] > 1 {
      SumUpdate(m, k, m[k] - 1);
    }
  }

  /** Holds for unmatched and duplicate releases too: they change nothing. */
  lemma ReleaseAgrees(t: Tracker, m: Model, target: string)
    requires Agree(t)
    ensures Agree(Release(t, m, target))
  {
    if Limited(m) && Get(t.activeRequests, (m, target)) >= 1 {
      ClampNeverFires(t, m, target);
      LowerSum(t.activeRequests, (m, target));
      LowerSum(t.activeTargets, target);
    }
  }

  lemma LowerUndoesRaise<K>(m: map<K, nat>, k: K)
    requires k in m ==> m[k] >= 1
    ensures Lower(Raise(m, k), k) == m
  {
    if k in m {
      assert m == m[k := m[k]];
    }
  }

  /** One batch entry: recording and then releasing restores the active state exactly. */
  lemma ReleaseUndoesRecord(t: Tracker, m: Model, target: string, g: real, n: real)
    requires Agree(t)
    ensures SameActive(t, Release(Record(t, m, target, g, n), m, target))
  {
    if Limited(m) {
      CountingKeepsActive(t, m, target, g, n);
      LowerUndoesRaise(t.activeRequests, (m, target));
      LowerUndoesRaise(t.activeTargets, target);
    }
  }
}
