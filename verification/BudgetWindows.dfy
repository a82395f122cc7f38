/**
 What the lazily reset fixed windows of broker/budget.py amount to over any stretch of one
 hour, for every sequence of check-then-record uses and releases under a clock that never
 runs backwards.
 */
module BudgetWindows {
  import opened Wrappers
  import opened Budget

  // ----- One window with the times of everything it ever counted -----

  /** How many of `times` fall in the half-open hour starting at `a`. */
  ghost function InHour(times: seq<real>, a: real): nat {
    if times == [] then 0
    else
      InHour(times[..|times| - 1], a) + if a <= times[|times| - 1] < a + HOUR then 1 else 0
  }

  lemma {:induction false} InHourSplit(s: seq<real>, t: seq<real>, a: real)
    ensures InHour(s + t, a) == InHour(s, a) + InHour(t, a)
  {
    if t == [] {
      assert s + t == s;
    } else {
      InHourSplit(s, t[..|t| - 1], a);
      assert (s + t)[..|s + t| - 1] == s + t[..|t| - 1];
    }
  }

  ghost predicate AllBelow(s: seq<real>, r: real) {
    forall i | 0 <= i < |s| :: s[i] < r
  }

  lemma {:induction false} InHourBounds(s: seq<real>, a: real)
    ensures InHour(s, a) <= |s|
    ensures AllBelow(s, a) ==> InHour(s, a) == 0
  {
    if s != [] {
      InHourBounds(s[..|s| - 1], a);
    }
  }

  /** Among times below `r`, a later-starting hour catches no more than the hour just before `r`. */
  lemma {:induction false} InHourBefore(s: seq<real>, a: real, r: real)
    requires AllBelow(s, r)
    requires a >= r - HOUR
    ensures InHour(s, a) <= InHour(s, r - HOUR)
  {
    if s != [] {
      InHourBefore(s[..|s| - 1], a, r);
    }
  }

  /**
   The last `count` times belong to the window opened at `reset`, all others are older, the hour
   before `reset` holds at most `limit`, and no hour at all holds more than twice `limit`.
   */
  ghost predicate Window(limit: nat, reset: real, count: nat, times: seq<real>) {
    && count <= limit
    && count <= |times|
    && AllBelow(times[..|times| - count], reset)
    && AllBelow(times[|times| - count..], reset + HOUR)
    && (forall i | |times| - count <= i < |times| :: reset <= times[i])
    && InHour(times[..|times| - count], reset - HOUR) <= limit
    && (forall a :: InHour(times, a) <= 2 * limit)
  }

  lemma WindowReset(limit: nat, reset: real, count: nat, times: seq<real>, now: real)
    requires Window(limit, reset, count, times)
    requires now - reset >= HOUR
    ensures Window(limit, now, 0, times)
  {
    var k := |times| - count;
    assert times == times[..k] + times[k..] == times[..|times| - 0];
    InHourSplit(times[..k], times[k..], now - HOUR);
    InHourBounds(times[..k], now - HOUR);
    InHourBounds(times[k..], now - HOUR);
  }

  lemma WindowCount(limit: nat, reset: real, count: nat, times: seq<real>, now: real)
    requires Window(limit, reset, count, times)
    requires count < limit && reset <= now < reset + HOUR
    ensures Window(limit, reset, count + 1, times + [now])
  {
    var k := |times| - count;
    var past, open := times[..k], times[k..];
    assert times == past + open;
    assert (times + [now])[..k] == past && (times + [now])[k..] == open + [now];
    forall a
      ensures InHour(times + [now], a) <= 2 * limit
    {
      assert (times + [now])[..|times|] == times;
      if a <= now < a + HOUR {
        InHourSplit(past, open, a);
        InHourBounds(open, a);
        InHourBefore(past, a, reset);
      }
    }
  }

  // ----- Runs -----

  /** A request that is checked and, if allowed, recorded; or the end of a request. */
  datatype Op =
    | Admit(m: Model, target: string, g1: real, n1: real, g2: real, n2: real)
    | End(m: Model, target: string)

  /** A recorded request with the clock readings of the global and the target window. */
  datatype Event = Event(m: Model, target: string, g: real, n: real)

  datatype Run = Run(t: Tracker, events: seq<Event>, now: real)

  predicate ClockAllows(r: Run, op: Op) {
    op.Admit? ==> r.now <= op.g1 <= op.n1 <= op.g2 <= op.n2
  }

  function Do(r: Run, op: Op): Run {
    match op
    case Admit(m, target, g1, n1, g2, n2) =>
      var (t, ok) := CanRequest(r.t, m, target, g1, n1);
      if ok then Run(Record(t, m, target, g2, n2), r.events + [Event(m, target, g2, n2)], n2)
      else Run(t, r.events, n2)
    case End(m, target) => r.(t := Release(r.t, m, target))
  }

  ghost predicate Executes(r: Run, ops: seq<Op>, r': Run)
    decreases |ops|
  {
    if ops == [] then r == r'
    else ClockAllows(r, ops[0]) && Executes(Do(r, ops[0]), ops[1..], r')
  }

  function GlobalTimes(events: seq<Event>): seq<real> {
    if events == [] then []
    else
      var e := events[|events| - 1];
      GlobalTimes(events[..|events| - 1]) + if e.m == Deep then [e.g] else []
  }

  function TargetTimes(events: seq<Event>, m: Model, target: string): seq<real> {
    if events == [] then []
    else
      var e := events[|events| - 1];
      TargetTimes(events[..|events| - 1], m, target) + if e.m == m && e.target == target then [e.n] else []
  }

  ghost predicate TargetWindows(b: BudgetState, events: seq<Event>, x: string) {
    && Window(DEEP_PER_TARGET_PER_HOUR, b.lastReset, b.deep, TargetTimes(events, Deep, x))
    && Window(CODER_PER_TARGET_PER_HOUR, b.lastReset, b.coder, TargetTimes(events, Coder, x))
  }

  ghost predicate Unused(events: seq<Event>, x: string) {
    TargetTimes(events, Deep, x) == TargetTimes(events, Coder, x) == []
  }

  ghost predicate TargetOk(targets: map<string, BudgetState>, events: seq<Event>, x: string) {
    if x in targets then TargetWindows(targets[x], events, x) else Unused(events, x)
  }

  ghost predicate TargetsOk(targets: map<string, BudgetState>, events: seq<Event>, now: real) {
    && (forall x <- targets :: targets[x].lastReset <= now)
    && (forall x :: TargetOk(targets, events, x))
  }

  /** The windows of a tracker describe its history, and no reset lies in the future. */
  ghost predicate Windows(t: Tracker, events: seq<Event>, now: real) {
    && t.globalReset <= now
    && Window(DEEP_GLOBAL_PER_HOUR, t.globalReset, t.globalDeep, GlobalTimes(events))
    && TargetsOk(t.targets, events, now)
  }

  ghost predicate Inv(r: Run) {
    && Windows(r.t, r.events, r.now)
    && Agree(r.t)
    && r.t.current <= MAX_DEEP_CODER_CONCURRENCY
  }

  lemma WindowsLater(t: Tracker, events: seq<Event>, now: real, n: real)
    requires Windows(t, events, now) && now <= n
    ensures Windows(t, events, n)
  {
  }

  lemma GlobalResetKeeps(t: Tracker, events: seq<Event>, now: real, g: real)
    requires Windows(t, events, now) && now <= g
    ensures Windows(ResetGlobal(t, g), events, g)
    ensures g < ResetGlobal(t, g).globalReset + HOUR
  {
    if g - t.globalReset >= HOUR {
      WindowReset(DEEP_GLOBAL_PER_HOUR, t.globalReset, t.globalDeep, GlobalTimes(events), g);
    }
  }

  lemma TouchKeeps(t: Tracker, events: seq<Event>, now: real, x: string, n: real)
    requires Windows(t, events, now) && now <= n
    ensures Windows(Touch(t, x, n), events, n)
    ensures n < TargetEntry(t, x, n).lastReset + HOUR
  {
    assert TargetOk(t.targets, events, x);
    forall y | y != x
      ensures TargetOk(Touch(t, x, n).targets, events, y)
    {
      assert TargetOk(t.targets, events, y);
    }
    if x !in t.targets {
    } else if n - t.targets[x].lastReset >= HOUR {
      var b := t.targets[x];
      WindowReset(DEEP_PER_TARGET_PER_HOUR, b.lastReset, b.deep, TargetTimes(events, Deep, x), n);
      WindowReset(CODER_PER_TARGET_PER_HOUR, b.lastReset, b.coder, TargetTimes(events, Coder, x), n);
    }
  }

  lemma DeepCheckKeeps(t: Tracker, events: seq<Event>, now: real, x: string, g: real, n: real)
    requires Windows(t, events, now) && now <= g <= n
    ensures Windows(ResetGlobal(t, g), events, n)
    ensures Windows(Touch(ResetGlobal(t, g), x, n), events, n)
  {
    var t1 := ResetGlobal(t, g);
    GlobalResetKeeps(t, events, now, g);
    WindowsLater(t1, events, g, n);
    TouchKeeps(t1, events, g, x, n);
  }

  /** What a check resets, and nothing more. */
  lemma CheckResets(t: Tracker, m: Model, x: string, g: real, n: real, t': Tracker)
    requires t' == CanRequest(t, m, x, g, n).0
    ensures m.Deep? ==> t' == ResetGlobal(t, g) || t' == Touch(ResetGlobal(t, g), x, n)
    ensures m.Coder? ==> t' == Touch(t, x, n)
    ensures !Limited(m) ==> t' == t
  {
  }

  lemma CheckKeeps(t: Tracker, events: seq<Event>, now: real, m: Model, x: string, g: real, n: real, t': Tracker)
    requires Windows(t, events, now) && now <= g <= n && t' == CanRequest(t, m, x, g, n).0
    ensures Windows(t', events, n)
  {
    CheckResets(t, m, x, g, n, t');
    if m.Deep? {
      DeepCheckKeeps(t, events, now, x, g, n);
    } else if m.Coder? {
      TouchKeeps(t, events, now, x, n);
    } else {
      WindowsLater(t, events, now, n);
    }
  }

  /** An allowed request finds every counter it will raise below its limit. */
  lemma AllowedIsBelow(t: Tracker, m: Model, x: string, g: real, n: real)
    requires CanRequest(t, m, x, g, n).1 && Limited(m)
    ensures
      var t' := CanRequest(t, m, x, g, n).0;
      && x in t'.targets && t'.current < MAX_DEEP_CODER_CONCURRENCY
      && (m.Deep? ==> t'.globalDeep < DEEP_GLOBAL_PER_HOUR && t'.targets[x].deep < DEEP_PER_TARGET_PER_HOUR)
      && (m.Coder? ==> t'.targets[x].coder < CODER_PER_TARGET_PER_HOUR)
  {
  }

  /** A recorded request adds one time to the windows it is counted in and none to any other. */
  lemma AddEvent(events: seq<Event>, e: Event)
    ensures GlobalTimes(events + [e]) == GlobalTimes(events) + if e.m == Deep then [e.g] else []
  {
    assert (events + [e])[..|events|] == events;
  }

  lemma AddTargetEvent(events: seq<Event>, e: Event, m: Model, x: string)
    ensures TargetTimes(events + [e], m, x)
            == TargetTimes(events, m, x) + if e.m == m && e.target == x then [e.n] else []
  {
    assert (events + [e])[..|events|] == events;
  }

  lemma OtherTargetKeeps(before: map<string, BudgetState>, after: map<string, BudgetState>,
                         events: seq<Event>, e: Event, x: string)
    requires TargetOk(before, events, x)
    requires !Limited(e.m) || x != e.target
    requires if x in before then x in after && after[x] == before[x] else x !in after
    ensures TargetOk(after, events + [e], x)
  {
    AddTargetEvent(events, e, Deep, x);
    AddTargetEvent(events, e, Coder, x);
    assert TargetTimes(events + [e], Deep, x) == TargetTimes(events, Deep, x);
    assert TargetTimes(events + [e], Coder, x) == TargetTimes(events, Coder, x);
  }

  lemma CountedTargetKeeps(b: BudgetState, events: seq<Event>, e: Event)
    requires Limited(e.m) && TargetWindows(b, events, e.target)
    requires b.lastReset <= e.n < b.lastReset + HOUR
    requires e.m.Deep? ==> b.deep < DEEP_PER_TARGET_PER_HOUR
    requires e.m.Coder? ==> b.coder < CODER_PER_TARGET_PER_HOUR
    ensures TargetWindows(Counted(b, e.m), events + [e], e.target)
  {
    AddTargetEvent(events, e, Deep, e.target);
    AddTargetEvent(events, e, Coder, e.target);
    if e.m.Deep? {
      WindowCount(DEEP_PER_TARGET_PER_HOUR, b.lastReset, b.deep, TargetTimes(events, Deep, e.target), e.n);
      assert TargetTimes(events + [e], Coder, e.target) == TargetTimes(events, Coder, e.target);
    } else {
      WindowCount(CODER_PER_TARGET_PER_HOUR, b.lastReset, b.coder, TargetTimes(events, Coder, e.target), e.n);
      assert TargetTimes(events + [e], Deep, e.target) == TargetTimes(events, Deep, e.target);
    }
  }

  lemma UnlimitedKeeps(t: Tracker, events: seq<Event>, now: real, e: Event)
    requires Windows(t, events, now) && !Limited(e.m) && now <= e.n
    ensures Windows(t, events + [e], e.n)
  {
    AddEvent(events, e);
    assert GlobalTimes(events + [e]) == GlobalTimes(events);
    forall x
      ensures TargetOk(t.targets, events + [e], x)
    {
      OtherTargetKeeps(t.targets, t.targets, events, e, x);
    }
  }

  lemma CountedTargetsKeep(targets: map<string, BudgetState>, b: BudgetState, events: seq<Event>, e: Event)
    requires TargetsOk(targets, events, e.n) && e.target in targets && targets[e.target] == b
    requires Limited(e.m) && e.n < b.lastReset + HOUR
    requires e.m.Deep? ==> b.deep < DEEP_PER_TARGET_PER_HOUR
    requires e.m.Coder? ==> b.coder < CODER_PER_TARGET_PER_HOUR
    ensures TargetsOk(targets[e.target := Counted(b, e.m)], events + [e], e.n)
  {
    var targets' := targets[e.target := Counted(b, e.m)];
    forall x
      ensures TargetOk(targets', events + [e], x)
    {
      assert TargetOk(targets, events, x);
      if x == e.target {
        CountedTargetKeeps(b, events, e);
      } else {
        OtherTargetKeeps(targets, targets', events, e, x);
      }
    }
  }

  lemma CountKeeps(t: Tracker, events: seq<Event>, now: real, e: Event)
    requires Windows(t, events, now) && Limited(e.m) && now <= e.g <= e.n
    requires e.m.Deep? ==> t.globalDeep < DEEP_GLOBAL_PER_HOUR
    requires e.target in t.targets
    requires e.m.Deep? ==> t.targets[e.target].deep < DEEP_PER_TARGET_PER_HOUR
    requires e.m.Coder? ==> t.targets[e.target].coder < CODER_PER_TARGET_PER_HOUR
    ensures Windows(Count(t, e.m, e.target, e.g, e.n), events + [e], e.n)
  {
    TouchKeeps(t, events, now, e.target, e.n);
    var entry, touched := TargetEntry(t, e.target, e.n), Touch(t, e.target, e.n).targets;
    CountedTargetsKeep(touched, entry, events, e);
    assert touched[e.target := Counted(entry, e.m)] == t.targets[e.target := Counted(entry, e.m)];
    AddEvent(events, e);
    if e.m.Deep? {
      var t1 := ResetGlobal(t, e.g);
      GlobalResetKeeps(t, events, now, e.g);
      WindowCount(DEEP_GLOBAL_PER_HOUR, t1.globalReset, t1.globalDeep, GlobalTimes(events), e.g);
    } else {
      assert GlobalTimes(events + [e]) == GlobalTimes(events);
    }
  }

  lemma AdmitKeeps(r: Run, op: Op)
    requires Inv(r) && op.Admit? && ClockAllows(r, op)
    ensures Inv(Do(r, op))
  {
    var Admit(m, x, g1, n1, g2, n2) := op;
    var (t, ok) := CanRequest(r.t, m, x, g1, n1);
    CheckKeeps(r.t, r.events, r.now, m, x, g1, n1, t);
    CountingKeepsActive(r.t, m, x, g1, n1);
    assert Agree(t);
    if ok {
      var e := Event(m, x, g2, n2);
      RecordAgrees(t, m, x, g2, n2);
      if Limited(m) {
        AllowedIsBelow(r.t, m, x, g1, n1);
        CountKeeps(t, r.events, n1, e);
        CountingKeepsActive(t, m, x, g2, n2);
      } else {
        UnlimitedKeeps(t, r.events, n1, e);
      }
    }
  }

  lemma EndKeeps(r: Run, op: Op)
    requires Inv(r) && op.End?
    ensures Inv(Do(r, op))
  {
    ReleaseAgrees(r.t, op.m, op.target);
  }

  lemma {:induction false} RunKeeps(r: Run, ops: seq<Op>, r': Run)
    requires Inv(r) && Executes(r, ops, r')
    ensures Inv(r')
    decreases |ops|
  {
    if ops != [] {
      if ops[0].Admit? {
        AdmitKeeps(r, ops[0]);
      } else {
        EndKeeps(r, ops[0]);
      }
      RunKeeps(Do(r, ops[0]), ops[1..], r');
    }
  }

  /** Every run: window limits, twice the limit in any sliding hour, and at most three at once. */
  lemma SlidingHourBound(start: real, ops: seq<Op>, r: Run)
    requires Executes(Run(Initial(start), [], start), ops, r)
    ensures r.t.globalDeep <= 20 && r.t.current <= 3
    ensures forall x <- r.t.targets :: r.t.targets[x].deep <= 5 && r.t.targets[x].coder <= 3
    ensures forall a :: InHour(GlobalTimes(r.events), a) <= 40
    ensures forall x, a :: InHour(TargetTimes(r.events, Deep, x), a) <= 10
    ensures forall x, a :: InHour(TargetTimes(r.events, Coder, x), a) <= 6
    ensures r.t.current == Sum(r.t.activeRequests) == Sum(r.t.activeTargets)
  {
    InitialAgrees(start);
    RunKeeps(Run(Initial(start), [], start), ops, r);
    forall x <- r.t.targets
      ensures r.t.targets[x].deep <= 5 && r.t.targets[x].coder <= 3
    {
      assert TargetOk(r.t.targets, r.events, x);
    }
    forall x, a
      ensures InHour(TargetTimes(r.events, Deep, x), a) <= 10
      ensures InHour(TargetTimes(r.events, Coder, x), a) <= 6
    {
      assert TargetOk(r.t.targets, r.events, x);
    }
  }

  // ----- The bounds are reached -----

  /** The hour that counts begins one second before the first windows end. */
  const LAST_SECOND: real := 3599.0

  lemma {:induction false} Chain(r: Run, ops: seq<Op>, mid: Run, more: seq<Op>, r': Run)
    requires Executes(r, ops, mid) && Executes(mid, more, r')
    ensures Executes(r, ops + more, r')
    decreases |ops|
  {
    if ops == [] {
      assert ops + more == more;
    } else {
      Chain(Do(r, ops[0]), ops[1..], mid, more, r');
      assert (ops + more)[1..] == ops[1..] + more;
    }
  }

  predicate IdleAt(r: Run, at: real) {
    r.t.activeRequests == map[] && r.t.activeTargets == map[] && r.t.current == 0 && r.now <= at
  }

  function Limit(m: Model): nat {
    if m.Deep? then DEEP_PER_TARGET_PER_HOUR else CODER_PER_TARGET_PER_HOUR
  }

  function CountOf(b: BudgetState, m: Model): nat {
    if m.Deep? then b.deep else b.coder
  }

  predicate HasRoom(t: Tracker, m: Model, x: string, at: real, k: nat) {
    && Limited(m)
    && CountOf(TargetEntry(t, x, at), m) + k <= Limit(m)
    && (m.Deep? ==> ResetGlobal(t, at).globalDeep + k <= DEEP_GLOBAL_PER_HOUR)
  }

  function CountedBy(b: BudgetState, m: Model, k: nat): BudgetState {
    if m.Deep? then b.(deep := b.deep + k) else b.(coder := b.coder + k)
  }

  /** The tracker after k requests that were admitted and ended at once. */
  function After(t: Tracker, m: Model, x: string, at: real, k: nat): Tracker {
    var t1 := if m.Deep? then ResetGlobal(t, at) else t;
    t1.(globalDeep := if m.Deep? then t1.globalDeep + k else t1.globalDeep,
        targets := t.targets[x := CountedBy(TargetEntry(t, x, at), m, k)])
  }

  lemma AfterAdds(t: Tracker, m: Model, x: string, at: real, i: nat, k: nat)
    ensures After(After(t, m, x, at, i), m, x, at, k) == After(t, m, x, at, i + k)
    ensures HasRoom(t, m, x, at, i + k) ==> HasRoom(After(t, m, x, at, i), m, x, at, k)
  {
  }

  lemma Admitted(t: Tracker, m: Model, x: string, at: real)
    requires HasRoom(t, m, x, at, 1) && t.current == 0
    ensures var (t', ok) := CanRequest(t, m, x, at, at);
            ok && Record(t', m, x, at, at) == Activate(After(t, m, x, at, 1), m, x)
  {
    var (t', ok) := CanRequest(t, m, x, at, at);
    assert TargetEntry(t', x, at) == TargetEntry(t, x, at);
    assert Count(t', m, x, at, at) == After(t, m, x, at, 1);
  }

  lemma Ended(t: Tracker, m: Model, x: string)
    requires Limited(m) && t.activeRequests == map[] && t.activeTargets == map[] && t.current == 0
    ensures Release(Activate(t, m, x), m, x) == t
  {
    LowerUndoesRaise(t.activeRequests, (m, x));
    LowerUndoesRaise(t.activeTargets, x);
  }

  lemma Solo(r: Run, m: Model, x: string, at: real) returns (ops: seq<Op>, r': Run)
    requires IdleAt(r, at) && HasRoom(r.t, m, x, at, 1)
    ensures Executes(r, ops, r') && IdleAt(r', at)
    ensures r' == Run(After(r.t, m, x, at, 1), r.events + [Event(m, x, at, at)], at)
  {
    ops := [Admit(m, x, at, at, at, at), End(m, x)];
    r' := Run(After(r.t, m, x, at, 1), r.events + [Event(m, x, at, at)], at);
    Admitted(r.t, m, x, at);
    Ended(r'.t, m, x);
    assert Do(r, ops[0]) == r'.(t := Activate(r'.t, m, x));
    assert Do(Do(r, ops[0]), ops[1]) == r';
    assert Executes(r', [], r') && ops[1..][0] == ops[1] && ops[1..][1..] == [];
  }

  lemma {:induction false} Burst(r: Run, m: Model, x: string, at: real, k: nat) returns (ops: seq<Op>, r': Run)
    requires IdleAt(r, at) && HasRoom(r.t, m, x, at, k) && k > 0
    ensures Executes(r, ops, r') && IdleAt(r', at)
    ensures r' == Run(After(r.t, m, x, at, k), r.events + seq(k, _ => Event(m, x, at, at)), at)
    decreases k
  {
    var e := Event(m, x, at, at);
    if k == 1 {
      ops, r' := Solo(r, m, x, at);
      assert seq(1, _ => e) == [e];
    } else {
      AfterAdds(r.t, m, x, at, k - 1, 1);
      var first, mid := Burst(r, m, x, at, k - 1);
      var last;
      last, r' := Solo(mid, m, x, at);
      Chain(r, first, mid, last, r');
      ops := first + last;
      assert r.events + seq(k - 1, _ => e) + [e] == r.events + seq(k, _ => e);
    }
  }

  lemma {:induction false} BurstTimes(events: seq<Event>, e: Event, k: nat, m: Model, x: string)
    requires e.g == e.n && LAST_SECOND <= e.n < LAST_SECOND + HOUR
    ensures InHour(TargetTimes(events + seq(k, _ => e), m, x), LAST_SECOND)
            == InHour(TargetTimes(events, m, x), LAST_SECOND) + if e.m == m && e.target == x then k else 0
    ensures InHour(GlobalTimes(events + seq(k, _ => e)), LAST_SECOND)
            == InHour(GlobalTimes(events), LAST_SECOND) + if e.m == Deep then k else 0
  {
    if k == 0 {
      assert events + seq(0, _ => e) == events;
    } else {
      var before := events + seq(k - 1, _ => e);
      assert events + seq(k, _ => e) == before + [e];
      BurstTimes(events, e, k - 1, m, x);
      AddTargetEvent(before, e, m, x);
      AddEvent(before, e);
      InHourOne(TargetTimes(before, m, x), e.n);
      InHourOne(GlobalTimes(before), e.g);
    }
  }

  lemma InHourOne(times: seq<real>, at: real)
    requires LAST_SECOND <= at < LAST_SECOND + HOUR
    ensures InHour(times + [at], LAST_SECOND) == InHour(times, LAST_SECOND) + 1
    ensures InHour(times + [], LAST_SECOND) == InHour(times, LAST_SECOND)
  {
    assert (times + [at])[..|times|] == times && times + [] == times;
  }

  function Begin(): Run {
    Run(Initial(0.0), [], 0.0)
  }

  /** A request of the other kind opens the window at time 0; then the limit is used up twice. */
  lemma TwiceForTarget(m: Model, other: Model) returns (ops: seq<Op>, r: Run)
    requires Limited(m) && Limited(other) && m != other
    ensures Executes(Begin(), ops, r) && InHour(TargetTimes(r.events, m, "t"), LAST_SECOND) == 2 * Limit(m)
  {
    var r0 := Begin();
    var warm, r1 := Solo(r0, other, "t", 0.0);
    var early, r2 := Burst(r1, m, "t", LAST_SECOND, Limit(m));
    Chain(r0, warm, r1, early, r2);
    var late, r3 := Burst(r2, m, "t", HOUR, Limit(m));
    Chain(r0, warm + early, r2, late, r3);
    ops, r := warm + early + late, r3;
    AddTargetEvent([], Event(other, "t", 0.0, 0.0), m, "t");
    BurstTimes(r1.events, Event(m, "t", LAST_SECOND, LAST_SECOND), Limit(m), m, "t");
    BurstTimes(r2.events, Event(m, "t", HOUR, HOUR), Limit(m), m, "t");
  }

  /** Names that no other number has. */
  function Target(i: nat): string {
    seq(i, _ => 't')
  }

  predicate Untouched(t: Tracker, i: nat) {
    forall x <- t.targets :: |x| < i
  }

  /** Deep requests on n new targets, the limit of each used up at once. */
  lemma {:induction false} DeepRow(r: Run, i: nat, n: nat, at: real) returns (ops: seq<Op>, r': Run)
    requires IdleAt(r, at) && Untouched(r.t, i) && n > 0 && LAST_SECOND <= at <= HOUR
    requires ResetGlobal(r.t, at).globalDeep + n * DEEP_PER_TARGET_PER_HOUR <= DEEP_GLOBAL_PER_HOUR
    ensures Executes(r, ops, r') && IdleAt(r', at) && Untouched(r'.t, i + n)
    ensures r'.t.globalReset == ResetGlobal(r.t, at).globalReset
    ensures ResetGlobal(r'.t, at).globalDeep == ResetGlobal(r.t, at).globalDeep + n * DEEP_PER_TARGET_PER_HOUR
    ensures InHour(GlobalTimes(r'.events), LAST_SECOND) == InHour(GlobalTimes(r.events), LAST_SECOND) + n * DEEP_PER_TARGET_PER_HOUR
    decreases n
  {
    assert |Target(i)| == i && Target(i) !in r.t.targets;
    ops, r' := Burst(r, Deep, Target(i), at, DEEP_PER_TARGET_PER_HOUR);
    BurstTimes(r.events, Event(Deep, Target(i), at, at), DEEP_PER_TARGET_PER_HOUR, Deep, Target(i));
    if n > 1 {
      var rest, last := DeepRow(r', i + 1, n - 1, at);
      Chain(r, ops, r', rest, last);
      ops, r' := ops + rest, last;
    }
  }

  /** Four targets at the end of the first global window and four others at the start of the next. */
  lemma TwiceForAll() returns (ops: seq<Op>, r: Run)
    ensures Executes(Begin(), ops, r) && InHour(GlobalTimes(r.events), LAST_SECOND) == 2 * DEEP_GLOBAL_PER_HOUR
  {
    var early, mid := DeepRow(Begin(), 0, 4, LAST_SECOND);
    var late;
    late, r := DeepRow(mid, 4, 4, HOUR);
    Chain(Begin(), early, mid, late, r);
    ops := early + late;
  }

  /**
   None of the three bounds of a sliding hour can be improved: requests at 3599 s and at 3600 s
   use up the limits of two windows within one second.
   */
  lemma TwiceTheLimitIsReached()
    ensures exists ops, r :: Executes(Begin(), ops, r) && InHour(TargetTimes(r.events, Coder, "t"), LAST_SECOND) == 6
    ensures exists ops, r :: Executes(Begin(), ops, r) && InHour(TargetTimes(r.events, Deep, "t"), LAST_SECOND) == 10
    ensures exists ops, r :: Executes(Begin(), ops, r) && InHour(GlobalTimes(r.events), LAST_SECOND) == 40
  {
    var ops, r := TwiceForTarget(Coder, Deep);
    ops, r := TwiceForTarget(Deep, Coder);
    ops, r := TwiceForAll();
  }
}
