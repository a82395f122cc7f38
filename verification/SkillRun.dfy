/**
 What holds of every run of the skill engine, in both modes and whatever the outside answers:
 each directive is accounted for exactly once, a failure latches, and step events are balanced.
 */
module SkillRun {
  import opened Directives
  import opened SkillEngine

  // ----- One step -----

  /** The events of one accepted step: opened, perhaps commands, closed. */
  function Bracket(o: Options, i: nat, commands: seq<Ev>, ok: bool): seq<Ev> {
    (if o.consumer then [StepStart(i, true)] else []) + commands + (if o.consumer then [StepEnd(i, ok)] else [])
  }

  predicate CommandsOf(d: Directive, i: nat, commands: seq<Ev>) {
    commands == []
    || (d.kind.RunCmd? && |commands| == 1 && commands[0].Executed? && commands[0].i == i
        && commands[0].effect == d.attrs.effect)
  }

  /** The events one directive can cause, before it is, perhaps, bounced. */
  ghost predicate Segment(o: Options, d: Directive, i: nat, blocked: bool, seg: seq<Ev>) {
    || seg == []
    || (!blocked && seg == [Shown(i)])
    || seg == [StepStart(i, false)]
    || (!(blocked && Gated(d)) && exists commands, ok :: CommandsOf(d, i, commands) && seg == Bracket(o, i, commands, ok))
  }

  lemma HandleEvents(p: Platform, o: Options, d: Directive, i: nat, rep: Reply, st: State, w: Work)
    ensures Segment(o, d, i, st.blocked, HandleWith(p, o, d, i, rep, st, w).events)
  {
    var commands := if d.kind.RunCmd? && w.ran != [] then [Executed(i, d.attrs.effect, w.ran)] else [];
    assert CommandsOf(d, i, commands);
    assert StepEvents(o, d, i, w) == Bracket(o, i, commands, w.err.None?);
  }

  /** Induction over a run: what each step keeps holds at the end. */
  lemma {:induction false} DriveInduction(inv: (nat, State) -> bool, f: Stepper, t: Tree, n: nat)
    requires inv(0, Initial(t))
    requires forall i: nat | i < n && inv(i, Drive(f, t, i)) :: inv(i + 1, Drive(f, t, i + 1))
    ensures inv(n, Drive(f, t, n))
  {
    if n > 0 {
      DriveInduction(inv, f, t, n - 1);
    }
  }

  lemma {:induction false} EachInduction(inv: (nat, Work) -> bool, f: Liner, n: nat, i: nat, w: Work) returns (k: nat)
    requires i <= n && inv(i, w)
    requires forall j: nat, v: Work | i <= j < n && v.err.None? && inv(j, v) :: inv(j + 1, f(j, v))
    ensures var end := Each(f, n, i, w); k <= n && inv(k, end) && (end.err.None? ==> k == n)
    decreases n - i
  {
    k := i;
    if i < n && w.err.None? {
      k := EachInduction(inv, f, n, i + 1, f(i, w));
    }
  }

  /** Induction over the lines of a body: the invariant holds where the lines end or one throws. */
  lemma LinesInduction(inv: (nat, Work) -> bool, p: Platform, d: Directive, rep: Reply, w: Work)
    returns (k: nat)
    requires LineWise(d) && inv(0, w)
    requires forall j: nat, v: Work | j < |d.body| && v.err.None? && inv(j, v) :: inv(j + 1, LineAt(p, d, j, rep, v))
    ensures var end := ApplyLines(p, d, 0, rep, w);
            k <= |d.body| && inv(k, end) && (end.err.None? ==> k == |d.body|)
  {
    var f := Lining(p, d, rep);
    forall j: nat, v: Work | j < |d.body| && v.err.None? && inv(j, v)
      ensures inv(j + 1, f(j, v))
    {
      assert f(j, v) == LineAt(p, d, j, rep, v);
    }
    k := EachInduction(inv, f, |d.body|, 0, w);
  }

  lemma EnvAtKeepsVars(d: Directive, i: nat, rep: Reply, w: Work)
    requires i < |d.body|
    ensures EnvAt(d, i, rep, w).vars == w.vars
  {
  }

  lemma PromptKeepsFiles(p: Platform, o: Options, d: Directive, rep: Reply, st: State)
    ensures var r := DoPrompt(p, o, d, rep, st); r.tree == st.tree && r.journal == st.journal
  {
  }

  lemma OperatorKeepsFiles(o: Options, d: Directive, i: nat, rep: Reply, st: State)
    ensures var r := DoOperator(o, d, i, rep, st); r.tree == st.tree && r.journal == st.journal
  {
  }

  /** Files and journal change only by what applyOne does. */
  lemma HandleFiles(p: Platform, o: Options, d: Directive, i: nat, rep: Reply, st: State, w: Work)
    ensures var r := HandleWith(p, o, d, i, rep, st, w);
            || (r.tree == st.tree && r.journal == st.journal)
            || (r.tree == w.tree && r.journal == w.journal)
  {
    PromptKeepsFiles(p, o, d, rep, st);
    OperatorKeepsFiles(o, d, i, rep, st);
  }

  /** The stepper only ever causes such events. */
  ghost predicate Behaves(o: Options, ds: seq<Directive>, f: Stepper) {
    forall i: nat, st: State | i < |ds| :: Segment(o, ds[i], i, st.blocked, f(i, st).events)
  }

  lemma EngineBehaves(p: Platform, o: Options, ds: seq<Directive>, reps: seq<Reply>)
    requires |ds| == |reps|
    ensures Behaves(o, ds, Stepping(p, o, ds, reps))
  {
    var f := Stepping(p, o, ds, reps);
    forall i: nat, st: State | i < |ds|
      ensures Segment(o, ds[i], i, st.blocked, f(i, st).events)
    {
      HandleEvents(p, o, ds[i], i, reps[i], st, ApplyOne(p, o, ds[i], reps[i], WorkOf(st)));
    }
  }

  // ----- Accounting -----

  lemma PutKeeps(l: Ledger, i: nat, verdict: Verdict, j: nat)
    ensures var next := Put(l, i, verdict);
            && (j in l.skipped ==> j in next.skipped)
            && (j in l.deferred ==> j in next.deferred)
            && (j in l.tasks ==> j in next.tasks)
            && (verdict.Skipped? ==> i in next.skipped)
            && (verdict.Deferred? ==> i in next.deferred)
            && (verdict.Task? ==> i in next.tasks)
  {
    assert (l.skipped + [i])[|l.skipped|] == i;
    assert (l.deferred + [i])[|l.deferred|] == i;
    assert (l.tasks + [i])[|l.tasks|] == i;
  }

  predicate Ascending(s: seq<nat>) {
    forall a, b | 0 <= a < b < |s| :: s[a] < s[b]
  }

  predicate UpTo(s: seq<nat>, n: nat) {
    forall a | 0 <= a < |s| :: s[a] < n
  }

  function Times(i: nat, s: seq<nat>): nat {
    if i in s then 1 else 0
  }

  function Places(l: Ledger, i: nat): nat {
    Times(i, l.applied) + Times(i, l.skipped) + Times(i, l.deferred) + Times(i, l.tasks) + Times(i, l.bound)
  }

  /** Every directive before n, and no other, is in exactly one list, once, in document order. */
  predicate Accounted(l: Ledger, n: nat) {
    && Ascending(l.applied) && UpTo(l.applied, n)
    && Ascending(l.skipped) && UpTo(l.skipped, n)
    && Ascending(l.deferred) && UpTo(l.deferred, n)
    && Ascending(l.tasks) && UpTo(l.tasks, n)
    && Ascending(l.bound) && UpTo(l.bound, n)
    && forall i: nat | i < n :: Places(l, i) == 1
  }

  lemma PushKeeps(s: seq<nat>, n: nat)
    requires Ascending(s) && UpTo(s, n)
    ensures Ascending(s + [n]) && UpTo(s + [n], n + 1) && UpTo(s, n + 1)
    ensures forall i: nat | i < n :: Times(i, s + [n]) == Times(i, s)
    ensures Times(n, s + [n]) == 1 && Times(n, s) == 0
  {
    var u := s + [n];
    assert u[|s|] == n;
    assert forall a | 0 <= a < |s| :: u[a] == s[a];
    assert forall i: nat | i < n :: i in u <==> i in s;
  }

  lemma FilingKeeps(l: Ledger, n: nat, verdict: Verdict)
    requires Accounted(l, n)
    ensures Accounted(Put(l, n, verdict), n + 1)
  {
    var next := Put(l, n, verdict);
    PushKeeps(l.applied, n);
    PushKeeps(l.skipped, n);
    PushKeeps(l.deferred, n);
    PushKeeps(l.tasks, n);
    PushKeeps(l.bound, n);
    forall i: nat | i < n + 1
      ensures Places(next, i) == 1
    {
      if i < n {
        assert Places(l, i) == 1;
      }
    }
  }

  lemma SettleAccounts(st: State, n: nat, r: Done, next: State)
    requires Accounted(st.ledger, n) && next == Settle(st, n, r)
    ensures Accounted(next.ledger, n + 1)
  {
    FilingKeeps(st.ledger, n, r.verdict);
  }

  lemma DriveAccounts(f: Stepper, t: Tree, n: nat)
    ensures Accounted(Drive(f, t, n).ledger, n)
  {
    var inv := (i: nat, st: State) => Accounted(st.ledger, i);
    forall i: nat | i < n && inv(i, Drive(f, t, i))
      ensures inv(i + 1, Drive(f, t, i + 1))
    {
      var st := Drive(f, t, i);
      SettleAccounts(st, i, f(i, st), Drive(f, t, i + 1));
    }
    DriveInduction(inv, f, t, n);
  }

  lemma EachDirectiveOnce(p: Platform, o: Options, ds: seq<Directive>, reps: seq<Reply>, t: Tree, n: nat)
    requires n <= |ds| == |reps|
    ensures Accounted(RunTo(p, o, ds, reps, t, n).ledger, n)
  {
    DriveAccounts(Stepping(p, o, ds, reps), t, n);
  }

  predicate Settled(st: State, i: nat) {
    i in st.ledger.applied || i in st.ledger.skipped || i in st.ledger.bound
  }

  /** fullyApplied reports exactly that nothing was left over. */
  lemma FullyAppliedMeans(p: Platform, o: Options, ds: seq<Directive>, reps: seq<Reply>, t: Tree)
    requires |ds| == |reps|
    ensures var st := RunAll(p, o, ds, reps, t);
            FullyApplied(st) <==> forall i: nat | i < |ds| :: Settled(st, i)
  {
    EachDirectiveOnce(p, o, ds, reps, t, |ds|);
    var st := RunAll(p, o, ds, reps, t);
    forall i: nat | i < |ds|
      ensures Settled(st, i) <==> !(i in st.ledger.deferred || i in st.ledger.tasks)
    {
      assert Places(st.ledger, i) == 1;
    }
    if st.ledger.deferred != [] {
      var i := st.ledger.deferred[0];
      assert i in st.ledger.deferred && !Settled(st, i);
    } else if st.ledger.tasks != [] {
      var i := st.ledger.tasks[0];
      assert i in st.ledger.tasks && !Settled(st, i);
    }
  }

  // ----- The failure latch -----

  predicate GatedEvent(e: Ev) {
    e.Shown? || (e.Executed? && e.effect.Some? && (SideEffect(e.effect.value) || Validation(e.effect.value)))
  }

  predicate Latched(trace: seq<Ev>) {
    forall a, b | 0 <= a < b < |trace| :: trace[a].Bounced? ==> !GatedEvent(trace[b])
  }

  predicate HasBounce(trace: seq<Ev>) {
    exists a :: 0 <= a < |trace| && trace[a].Bounced?
  }

  lemma LatchExtends(trace: seq<Ev>, more: seq<Ev>)
    requires Latched(trace) && Latched(more)
    requires HasBounce(trace) ==> forall b | 0 <= b < |more| :: !GatedEvent(more[b])
    ensures Latched(trace + more)
    ensures HasBounce(trace + more) <==> HasBounce(trace) || HasBounce(more)
  {
    var all := trace + more;
    forall a, b | 0 <= a < b < |all| && all[a].Bounced?
      ensures !GatedEvent(all[b])
    {
      if b < |trace| {
        assert all[a] == trace[a] && all[b] == trace[b];
      } else {
        assert all[b] == more[b - |trace|];
        assert all[a] == if a < |trace| then trace[a] else more[a - |trace|];
        assert a < |trace| ==> HasBounce(trace);
      }
    }
    if HasBounce(more) {
      var a :| 0 <= a < |more| && more[a].Bounced?;
      assert all[|trace| + a].Bounced?;
    }
    if HasBounce(trace) {
      var a :| 0 <= a < |trace| && trace[a].Bounced?;
      assert all[a].Bounced?;
    }
    if HasBounce(all) {
      var a :| 0 <= a < |all| && all[a].Bounced?;
      assert all[a] == if a < |trace| then trace[a] else more[a - |trace|];
    }
  }

  /** A directive that runs while the run is blocked adds no gated event. */
  lemma SegmentGated(o: Options, d: Directive, i: nat, blocked: bool, seg: seq<Ev>, verdict: Verdict)
    requires Segment(o, d, i, blocked, seg)
    ensures var more := seg + IfTask(verdict, i);
            && (blocked ==> forall b | 0 <= b < |more| :: !GatedEvent(more[b]))
            && Latched(more)
            && (HasBounce(more) <==> verdict.Task?)
  {
    var more := seg + IfTask(verdict, i);
    if seg != [] && seg != [Shown(i)] && seg != [StepStart(i, false)] {
      var commands, ok :| CommandsOf(d, i, commands) && seg == Bracket(o, i, commands, ok);
      assert blocked ==> !Gated(d);
    }
    assert forall b | 0 <= b < |seg| :: !seg[b].Bounced?;
    if verdict.Task? {
      assert more[|seg|].Bounced?;
    }
  }

  predicate LatchInv(st: State) {
    && (st.blocked <==> st.ledger.tasks != [])
    && (st.blocked <==> HasBounce(st.trace))
    && Latched(st.trace)
  }

  lemma SettleLatches(o: Options, d: Directive, i: nat, st: State, r: Done, next: State)
    requires LatchInv(st) && next == Settle(st, i, r) && Segment(o, d, i, st.blocked, r.events)
    ensures LatchInv(next)
  {
    SegmentGated(o, d, i, st.blocked, r.events, r.verdict);
    LatchExtends(st.trace, r.events + IfTask(r.verdict, i));
    assert |st.ledger.tasks + [i]| > 0;
  }

  lemma DriveLatches(o: Options, ds: seq<Directive>, f: Stepper, t: Tree, n: nat)
    requires Behaves(o, ds, f) && n <= |ds|
    ensures LatchInv(Drive(f, t, n))
  {
    var inv := (i: nat, st: State) => LatchInv(st);
    forall i: nat | i < n && inv(i, Drive(f, t, i))
      ensures inv(i + 1, Drive(f, t, i + 1))
    {
      var st := Drive(f, t, i);
      SettleLatches(o, ds[i], i, st, f(i, st), Drive(f, t, i + 1));
    }
    DriveInduction(inv, f, t, n);
  }

  /**
   The run is blocked exactly when some directive was bounced; once that has happened, no
   restart, step, wire, build or test command runs and no operator block is shown.
   */
  lemma FailureLatches(p: Platform, o: Options, ds: seq<Directive>, reps: seq<Reply>, t: Tree, n: nat)
    requires n <= |ds| == |reps|
    ensures var st := RunTo(p, o, ds, reps, t, n);
            && (st.blocked <==> st.ledger.tasks != [])
            && (st.blocked <==> HasBounce(st.trace))
            && Latched(st.trace)
  {
    EngineBehaves(p, o, ds, reps);
    DriveLatches(o, ds, Stepping(p, o, ds, reps), t, n);
  }

  // ----- Balanced step events -----

  /** trace[b] ends the step that trace[a] began, with only that step's commands in between. */
  predicate Closes(trace: seq<Ev>, a: nat, b: nat) {
    && a < b < |trace|
    && trace[a].StepStart? && trace[a].accepted
    && trace[b].StepEnd? && trace[b].i == trace[a].i
    && forall c | a < c < b :: trace[c].Executed? && trace[c].i == trace[a].i
  }

  ghost predicate IsClosed(trace: seq<Ev>, a: nat) {
    exists b: nat :: Closes(trace, a, b)
  }

  ghost predicate IsOpened(trace: seq<Ev>, b: nat) {
    exists a: nat :: Closes(trace, a, b)
  }

  predicate EndsOnce(trace: seq<Ev>) {
    forall b, c | 0 <= b < c < |trace| && trace[b].StepEnd? && trace[c].StepEnd? :: trace[b].i != trace[c].i
  }

  /** Every accepted start is closed at once, every end was opened, and no step ends twice. */
  ghost predicate Balanced(trace: seq<Ev>) {
    && (forall a: nat | a < |trace| && trace[a].StepStart? && trace[a].accepted :: IsClosed(trace, a))
    && (forall b: nat | b < |trace| && trace[b].StepEnd? :: IsOpened(trace, b))
    && EndsOnce(trace)
  }

  predicate Below(trace: seq<Ev>, n: nat) {
    forall a | 0 <= a < |trace| :: trace[a].i < n
  }

  predicate AllOf(trace: seq<Ev>, i: nat) {
    forall a | 0 <= a < |trace| :: trace[a].i == i
  }

  lemma ClosesInFront(s: seq<Ev>, t: seq<Ev>, a: nat, b: nat)
    requires Closes(s, a, b)
    ensures Closes(s + t, a, b)
  {
  }

  lemma ClosesBehind(s: seq<Ev>, t: seq<Ev>, a: nat, b: nat)
    requires Closes(t, a, b)
    ensures Closes(s + t, |s| + a, |s| + b)
  {
    var all := s + t;
    assert all[|s| + a] == t[a] && all[|s| + b] == t[b];
    forall c | |s| + a < c < |s| + b
      ensures all[c].Executed? && all[c].i == all[|s| + a].i
    {
      assert all[c] == t[c - |s|];
    }
  }

  lemma ClosedTogether(s: seq<Ev>, t: seq<Ev>, a: nat)
    requires Balanced(s) && Balanced(t) && a < |s + t| && (s + t)[a].StepStart? && (s + t)[a].accepted
    ensures IsClosed(s + t, a)
  {
    if a < |s| {
      assert IsClosed(s, a);
      var b: nat :| Closes(s, a, b);
      ClosesInFront(s, t, a, b);
    } else {
      assert IsClosed(t, a - |s|);
      var b: nat :| Closes(t, a - |s|, b);
      ClosesBehind(s, t, a - |s|, b);
    }
  }

  lemma OpenedTogether(s: seq<Ev>, t: seq<Ev>, b: nat)
    requires Balanced(s) && Balanced(t) && b < |s + t| && (s + t)[b].StepEnd?
    ensures IsOpened(s + t, b)
  {
    if b < |s| {
      assert IsOpened(s, b);
      var a: nat :| Closes(s, a, b);
      ClosesInFront(s, t, a, b);
    } else {
      assert IsOpened(t, b - |s|);
      var a: nat :| Closes(t, a, b - |s|);
      ClosesBehind(s, t, a, b - |s|);
    }
  }

  lemma EndTogether(s: seq<Ev>, t: seq<Ev>, n: nat)
    requires EndsOnce(s) && EndsOnce(t) && Below(s, n) && AllOf(t, n)
    ensures EndsOnce(s + t) && Below(s + t, n + 1)
  {
    var all := s + t;
    assert forall k | |s| <= k < |all| :: all[k] == t[k - |s|];
  }

  lemma BalancedTogether(s: seq<Ev>, t: seq<Ev>, n: nat)
    requires Balanced(s) && Balanced(t) && Below(s, n) && AllOf(t, n)
    ensures Balanced(s + t) && Below(s + t, n + 1)
  {
    var all := s + t;
    forall a: nat | a < |all| && all[a].StepStart? && all[a].accepted
      ensures IsClosed(all, a)
    {
      ClosedTogether(s, t, a);
    }
    forall b: nat | b < |all| && all[b].StepEnd?
      ensures IsOpened(all, b)
    {
      OpenedTogether(s, t, b);
    }
    EndTogether(s, t, n);
  }

  lemma SegmentBalanced(o: Options, d: Directive, i: nat, blocked: bool, seg: seq<Ev>, verdict: Verdict)
    requires Segment(o, d, i, blocked, seg)
    ensures var more := seg + IfTask(verdict, i); Balanced(more) && AllOf(more, i)
  {
    var more := seg + IfTask(verdict, i);
    if seg != [] && seg != [Shown(i)] && seg != [StepStart(i, false)] {
      var commands, ok :| CommandsOf(d, i, commands) && seg == Bracket(o, i, commands, ok);
      var last := |commands| + 1;
      if o.consumer {
        assert more[0] == StepStart(i, true) && more[last] == StepEnd(i, ok);
        assert commands != [] ==> more[1] == commands[0];
        assert Closes(more, 0, last);
        assert forall b | 0 <= b < |more| :: more[b].StepEnd? <==> b == last;
      } else {
        assert forall b | 0 <= b < |more| :: more[b].Executed? || more[b].Bounced?;
      }
    }
  }

  lemma SettleBalances(o: Options, d: Directive, i: nat, st: State, r: Done, next: State)
    requires Balanced(st.trace) && Below(st.trace, i)
    requires next == Settle(st, i, r) && Segment(o, d, i, st.blocked, r.events)
    ensures Balanced(next.trace) && Below(next.trace, i + 1)
  {
    SegmentBalanced(o, d, i, st.blocked, r.events, r.verdict);
    BalancedTogether(st.trace, r.events + IfTask(r.verdict, i), i);
  }

  lemma DriveBalances(o: Options, ds: seq<Directive>, f: Stepper, t: Tree, n: nat)
    requires Behaves(o, ds, f) && n <= |ds|
    ensures Balanced(Drive(f, t, n).trace) && Below(Drive(f, t, n).trace, n)
  {
    var inv := (i: nat, st: State) => Balanced(st.trace) && Below(st.trace, i);
    assert Balanced(Initial(t).trace) && Below(Initial(t).trace, 0);
    forall i: nat | i < n && inv(i, Drive(f, t, i))
      ensures inv(i + 1, Drive(f, t, i + 1))
    {
      var st := Drive(f, t, i);
      assert Segment(o, ds[i], i, st.blocked, f(i, st).events);
      SettleBalances(o, ds[i], i, st, f(i, st), Drive(f, t, i + 1));
    }
    DriveInduction(inv, f, t, n);
  }

  lemma StepEventsBalance(p: Platform, o: Options, ds: seq<Directive>, reps: seq<Reply>, t: Tree, n: nat)
    requires n <= |ds| == |reps|
    ensures var trace := RunTo(p, o, ds, reps, t, n).trace; Balanced(trace) && Below(trace, n)
  {
    EngineBehaves(p, o, ds, reps);
    DriveBalances(o, ds, Stepping(p, o, ds, reps), t, n);
  }
}
