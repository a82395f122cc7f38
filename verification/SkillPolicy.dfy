/**
 nanoclaw/scripts/skill-policy.ts: where a consumer pauses for the human. The policy reads the
 document only; the lemmas say when its choice is the directive that really comes next.
 */
module SkillPolicy {
  import opened Wrappers
  import opened Text
  import opened Directives
  import opened SkillEngine
  import opened SkillRun
  import opened SkillStatic
  import opened SkillStaticLimits

  datatype Flavor = Readiness | Completed

  datatype Decision = Decision(needsConfirm: bool, flavor: Flavor)

  // ----- The policy -----

  /** A malformed guard counts as none. */
  predicate Guards(d: Directive) {
    d.attrs.guard.Some? && d.attrs.guard.value.Equals?
  }

  /** Only a guard on the same variable with another value rules a directive out. */
  predicate Compatible(own: Directive, other: Directive) {
    !(Guards(own) && Guards(other) && own.attrs.guard.value.v == other.attrs.guard.value.v
      && own.attrs.guard.value.value != other.attrs.guard.value.value)
  }

  predicate IsBarrier(ds: seq<Directive>, i: nat, j: nat) {
    && i < j < |ds| && Compatible(ds[i], ds[j])
    && forall k | i < k < j :: !Compatible(ds[i], ds[k])
  }

  predicate NoBarrier(ds: seq<Directive>, i: nat) {
    forall k | i < k < |ds| && i < |ds| :: !Compatible(ds[i], ds[k])
  }

  function DecisionAt(barrier: Option<Directive>): Decision {
    if barrier.None? || barrier.value.kind.Operator? || barrier.value.kind.Prompt? then Decision(false, Completed)
    else Decision(true, if barrier.value.attrs.effect == Some(StreamStep) then Readiness else Completed)
  }

  /** The decision for operator i is the one of its barrier. */
  ghost predicate Decides(ds: seq<Directive>, i: nat, decision: Decision) {
    || (NoBarrier(ds, i) && decision == DecisionAt(None))
    || (exists j: nat :: IsBarrier(ds, i, j) && decision == DecisionAt(Some(ds[j])))
  }

  /** Decisions are kept by position here; the source keys them by the line of the fence. */
  method GatePolicy(ds: seq<Directive>) returns (out: map<nat, Decision>)
    ensures forall i: nat :: i in out <==> i < |ds| && ds[i].kind.Operator?
    ensures forall i <- out :: Decides(ds, i, out[i])
  {
    out := map[];
    for i := 0 to |ds|
      invariant forall k: nat :: k in out <==> k < i && ds[k].kind.Operator?
      invariant forall k <- out :: Decides(ds, k, out[k])
    {
      if ds[i].kind.Operator? {
        var barrier: Option<Directive> := None;
        ghost var at: nat := 0;
        var j := i + 1;
        while j < |ds|
          invariant i < j <= |ds| && barrier.None?
          invariant forall k | i < k < j :: !Compatible(ds[i], ds[k])
        {
          if Compatible(ds[i], ds[j]) {
            barrier := Some(ds[j]);
            at := j;
            break;
          }
          j := j + 1;
        }
        assert barrier.Some? ==> IsBarrier(ds, i, at) && barrier.value == ds[at];
        assert barrier.None? ==> NoBarrier(ds, i);
        out := out[i := DecisionAt(barrier)];
      }
    }
  }

  // ----- What a run does to one variable -----

  /** The variables a directive may set, whether it ends well or not. */
  function Sets(d: Directive): set<string> {
    if d.kind.Prompt? then (if PromptVar(d.args).Some? then {PromptVar(d.args).value} else {})
    else if !d.kind.RunCmd? || d.attrs.capture.None? then {}
    else
      match d.attrs.capture.value
      case Bare(v) => {v}
      case Pairs(pairs) => NamedVars(pairs)
  }

  predicate Same(vars: Vars, after: Vars, x: string) {
    (x in vars <==> x in after) && (x in vars ==> after[x] == vars[x])
  }

  lemma {:induction false} BindPairsSame(p: Platform, d: Directive, pairs: seq<Pair>, json: Json, vars: Vars, x: string)
    requires x !in NamedVars(pairs)
    ensures Same(vars, BindPairs(p, d, pairs, json, vars).0, x)
  {
    if pairs != [] {
      match pairs[0]
      case Named(v, path) =>
        var bound := Bind(p, d, vars, v, DotPath(p, json, path));
        if bound.Ok? {
          BindPairsSame(p, d, pairs[1..], json, bound.value, x);
        }
      case _ => BindPairsSame(p, d, pairs[1..], json, vars, x);
    }
  }

  lemma {:induction false} BindFieldsSame(pairs: seq<Pair>, fields: map<string, string>, vars: Vars, x: string)
    requires x !in NamedVars(pairs)
    ensures Same(vars, BindFields(pairs, fields, vars), x)
  {
    if pairs != [] {
      match pairs[0]
      case Named(v, field) =>
        BindFieldsSame(pairs[1..], fields, vars[v := Trim(if field in fields then fields[field] else "")], x);
      case _ => BindFieldsSame(pairs[1..], fields, vars, x);
    }
  }

  lemma CommandSame(p: Platform, d: Directive, i: nat, rep: Reply, w: Work, x: string)
    requires d.kind.RunCmd? && i < |d.body| && x !in Sets(d)
    ensures Same(w.vars, CommandAt(p, d, i, rep, w).vars, x)
  {
    var out := OutputAt(rep, i);
    if out.Out? && d.attrs.capture.Some? && d.attrs.capture.value.Pairs? && p.parse(Trim(out.stdout)).Some? {
      BindPairsSame(p, d, d.attrs.capture.value.pairs, p.parse(Trim(out.stdout)).value, w.vars, x);
    }
  }

  lemma LineSame(p: Platform, d: Directive, i: nat, rep: Reply, w: Work, x: string)
    requires LineWise(d) && i < |d.body| && x !in Sets(d)
    ensures Same(w.vars, LineAt(p, d, i, rep, w).vars, x)
  {
    match d.kind
    case Append =>
    case EnvSet => EnvAtKeepsVars(d, i, rep, w);
    case RunCmd => CommandSame(p, d, i, rep, w, x);
  }

  lemma LinesSame(p: Platform, d: Directive, rep: Reply, w: Work, x: string)
    requires LineWise(d) && x !in Sets(d)
    ensures Same(w.vars, ApplyLines(p, d, 0, rep, w).vars, x)
  {
    var inv := (i: nat, v: Work) => Same(w.vars, v.vars, x);
    forall j: nat, v: Work | j < |d.body| && v.err.None? && inv(j, v)
      ensures inv(j + 1, LineAt(p, d, j, rep, v))
    {
      LineSame(p, d, j, rep, v, x);
    }
    var k := LinesInduction(inv, p, d, rep, w);
  }

  lemma ApplySame(p: Platform, o: Options, d: Directive, rep: Reply, w: Work, x: string)
    requires x !in Sets(d)
    ensures Same(w.vars, ApplyOne(p, o, d, rep, w).vars, x)
  {
    if LineWise(d) {
      LinesSame(p, d, rep, w, x);
    } else if IsStep(d) && rep.step.StepDone? && d.attrs.capture.Some? && d.attrs.capture.value.Pairs? {
      BindFieldsSame(d.attrs.capture.value.pairs, rep.step.fields, w.vars, x);
    }
  }

  lemma HandleWithSame(p: Platform, o: Options, d: Directive, i: nat, rep: Reply, st: State, w: Work, x: string)
    requires x !in Sets(d) && Same(st.vars, w.vars, x)
    ensures Same(st.vars, HandleWith(p, o, d, i, rep, st, w).vars, x)
  {
  }

  lemma HandleSame(p: Platform, o: Options, d: Directive, i: nat, rep: Reply, st: State, x: string)
    requires x !in Sets(d)
    ensures Same(st.vars, Handle(p, o, d, i, rep, st).vars, x)
  {
    ApplySame(p, o, d, rep, WorkOf(st), x);
    HandleWithSame(p, o, d, i, rep, st, ApplyOne(p, o, d, rep, WorkOf(st)), x);
  }

  lemma {:induction false} DriveSame(f: Stepper, t: Tree, i: nat, j: nat, x: string)
    requires i <= j && forall n: nat, st: State | i <= n < j :: Same(st.vars, f(n, st).vars, x)
    ensures Same(Drive(f, t, i).vars, Drive(f, t, j).vars, x)
  {
    if i < j {
      DriveSame(f, t, i, j - 1, x);
      var st := Drive(f, t, j - 1);
      assert Same(st.vars, f(j - 1, st).vars, x);
    }
  }

  /** A variable that no later directive sets keeps its value to the end of the run. */
  lemma VariableStays(p: Platform, o: Options, ds: seq<Directive>, reps: seq<Reply>, t: Tree, i: nat, j: nat, x: string)
    requires i <= j <= |ds| == |reps| && forall k | i <= k < j :: x !in Sets(ds[k])
    ensures Same(RunTo(p, o, ds, reps, t, i).vars, RunTo(p, o, ds, reps, t, j).vars, x)
  {
    var f := Stepping(p, o, ds, reps);
    forall n: nat, st: State | i <= n < j
      ensures Same(st.vars, f(n, st).vars, x)
    {
      HandleSame(p, o, ds[n], n, reps[n], st, x);
    }
    DriveSame(f, t, i, j, x);
  }

  // ----- The policy against the run -----

  /** The guard of directive j holds when the run comes to it. */
  predicate HoldsAt(p: Platform, o: Options, ds: seq<Directive>, reps: seq<Reply>, t: Tree, j: nat)
    requires j < |ds| == |reps|
  {
    WhenMet(ds[j].attrs.guard, RunTo(p, o, ds, reps, t, j).vars)
  }

  /** j is the first directive after i that the run does not skip for its guard. */
  predicate ComesNext(p: Platform, o: Options, ds: seq<Directive>, reps: seq<Reply>, t: Tree, i: nat, j: nat)
    requires |ds| == |reps|
  {
    && i < j < |ds| && HoldsAt(p, o, ds, reps, t, j)
    && forall k | i < k < j :: !HoldsAt(p, o, ds, reps, t, k)
  }

  /** Later guards test one variable, which nothing from directive i on sets. */
  predicate OneBranchVariable(ds: seq<Directive>, i: nat, v: string) {
    && (forall k | i <= k < |ds| :: v !in Sets(ds[k]))
    && (forall k | i < k < |ds| && Guards(ds[k]) :: ds[k].attrs.guard.value.v == v)
  }

  /** For a guarded operator that runs, compatible directives are the ones the run takes. */
  lemma CompatibleMeansTaken(p: Platform, o: Options, ds: seq<Directive>, reps: seq<Reply>, t: Tree, i: nat, j: nat)
    requires i < j < |ds| == |reps| && Guards(ds[i]) && OneBranchVariable(ds, i, ds[i].attrs.guard.value.v)
    requires HoldsAt(p, o, ds, reps, t, i)
    ensures Compatible(ds[i], ds[j]) <==> HoldsAt(p, o, ds, reps, t, j)
  {
    VariableStays(p, o, ds, reps, t, i, j, ds[i].attrs.guard.value.v);
  }

  /**
   The policy agrees with execution: for a guarded operator that runs, in a document that
   branches on one settled variable, the barrier is the directive that comes next at run time,
   and the consumer is told to pause exactly when there is one and it asks nothing itself; the pause
   asks for readiness exactly when that directive is a step.
   */
  lemma BarrierComesNext(p: Platform, o: Options, ds: seq<Directive>, reps: seq<Reply>, t: Tree, i: nat, decision: Decision)
    requires i < |ds| == |reps| && Guards(ds[i]) && OneBranchVariable(ds, i, ds[i].attrs.guard.value.v)
    requires HoldsAt(p, o, ds, reps, t, i) && Decides(ds, i, decision)
    ensures forall j: nat :: IsBarrier(ds, i, j) <==> ComesNext(p, o, ds, reps, t, i, j)
    ensures decision.needsConfirm <==>
            exists j: nat :: ComesNext(p, o, ds, reps, t, i, j) && !ds[j].kind.Operator? && !ds[j].kind.Prompt?
    ensures decision.needsConfirm ==>
            (decision.flavor.Readiness? <==>
               exists j: nat :: ComesNext(p, o, ds, reps, t, i, j) && ds[j].attrs.effect == Some(StreamStep))
  {
    forall j | i < j < |ds|
      ensures Compatible(ds[i], ds[j]) <==> HoldsAt(p, o, ds, reps, t, j)
    {
      CompatibleMeansTaken(p, o, ds, reps, t, i, j);
    }
    forall j: nat
      ensures IsBarrier(ds, i, j) <==> ComesNext(p, o, ds, reps, t, i, j)
    {
    }
    if NoBarrier(ds, i) {
      assert forall j: nat :: !IsBarrier(ds, i, j);
    } else {
      var j: nat :| IsBarrier(ds, i, j) && decision == DecisionAt(Some(ds[j]));
      assert forall k: nat :: IsBarrier(ds, i, k) ==> k == j;
    }
  }

  /** Without a guard of its own, an operator is judged by the directive right after it, skipped or not. */
  lemma UnguardedIsNextInDocument(p: Platform, o: Options, ds: seq<Directive>, reps: seq<Reply>, t: Tree, i: nat, j: nat)
    requires i + 1 < |ds| == |reps| && !Guards(ds[i]) && IsBarrier(ds, i, j)
    ensures j == i + 1
    ensures ComesNext(p, o, ds, reps, t, i, j) <==> HoldsAt(p, o, ds, reps, t, i + 1)
  {
    assert Compatible(ds[i], ds[i + 1]);
  }

  // ----- The advisory lint -----

  /** The branch values of the guarded directives from j up to the first unguarded one. */
  function BranchesFrom(ds: seq<Directive>, j: nat): set<When>
    requires j <= |ds|
    decreases |ds| - j
  {
    if j == |ds| || ds[j].attrs.guard.None? then {} else {ds[j].attrs.guard.value} + BranchesFrom(ds, j + 1)
  }

  predicate Ambiguous(ds: seq<Directive>, i: nat)
    requires i < |ds|
  {
    ds[i].kind.Operator? && ds[i].attrs.guard.None? && |BranchesFrom(ds, i + 1)| > 1
  }

  method LintGateAmbiguity(ds: seq<Directive>) returns (flagged: seq<nat>)
    ensures forall i: nat :: i in flagged <==> i < |ds| && Ambiguous(ds, i)
  {
    flagged := [];
    for i := 0 to |ds|
      invariant forall k: nat :: k in flagged <==> k < i && Ambiguous(ds, k)
    {
      if ds[i].kind.Operator? && ds[i].attrs.guard.None? {
        var branches: set<When>, j := {}, i + 1;
        while j < |ds| && ds[j].attrs.guard.Some?
          invariant i < j <= |ds|
          invariant branches + BranchesFrom(ds, j) == BranchesFrom(ds, i + 1)
        {
          branches := branches + {ds[j].attrs.guard.value};
          j := j + 1;
        }
        assert BranchesFrom(ds, j) == {} && branches == BranchesFrom(ds, i + 1);
        if |branches| > 1 {
          flagged := flagged + [i];
        }
      }
    }
  }

  function Instruct(): Directive {
    Directive(Operator, [], PLAIN, ["!"])
  }

  function AskWhen(x: string, v: string, value: string): Directive {
    Ask(x).(attrs := PLAIN.(guard := Some(Equals(v, value))))
  }

  /**
   The lint asks for two branch values, but one is enough: an operator, a prompt for one branch,
   then an unguarded run. The lint is silent and the policy sees no need to pause, yet on the
   other branch the run is what comes next.
   */
  lemma LintMissesOneBranch(p: Platform, o: Options, v: string, x: string, value: string, run: Directive, reps: seq<Reply>, t: Tree)
    requires run.kind.RunCmd? && run.attrs.guard.None? && o.mode.Install?
    requires v in o.inputs && o.inputs[v] != value && |reps| == 4
    ensures var ds := [Ask(v), Instruct(), AskWhen(x, v, value), run];
            && !Ambiguous(ds, 1)
            && (forall decision | Decides(ds, 1, decision) :: !decision.needsConfirm)
            && ComesNext(p, o, ds, reps, t, 1, 3)
  {
    var ds := [Ask(v), Instruct(), AskWhen(x, v, value), run];
    assert BranchesFrom(ds, 3) == {} && BranchesFrom(ds, 2) == {Equals(v, value)};
    assert IsBarrier(ds, 1, 2);
    assert forall j: nat :: IsBarrier(ds, 1, j) ==> j == 2;
    var f := Stepping(p, o, ds, reps);
    assert Drive(f, t, 0) == Initial(t);
    AskBinds(p, o, v, 0, reps[0], Drive(f, t, 0), Drive(f, t, 1));
    VariableStays(p, o, ds, reps, t, 1, 2, v);
    assert !HoldsAt(p, o, ds, reps, t, 2);
  }
}
