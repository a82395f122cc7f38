/**
 Where the static check says less than its readers may think: skills it passes and a run defers,
 for each of the conditions under which SkillStatic proves it sound.
 */
module SkillStaticLimits {
  import opened Wrappers
  import opened Text
  import opened References
  import opened Directives
  import opened SkillEngine
  import opened SkillRun
  import opened SkillStatic

  const PLAIN := Attrs(None, None, None, None, None, None, None, None, None, None, None, false, None, None, {})

  /** `run` with the one body line {{x}}. */
  function Use(x: string): Directive {
    Directive(RunCmd, [], PLAIN, [Reference(x)])
  }

  lemma UseNeeds(x: string, vars: set<string>)
    requires IsIdent(x)
    ensures Needed(Use(x), vars) <==> x in vars
  {
    ReferenceNames(x);
    var d := Use(x);
    assert Needed(d, vars) <==> LineNeeds(d, 0) <= vars;
  }

  lemma UseNotReady(ds: seq<Directive>, skipped: seq<nat>, i: nat, x: string)
    requires IsIdent(x) && i < |ds| && ds[i] == Use(x) && i !in skipped && x !in LiveBefore(ds, skipped, i)
    ensures !Ready(ds, skipped, |ds|)
  {
    UseNeeds(x, LiveBefore(ds, skipped, i));
    assert !ReadyAt(ds, skipped, i);
  }

  /** A use of a variable that nothing before it binds is deferred. */
  lemma DeadUseDefers(p: Platform, o: Options, ds: seq<Directive>, reps: seq<Reply>, t: Tree, i: nat, x: string)
    requires Favourable(p, o, ds, reps) && RunAll(p, o, ds, reps, t).ledger.tasks == []
    requires IsIdent(x) && i < |ds| && ds[i] == Use(x)
    requires x !in LiveBefore(ds, RunAll(p, o, ds, reps, t).ledger.skipped, i)
    ensures RunAll(p, o, ds, reps, t).ledger.deferred != []
  {
    DefersExactly(p, o, ds, reps, t);
    CommandNeverSkipped(p, o, ds, reps, t, i);
    UseNotReady(ds, RunAll(p, o, ds, reps, t).ledger.skipped, i, x);
  }

  lemma UseIsClean(p: Platform, x: string, defined: set<string>)
    requires IsIdent(x) && x in defined
    ensures Rules(p, Use(x), defined) == []
  {
    ReferenceNames(x);
    NoReferenceRules(Use(x).body, defined);
  }

  /**
   A capture the check believes but the engine does not make (on a check, on an empty body, bare
   on a step, or in a pair without `=`): a following use of the variable passes the check, and
   an install run that bounces nothing defers it.
   */
  lemma DishonestCaptureDefers(p: Platform, o: Options, d: Directive, x: string, ds: seq<Directive>, reps: seq<Reply>, t: Tree)
    requires ds == [d, Use(x)] && d.attrs.guard.None? && Rules(p, d, {}) == []
    requires IsIdent(x) && x in Defines(d) && x !in Binds(d)
    requires Favourable(p, o, ds, reps) && RunAll(p, o, ds, reps, t).ledger.tasks == []
    ensures ProblemsOf(p, ds, 2) == []
    ensures RunAll(p, o, ds, reps, t).ledger.deferred != []
  {
    DishonestIsClean(p, d, x, ds);
    FirstIsLive(ds, RunAll(p, o, ds, reps, t).ledger.skipped);
    DeadUseDefers(p, o, ds, reps, t, 1, x);
  }

  lemma FirstIsLive(ds: seq<Directive>, skipped: seq<nat>)
    requires ds != []
    ensures LiveBefore(ds, skipped, 1) <= Binds(ds[0])
  {
    assert LiveBefore(ds, skipped, 0) == {};
  }

  lemma DishonestIsClean(p: Platform, d: Directive, x: string, ds: seq<Directive>)
    requires ds == [d, Use(x)] && Rules(p, d, {}) == [] && IsIdent(x) && x in Defines(d)
    ensures ProblemsOf(p, ds, 2) == []
  {
    var check := CheckOf(p, ds);
    assert DefinedBefore(ds, 0) == {} && check(0) == [];
    UseIsClean(p, x, DefinedBefore(ds, 1));
    assert check(1) == [] && Gather(check, 1) == [];
  }

  lemma CommandNeverSkipped(p: Platform, o: Options, ds: seq<Directive>, reps: seq<Reply>, t: Tree, i: nat)
    requires i < |ds| == |reps| && o.mode.Install? && o.skipEffects == {}
    requires ds[i].kind.RunCmd? && ds[i].attrs.guard.None?
    ensures i !in RunAll(p, o, ds, reps, t).ledger.skipped
  {
    var f := Stepping(p, o, ds, reps);
    CommandVerdict(p, o, ds[i], i, reps[i], Drive(f, t, i));
    SkippedMeans(f, t, |ds|, i);
  }

  lemma CommandVerdict(p: Platform, o: Options, d: Directive, i: nat, rep: Reply, st: State)
    requires o.mode.Install? && o.skipEffects == {} && d.kind.RunCmd? && d.attrs.guard.None?
    ensures !Handle(p, o, d, i, rep, st).verdict.Skipped?
  {
  }

  function Ask(v: string): Directive {
    Directive(Prompt, [Name(v)], PLAIN, ["?"])
  }

  lemma AskBinds(p: Platform, o: Options, v: string, i: nat, rep: Reply, st: State, next: State)
    requires v in o.inputs && o.mode.Install? && next == Settle(st, i, Handle(p, o, Ask(v), i, rep, st))
    ensures next.vars == st.vars[v := o.inputs[v]]
  {
    assert PromptVar(Ask(v).args) == Some(v);
  }

  lemma UnmetIsSkipped(p: Platform, o: Options, d: Directive, i: nat, rep: Reply, st: State, next: State)
    requires !WhenMet(d.attrs.guard, st.vars) && next == Settle(st, i, Handle(p, o, d, i, rep, st))
    ensures i in next.ledger.skipped
  {
    assert (st.ledger.skipped + [i])[|st.ledger.skipped|] == i;
  }

  lemma GuardedIsSkipped(p: Platform, o: Options, v: string, ds: seq<Directive>, reps: seq<Reply>, t: Tree)
    requires |ds| == |reps| == 3 && o.mode.Install? && v in o.inputs && ds[0] == Ask(v)
    requires ds[1].attrs.guard.Some? && ds[1].attrs.guard.value.Equals? && ds[1].attrs.guard.value.v == v
    requires o.inputs[v] != ds[1].attrs.guard.value.value
    ensures 1 in RunAll(p, o, ds, reps, t).ledger.skipped
  {
    var f := Stepping(p, o, ds, reps);
    assert Drive(f, t, 0) == Initial(t);
    AskBinds(p, o, v, 0, reps[0], Drive(f, t, 0), Drive(f, t, 1));
    UnmetIsSkipped(p, o, ds[1], 1, reps[1], Drive(f, t, 1), Drive(f, t, 2));
    var st := Drive(f, t, 2);
    PutKeeps(st.ledger, 2, f(2, st).verdict, 1);
  }

  /** A definer behind a guard that is not met is skipped, and its uses are deferred all the same. */
  lemma GuardedDefinerDefers(p: Platform, o: Options, v: string, d: Directive, x: string, ds: seq<Directive>, reps: seq<Reply>, t: Tree)
    requires ds == [Ask(v), d, Use(x)]
    requires d.attrs.guard.Some? && d.attrs.guard.value.Equals? && d.attrs.guard.value.v == v
    requires v in o.inputs && o.inputs[v] != d.attrs.guard.value.value
    requires Rules(p, d, {v}) == [] && IsIdent(x) && x in Defines(d) && x != v
    requires Favourable(p, o, ds, reps) && RunAll(p, o, ds, reps, t).ledger.tasks == []
    ensures ProblemsOf(p, ds, 3) == []
    ensures RunAll(p, o, ds, reps, t).ledger.deferred != []
  {
    GuardedIsClean(p, v, d, x, ds);
    GuardedIsSkipped(p, o, v, ds, reps, t);
    OnlyAskIsLive(v, ds, RunAll(p, o, ds, reps, t).ledger.skipped);
    DeadUseDefers(p, o, ds, reps, t, 2, x);
  }

  lemma OnlyAskIsLive(v: string, ds: seq<Directive>, skipped: seq<nat>)
    requires |ds| == 3 && ds[0] == Ask(v) && 1 in skipped
    ensures LiveBefore(ds, skipped, 2) <= {v}
  {
    assert LiveBefore(ds, skipped, 1) <= {v};
  }

  lemma GuardedIsClean(p: Platform, v: string, d: Directive, x: string, ds: seq<Directive>)
    requires ds == [Ask(v), d, Use(x)] && Rules(p, d, {v}) == [] && IsIdent(x) && x in Defines(d)
    ensures ProblemsOf(p, ds, 3) == []
  {
    var check := CheckOf(p, ds);
    assert PromptVar(Ask(v).args) == Some(v) && DefinedBefore(ds, 0) == {} && DefinedBefore(ds, 1) == {v};
    AskIsClean(p, v);
    assert check(0) == [] && check(1) == [];
    UseIsClean(p, x, DefinedBefore(ds, 2));
    assert check(2) == [];
    assert Gather(check, 1) == [] && Gather(check, 2) == [];
  }

  lemma AskIsClean(p: Platform, v: string)
    ensures Rules(p, Ask(v), {}) == []
  {
    assert PromptVar(Ask(v).args) == Some(v);
    NoBraceNoNames("?");
    NoReferenceRules(Ask(v).body, {});
  }

  /**
   A name that an operator block or a step refers to across a line break: the check sees no
   reference at all, and an install run that bounces nothing defers the directive.
   */
  lemma SpanningReferenceDefers(p: Platform, o: Options, d: Directive, x: string, reps: seq<Reply>, t: Tree)
    requires Whole(d) && d.attrs.guard.None? && Rules(p, d, {}) == [] && x in Names(Join(d.body))
    requires Favourable(p, o, [d], reps) && RunAll(p, o, [d], reps, t).ledger.tasks == []
    ensures ProblemsOf(p, [d], 1) == []
    ensures RunAll(p, o, [d], reps, t).ledger.deferred != []
  {
    var ds := [d];
    var check := CheckOf(p, ds);
    assert DefinedBefore(ds, 0) == {} && check(0) == [] && Gather(check, 0) == [];
    DefersExactly(p, o, ds, reps, t);
    WholeNeverSkipped(p, o, ds, reps, t, 0);
    assert LiveBefore(ds, RunAll(p, o, ds, reps, t).ledger.skipped, 0) == {};
    assert !ReadyAt(ds, RunAll(p, o, ds, reps, t).ledger.skipped, 0);
  }

  // ----- There are such skills and runs -----

  const QUIET: Reply := Reply(Answered(None), None, None, None, [], StepDone(true, map[]), [], None, false)

  function Headless(inputs: map<string, string>): Options {
    Options(Install, inputs, false, false, {})
  }

  /** A command that captures nothing, or a prompt whose answer is given: neither can bounce. */
  predicate Harmless(p: Platform, o: Options, d: Directive) {
    match d.kind
    case RunCmd => !IsStep(d) && (d.attrs.effect == Some(Check) || d.attrs.capture.None?) && CalmCapture(p, d, "")
    case Prompt => AskedVar(d) in o.inputs && d.attrs.validate.None?
    case _ => false
  }

  lemma CommandCannotBounce(p: Platform, d: Directive, i: nat, w: Work)
    requires d.kind.RunCmd? && (d.attrs.effect == Some(Check) || d.attrs.capture.None?) && i < |d.body| && w.err.None?
    ensures var err := CommandAt(p, d, i, QUIET, w).err; err.Some? ==> err.value.Unresolved?
  {
    SubstituteMeans(d.body[i], w.vars);
    assert OutputAt(QUIET, i) == Out("");
  }

  lemma CommandsCannotBounce(p: Platform, d: Directive, w: Work)
    requires d.kind.RunCmd? && LineWise(d) && (d.attrs.effect == Some(Check) || d.attrs.capture.None?) && w.err.None?
    ensures var err := ApplyLines(p, d, 0, QUIET, w).err; err.Some? ==> err.value.Unresolved?
  {
    var inv := (i: nat, v: Work) => v.err.Some? ==> v.err.value.Unresolved?;
    forall j: nat, v: Work | j < |d.body| && v.err.None? && inv(j, v)
      ensures inv(j + 1, LineAt(p, d, j, QUIET, v))
    {
      CommandCannotBounce(p, d, j, v);
    }
    var k := LinesInduction(inv, p, d, QUIET, w);
  }

  lemma HarmlessVerdict(p: Platform, o: Options, d: Directive, i: nat, st: State)
    requires Harmless(p, o, d) && o.mode.Install? && !o.consumer && !st.blocked
    ensures !Handle(p, o, d, i, QUIET, st).verdict.Task?
  {
    if d.kind.RunCmd? {
      CommandsCannotBounce(p, d, WorkOf(st));
    }
  }

  lemma HarmlessStep(p: Platform, o: Options, d: Directive, i: nat, st: State, next: State)
    requires Harmless(p, o, d) && o.mode.Install? && !o.consumer && !st.blocked && st.ledger.tasks == []
    requires next == Settle(st, i, Handle(p, o, d, i, QUIET, st))
    ensures !next.blocked && next.ledger.tasks == []
  {
    HarmlessVerdict(p, o, d, i, st);
  }

  lemma HarmlessRun(p: Platform, o: Options, ds: seq<Directive>, reps: seq<Reply>, t: Tree)
    requires |ds| == |reps| && o.mode.Install? && !o.consumer
    requires (forall d <- ds :: Harmless(p, o, d)) && forall rep <- reps :: rep == QUIET
    ensures RunAll(p, o, ds, reps, t).ledger.tasks == []
  {
    var f := Stepping(p, o, ds, reps);
    var inv := (i: nat, st: State) => !st.blocked && st.ledger.tasks == [];
    forall i: nat | i < |ds| && inv(i, Drive(f, t, i))
      ensures inv(i + 1, Drive(f, t, i + 1))
    {
      assert ds[i] in ds && reps[i] in reps;
      HarmlessStep(p, o, ds[i], i, Drive(f, t, i), Drive(f, t, i + 1));
    }
    DriveInduction(inv, f, t, |ds|);
  }

  lemma HarmlessIsFavourable(p: Platform, o: Options, ds: seq<Directive>, reps: seq<Reply>)
    requires |ds| == |reps| && o.mode.Install? && o.skipEffects == {}
    requires (forall d <- ds :: Harmless(p, o, d)) && forall rep <- reps :: rep == QUIET
    ensures Favourable(p, o, ds, reps)
  {
    forall i | 0 <= i < |ds|
      ensures Calm(p, ds[i], reps[i]) && AnsweredWell(p, o, ds[i], reps[i])
    {
      assert ds[i] in ds && reps[i] in reps && Harmless(p, o, ds[i]);
      TrimOfTrimmed("");
      assert forall j: nat :: OutputAt(QUIET, j) == Out("");
    }
  }

  /** `run effect:check capture:x` */
  function CheckCapture(x: string, guard: Option<When>): Directive {
    Directive(RunCmd, [], PLAIN.(effect := Some(Check), capture := Some(Bare(x)), guard := guard), ["true"])
  }

  lemma CheckCaptureIsHarmless(p: Platform, o: Options, x: string, guard: Option<When>)
    requires IsIdent(x)
    ensures Harmless(p, o, CheckCapture(x, guard)) && Harmless(p, o, Use(x))
    ensures x in Defines(CheckCapture(x, guard)) && x !in Binds(CheckCapture(x, guard))
  {
    var message := Mismatch(CheckCapture(x, guard), x, "");
    forall c <- message
      ensures c != '{'
    {
      assert message == "captured " + x + "=\"" + "" + "\" does not match validate:" + "";
      assert c in x ==> IsIdentPart(c);
    }
    NoBraceIsCalm(message);
  }

  lemma MarkerHasBrace(message: string)
    requires Contains(message, UNRESOLVED)
    ensures '{' in message
  {
    var r := Cut(message, UNRESOLVED);
    assert message == r.0 + UNRESOLVED + r.2 && UNRESOLVED[11] == '{';
    assert message[|r.0| + 11] == UNRESOLVED[11];
  }

  lemma NoBraceIsCalm(message: string)
    requires '{' !in message
    ensures CalmMessage(message)
  {
    if Contains(message, UNRESOLVED) {
      MarkerHasBrace(message);
    }
  }

  lemma PlainCommandIsClean(p: Platform, d: Directive, defined: set<string>)
    requires d.kind.RunCmd? && d.attrs.removed == {} && d.attrs.validate.None? && ReferencedVars(d) == {}
    requires var guard := d.attrs.guard; guard.None? || (guard.value.Equals? && guard.value.v in defined)
    ensures Rules(p, d, defined) == []
  {
    assert forall i | 0 <= i < |d.body| :: Names(d.body[i]) <= ReferencedVars(d);
    NoReferenceRules(d.body, defined);
  }

  lemma CheckCaptureIsClean(p: Platform, x: string, guard: Option<When>, defined: set<string>)
    requires guard.None? || (guard.value.Equals? && guard.value.v in defined)
    ensures Rules(p, CheckCapture(x, guard), defined) == []
  {
    NoBraceNoNames("true");
    PlainCommandIsClean(p, CheckCapture(x, guard), defined);
  }

  /** Harmless directives and quiet replies meet the hypotheses of the results above. */
  lemma QuietRuns(p: Platform, o: Options, ds: seq<Directive>, reps: seq<Reply>, t: Tree)
    requires |ds| == |reps| && o.mode.Install? && o.skipEffects == {} && !o.consumer
    requires (forall i | 0 <= i < |ds| :: Harmless(p, o, ds[i])) && forall i | 0 <= i < |reps| :: reps[i] == QUIET
    ensures Favourable(p, o, ds, reps) && RunAll(p, o, ds, reps, t).ledger.tasks == []
  {
    HarmlessIsFavourable(p, o, ds, reps);
    HarmlessRun(p, o, ds, reps, t);
  }

  lemma AskIsHarmless(p: Platform, o: Options, v: string)
    requires v in o.inputs
    ensures Harmless(p, o, Ask(v))
  {
    assert PromptVar(Ask(v).args) == Some(v);
  }

  /** Every operator block that refers to something, alone in a skill, meets the hypotheses above. */
  lemma LoneOperatorRuns(p: Platform, d: Directive, t: Tree)
    requires d.kind.Operator? && d.attrs.guard.None? && Names(Join(d.body)) != {}
    ensures Favourable(p, Headless(map[]), [d], [QUIET])
    ensures RunAll(p, Headless(map[]), [d], [QUIET], t).ledger.tasks == []
  {
    var o, f := Headless(map[]), Stepping(p, Headless(map[]), [d], [QUIET]);
    SubstituteMeans(Join(d.body), map[]);
    assert DoOperator(o, d, 0, QUIET, Initial(t)) == Quiet(Initial(t), Deferred);
    assert f(0, Initial(t)) == Handle(p, o, d, 0, QUIET, Initial(t)) == Quiet(Initial(t), Deferred);
    assert Drive(f, t, 0) == Initial(t);
    assert Drive(f, t, 1) == Settle(Initial(t), 0, Quiet(Initial(t), Deferred));
  }

  /** Such as the lines "Paste {{" and "name }} here": each refers to nothing, together to `name`. */
  lemma SpanningNames(first: string, second: string)
    requires first == "Paste " + "{{" && second == "name }}" + " here"
    ensures Names(first) == {} && Names(second) == {} && "name" in Names(Join([first, second]))
  {
    NoBraceNoNames(first);
    NoBraceNoNames(second);
    var m := "{{" + "\n" + "name }}";
    SpanningMatch(m);
    NamesWithin("Paste ", m, " here");
    Around("Paste ", "{{", "\n", "name }}", " here");
    assert [first, second][1..] == [second] && Join([first, second]) == first + "\n" + second;
  }

  lemma Around(a: string, b: string, c: string, d: string, e: string)
    ensures (a + b) + c + (d + e) == a + (b + c + d) + e
  {
  }

  lemma SpanningMatch(m: string)
    requires m == "{{" + "\n" + "name }}"
    ensures "name" in Names(m)
  {
    ShapeHead(m, 3, 7, 8);
    assert m[0..] == m && m[3..7] == "name";
    assert NamedAt(m, 0, "name");
    NamesMean(m, "name");
  }
}
