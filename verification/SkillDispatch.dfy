/**
 Which directives a run of nanoclaw/scripts/skill-apply.ts skips, which it hands to an agent untried,
 and which it tries: for every kind, in an install and in a refresh.
 */
module SkillDispatch {
  import opened Wrappers
  import opened Text
  import opened References
  import opened Directives
  import opened SkillEngine
  import opened SkillEffects
  import opened Substitution

  /** The guard names a variable that does not have the value. */
  predicate GuardUnmet(d: Directive, vars: Vars) {
    && d.attrs.guard.Some? && d.attrs.guard.value.Equals?
    && !(d.attrs.guard.value.v in vars && vars[d.attrs.guard.value.v] == d.attrs.guard.value.value)
  }

  /** What a refresh leaves alone. */
  predicate NotRefreshed(d: Directive) {
    match d.kind
    case Prompt => true
    case Operator => true
    case EnvSet => true
    case RunCmd => d.attrs.effect != Some(Refresh)
    case _ => false
  }

  /** The array that a merge goes into has an element with the value under the key. */
  ghost predicate ElementThere(p: Platform, t: Tree, into: Path, key: string, value: Option<Json>) {
    exists elems, i: nat ::
      p.parse(JsonText(t, into)) == Some(JArr(elems)) && i < |elems| && KeyMatches(elems[i], key, value)
  }

  /** The body of a merge is JSON that can have fields. */
  predicate Usable(p: Platform, d: Directive) {
    p.parse(Join(d.body)).Some? && p.parse(Join(d.body)) != Some(JNull)
  }

  function FieldOf(p: Platform, d: Directive, key: string): Option<Json>
    requires Usable(p, d)
  {
    Field(p.parse(Join(d.body)).value, key)
  }

  function ManifestText(d: Directive, t: Tree): string {
    var path := if d.attrs.cwd == None || d.attrs.cwd == Some("") then "package.json" else d.attrs.cwd.value + "/package.json";
    if path in t then t[path] else ""
  }

  /** What the directive is for is there already. Files, dependencies and elements are renewed by a refresh all the same. */
  ghost predicate NothingToDo(p: Platform, mode: Mode, d: Directive, t: Tree) {
    match d.kind
    case Copy => mode.Install? && InPlace(p, d, t)
    case Append => InPlace(p, d, t)
    case EnvSet => InPlace(p, d, t)
    case Dep => mode.Install? && forall i | 0 <= i < |d.body| :: p.hasDep(ManifestText(d, t), d.body[i])
    case JsonMerge =>
      && mode.Install? && Usable(p, d)
      && ElementThere(p, t, OrEmpty(d.attrs.into), OrEmpty(d.attrs.key), FieldOf(p, d, OrEmpty(d.attrs.key)))
    case _ => false
  }

  /** The directive is skipped. */
  ghost predicate Passed(p: Platform, o: Options, d: Directive, st: State) {
    || (o.mode.RefreshOnly? && NotRefreshed(d))
    || GuardUnmet(d, st.vars)
    || (d.kind.Operator? && st.blocked)
    || (d.kind.RunCmd? && d.attrs.effect.Some? && d.attrs.effect.value in o.skipEffects)
    || NothingToDo(p, o.mode, d, st.tree)
  }

  /** It is handed to an agent without being tried. */
  predicate Untried(p: Platform, d: Directive, st: State) {
    || d.kind.Unknown?
    || (d.kind.JsonMerge? && !Usable(p, d))
    || (d.kind.RunCmd? && st.blocked && d.attrs.effect.Some? && d.attrs.effect.value in {Restart, StreamStep, Wire, Build, Test})
  }

  lemma ElementMeans(p: Platform, t: Tree, into: Path, key: string, value: Option<Json>)
    ensures ArrayHasKey(p, t, into, key, value) <==> ElementThere(p, t, into, key, value)
  {
    match ParseFile(p, t, into)
    case Some(JArr(elems)) =>
      var i := FindKey(elems, key, value);
      assert i >= 0 ==> KeyMatches(elems[i], key, value);
    case _ =>
  }

  lemma StatusMeans(p: Platform, d: Directive, t: Tree, mode: Mode)
    requires !d.kind.Prompt? && !d.kind.Operator?
    ensures SelfStatus(p, d, t, mode).Skip? <==> NothingToDo(p, mode, d, t)
    ensures SelfStatus(p, d, t, mode).Agent? <==> d.kind.Unknown? || (d.kind.JsonMerge? && !Usable(p, d))
  {
    match d.kind
    case Copy => SatisfiedMeans(p, d, t);
    case Append => SatisfiedMeans(p, d, t);
    case EnvSet => SatisfiedMeans(p, d, t);
    case JsonMerge =>
      if Usable(p, d) {
        ElementMeans(p, t, OrEmpty(d.attrs.into), OrEmpty(d.attrs.key), FieldOf(p, d, OrEmpty(d.attrs.key)));
      }
    case _ =>
  }

  lemma GuardMeans(d: Directive, vars: Vars)
    ensures WhenMet(d.attrs.guard, vars) <==> !GuardUnmet(d, vars)
  {
  }

  lemma MutationVerdict(o: Options, d: Directive, i: nat, rep: Reply, st: State, w: Work)
    ensures !DoMutation(o, d, i, rep, st, w).verdict.Skipped?
  {
  }

  lemma PromptNotSkipped(p: Platform, o: Options, d: Directive, rep: Reply, st: State)
    ensures !DoPrompt(p, o, d, rep, st).verdict.Skipped?
  {
  }

  lemma OperatorSkipped(o: Options, d: Directive, i: nat, rep: Reply, st: State)
    ensures DoOperator(o, d, i, rep, st).verdict.Skipped? <==> st.blocked
    ensures st.blocked ==> DoOperator(o, d, i, rep, st) == Quiet(st, Skipped)
  {
  }

  lemma AlwaysSomething(p: Platform, o: Options, d: Directive, st: State)
    requires d.kind.RunCmd? || d.kind.Prompt? || d.kind.Operator?
    ensures !NothingToDo(p, o.mode, d, st.tree)
  {
  }

  /** A directive is skipped exactly when it is to be passed over, and then nothing changes. */
  lemma SkippedExactly(p: Platform, o: Options, d: Directive, i: nat, rep: Reply, st: State)
    ensures var r := Handle(p, o, d, i, rep, st);
            && (r.verdict.Skipped? <==> Passed(p, o, d, st))
            && (r.verdict.Skipped? ==> r == Done(st.tree, st.vars, st.journal, [], [], Skipped))
  {
    hide DoPrompt, DoOperator, DoMutation, SelfStatus, NothingToDo, ApplyOne, WhenMet, GuardUnmet;
    var w := ApplyOne(p, o, d, rep, WorkOf(st));
    GuardMeans(d, st.vars);
    MutationVerdict(o, d, i, rep, st, w);
    PromptNotSkipped(p, o, d, rep, st);
    OperatorSkipped(o, d, i, rep, st);
    if !d.kind.Prompt? && !d.kind.Operator? {
      StatusMeans(p, d, st.tree, o.mode);
    }
    if d.kind.RunCmd? || d.kind.Prompt? || d.kind.Operator? {
      AlwaysSomething(p, o, d, st);
    }
  }

  /** What cannot or must not be tried goes to an agent, and nothing changes but the latch. */
  lemma UntriedIsBounced(p: Platform, o: Options, d: Directive, i: nat, rep: Reply, st: State)
    requires !Passed(p, o, d, st) && Untried(p, d, st)
    ensures Handle(p, o, d, i, rep, st) == Done(st.tree, st.vars, st.journal, [], [], Task)
    ensures Settle(st, i, Handle(p, o, d, i, rep, st)).blocked
  {
    hide NothingToDo, ApplyOne, SelfStatus;
    GuardMeans(d, st.vars);
    StatusMeans(p, d, st.tree, o.mode);
  }

  /** A missing input defers; a step's own report and every other error go to an agent. */
  function Verdict(err: Err): SkillEngine.Verdict {
    match err
    case Unresolved(_) => Deferred
    case Reported(_) => Task
    case Other(looksUnresolved) => if looksUnresolved then Deferred else Task
  }

  /** Everything else is tried: without a consumer it ends as its mutation does. */
  lemma OthersAreTried(p: Platform, o: Options, d: Directive, i: nat, rep: Reply, st: State, w: Work)
    requires !Passed(p, o, d, st) && !Untried(p, d, st) && !d.kind.Prompt? && !d.kind.Operator? && !o.consumer
    requires w == ApplyOne(p, o, d, rep, WorkOf(st))
    ensures var r := Handle(p, o, d, i, rep, st);
            && r.tree == w.tree && r.vars == w.vars && r.journal == w.journal && r.messages == []
            && (w.err.None? ==> r.verdict.Applied?)
            && (w.err.Some? ==> r.verdict == Verdict(w.err.value))
  {
    hide NothingToDo, ApplyOne, SelfStatus;
    GuardMeans(d, st.vars);
    StatusMeans(p, d, st.tree, o.mode);
  }

  /** A consumer that throws at the start of a step keeps the mutation from being tried. */
  lemma RefusedStart(p: Platform, o: Options, d: Directive, i: nat, rep: Reply, st: State)
    requires !Passed(p, o, d, st) && !Untried(p, d, st) && !d.kind.Prompt? && !d.kind.Operator?
    requires o.consumer && rep.start.Some?
    ensures Handle(p, o, d, i, rep, st) ==
            Done(st.tree, st.vars, st.journal, [], [StepStart(i, false)], Verdict(rep.start.value))
  {
    hide NothingToDo, ApplyOne, SelfStatus;
    GuardMeans(d, st.vars);
    StatusMeans(p, d, st.tree, o.mode);
  }

  /** One that throws at the end of a step that worked decides how it counts; what was done stays done. */
  lemma RefusedEnd(p: Platform, o: Options, d: Directive, i: nat, rep: Reply, st: State, w: Work)
    requires !Passed(p, o, d, st) && !Untried(p, d, st) && !d.kind.Prompt? && !d.kind.Operator?
    requires o.consumer && rep.start.None? && w == ApplyOne(p, o, d, rep, WorkOf(st)) && w.err.None?
    ensures var r := Handle(p, o, d, i, rep, st);
            && r.tree == w.tree && r.vars == w.vars && r.journal == w.journal
            && r.verdict == if rep.end.Some? then Verdict(rep.end.value) else Applied
  {
    hide NothingToDo, ApplyOne, SelfStatus;
    GuardMeans(d, st.vars);
    StatusMeans(p, d, st.tree, o.mode);
  }

  /** A block that the consumer refuses was shown all the same, and stays among the messages. */
  lemma RefusedBlock(p: Platform, o: Options, d: Directive, i: nat, rep: Reply, st: State, text: string)
    requires !Passed(p, o, d, st) && d.kind.Operator? && o.consumer && rep.shown.Some? && Becomes(Join(d.body), st.vars, text)
    ensures Handle(p, o, d, i, rep, st) == Done(st.tree, st.vars, st.journal, [text], [Shown(i)], Verdict(rep.shown.value))
  {
    hide NothingToDo, SelfStatus, Becomes;
    GuardMeans(d, st.vars);
    SubstituteMeans(Join(d.body), st.vars, text);
  }

  /** The body of a line-wise directive is worked off line by line, up to the first one that throws. */
  lemma LineByLine(p: Platform, d: Directive, i: nat, rep: Reply, w: Work)
    requires LineWise(d) && i <= |d.body|
    ensures w.err.Some? ==> ApplyLines(p, d, i, rep, w) == w
    ensures i == |d.body| ==> ApplyLines(p, d, i, rep, w) == w
    ensures i < |d.body| && w.err.None? ==> ApplyLines(p, d, i, rep, w) == ApplyLines(p, d, i + 1, rep, LineAt(p, d, i, rep, w))
  {
    hide LineAt;
    if i < |d.body| {
      assert Lining(p, d, rep)(i, w) == LineAt(p, d, i, rep, w);
    }
  }

  /** A step that reports failure is a failure, whatever its own words: it never counts as a missing input. */
  lemma FailedStepBounces(d: Directive, rep: Reply, w: Work, text: string, fields: map<string, string>)
    requires Becomes(Join(d.body), w.vars, text) && rep.step == StepDone(false, fields) && w.err.None?
    ensures var w' := ApplyStep(d, true, rep, w);
            && w' == w.(ran := w.ran + [text], err := w'.err) && w'.err.Some? && Verdict(w'.err.value) == Task
  {
    SubstituteMeans(Join(d.body), w.vars, text);
  }

  /** Missing dependencies are added by one command, and the journal can take them out again. */
  lemma DepAdds(p: Platform, o: Options, d: Directive, rep: Reply, w: Work)
    requires d.kind.Dep? && w.err.None? && (|rep.commands| > 0 ==> rep.commands[0].Out?)
    ensures ApplyOne(p, o, d, rep, w) == w.(journal := w.journal + [Ran("add", Some("remove"))])
  {
  }
}
