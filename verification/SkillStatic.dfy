/**
 The static check against the interpreter. DefersExactly says which directives of an install run
 end up deferred. The check reads a body line by line, but operator blocks and steps are
 substituted as one text; StaticCheckExact says when a checked skill is fully applied.
 */
module SkillStatic {
  import opened Wrappers
  import opened Text
  import opened References
  import opened Directives
  import opened SkillEngine
  import opened SkillRun

  // ----- What a directive needs and what it binds -----

  function NamedVars(pairs: seq<Pair>): set<string> {
    if pairs == [] then {}
    else (match pairs[0] case Named(v, _) => {v} case _ => {}) + NamedVars(pairs[1..])
  }

  predicate IsStep(d: Directive) {
    d.kind.RunCmd? && d.attrs.effect == Some(StreamStep)
  }

  /** The variables set by a directive that ran to its end. */
  function Binds(d: Directive): set<string> {
    if d.kind.Prompt? then (if PromptVar(d.args).Some? then {PromptVar(d.args).value} else {})
    else if !d.kind.RunCmd? || d.attrs.capture.None? then {}
    else if IsStep(d) then (if d.attrs.capture.value.Pairs? then NamedVars(d.attrs.capture.value.pairs) else {})
    else if d.attrs.effect == Some(Check) || d.body == [] then {}
    else
      match d.attrs.capture.value
      case Bare(v) => {v}
      case Pairs(pairs) => NamedVars(pairs)
  }

  /** Substituted as one text, its lines joined. */
  predicate Whole(d: Directive) {
    IsStep(d) || d.kind.Operator?
  }

  /** The names body line j substitutes, less those bound by the lines before it. */
  function LineNeeds(d: Directive, j: nat): set<string>
    requires j < |d.body|
  {
    match d.kind
    case RunCmd => if j == 0 then Names(d.body[j]) else Names(d.body[j]) - Binds(d)
    case EnvSet => Names(EnvValue(d.body[j]))
    case _ => {}
  }

  ghost predicate Needed(d: Directive, vars: set<string>) {
    if Whole(d) then Names(Join(d.body)) <= vars
    else forall j: nat | j < |d.body| :: LineNeeds(d, j) <= vars
  }

  lemma {:induction false} FillMeans(pieces: seq<Piece>, vars: Vars)
    ensures Fill(pieces, vars).Ok? <==> forall x <- NamesOf(pieces) :: x in vars
    ensures Fill(pieces, vars).Err? ==> Fill(pieces, vars).error.Unresolved?
  {
    if pieces != [] {
      FillMeans(pieces[1..], vars);
      assert pieces == [pieces[0]] + pieces[1..];
      forall x
        ensures x in NamesOf(pieces) <==> pieces[0] == Ref(x) || x in NamesOf(pieces[1..])
      {
        NamesOfCons(pieces[0], pieces[1..], x);
      }
    }
  }

  lemma SubstituteMeans(s: string, vars: Vars)
    ensures Substitute(s, vars).Ok? <==> Names(s) <= vars.Keys
    ensures Substitute(s, vars).Err? ==> Substitute(s, vars).error.Unresolved?
  {
    FillMeans(Pieces(s), vars);
  }

  // ----- Errors -----

  predicate LooksUnresolved(err: Err) {
    err.Unresolved? || (err.Other? && err.looksUnresolved)
  }

  predicate CalmReaction(r: Reaction) {
    r.None? || !LooksUnresolved(r.value)
  }

  predicate CalmOutput(out: Output) {
    out.Throws? ==> !LooksUnresolved(out.err)
  }

  predicate CalmMessage(message: string) {
    !Contains(message, UNRESOLVED)
  }

  /** A refused capture quotes the captured value. */
  predicate CalmCapture(p: Platform, d: Directive, stdout: string) {
    d.attrs.capture.Some? ==>
      match d.attrs.capture.value
      case Bare(v) => CalmMessage(Mismatch(d, v, stdout))
      case Pairs(pairs) => p.parse(stdout).Some? ==> CalmPairs(p, d, pairs, p.parse(stdout).value)
  }

  predicate CalmPairs(p: Platform, d: Directive, pairs: seq<Pair>, json: Json) {
    forall i | 0 <= i < |pairs| && pairs[i].Named? :: CalmMessage(Mismatch(d, pairs[i].v, DotPath(p, json, pairs[i].path)))
  }

  /** No message the engine makes for this directive quotes the words of a missing input. */
  predicate CalmOwn(p: Platform, d: Directive, rep: Reply) {
    && (d.kind.Append? ==> CalmMessage(NoMarker(d)))
    && (d.kind.JsonMerge? ==> CalmMessage(NoArray(OrUndefined(d.attrs.into))))
    && (d.kind.Unknown? ==> CalmMessage(NoHandler(d)))
    && (d.kind.RunCmd? ==>
          forall i: nat | i < |d.body| && OutputAt(rep, i).Out? :: CalmCapture(p, d, Trim(OutputAt(rep, i).stdout)))
  }

  /** No error reads like the engine's own message for a missing input but that message itself. */
  predicate Calm(p: Platform, d: Directive, rep: Reply) {
    && CalmReaction(rep.start) && CalmReaction(rep.end) && CalmReaction(rep.shown)
    && (forall out <- rep.commands :: CalmOutput(out))
    && (rep.step.StepThrows? ==> !LooksUnresolved(rep.step.err))
    && (rep.input.ResolverThrows? ==> !LooksUnresolved(rep.input.err))
    && !rep.quotes && CalmOwn(p, d, rep)
  }

  /** A prompt gets a value, and the value passes its pattern. */
  predicate AnsweredWell(p: Platform, o: Options, d: Directive, rep: Reply) {
    d.kind.Prompt? ==>
      match Acquire(o, AskedVar(d), rep)
      case ResolverThrows(_) => true
      case Answered(None) => false
      case Answered(Some(value)) =>
        d.attrs.validate.Some? ==>
          p.matches(d.attrs.validate.value, OrEmpty(d.attrs.flags), NormalizeValue(p, value, d.attrs.normalize))
  }

  // ----- One run directive -----

  lemma {:induction false} BindPairsKeys(p: Platform, d: Directive, pairs: seq<Pair>, json: Json, vars: Vars)
    requires CalmPairs(p, d, pairs, json)
    ensures var (after, err) := BindPairs(p, d, pairs, json, vars);
            && (err.None? ==> after.Keys == vars.Keys + NamedVars(pairs))
            && (err.Some? ==> !LooksUnresolved(err.value))
  {
    hide DotPath, Mismatch, Contains;
    if pairs != [] {
      assert CalmPairs(p, d, pairs[1..], json) by {
        assert forall i | 0 <= i < |pairs| - 1 :: pairs[1..][i] == pairs[i + 1];
      }
      match pairs[0]
      case Named(v, path) =>
        var bound := Bind(p, d, vars, v, DotPath(p, json, path));
        if bound.Ok? {
          BindPairsKeys(p, d, pairs[1..], json, bound.value);
        }
      case _ => BindPairsKeys(p, d, pairs[1..], json, vars);
    }
  }

  lemma CaptureKeys(p: Platform, d: Directive, rep: Reply, stdout: string, vars: Vars)
    requires d.kind.RunCmd? && !IsStep(d) && d.attrs.effect != Some(Check) && d.body != []
    requires d.attrs.capture.Some? && !rep.quotes && CalmCapture(p, d, stdout)
    ensures var (after, err) := BindCapture(p, d, rep, stdout, vars);
            && (err.None? ==> after.Keys == vars.Keys + Binds(d))
            && (err.Some? ==> !LooksUnresolved(err.value))
  {
    if d.attrs.capture.value.Pairs? && p.parse(stdout).Some? {
      BindPairsKeys(p, d, d.attrs.capture.value.pairs, p.parse(stdout).value, vars);
    }
  }

  lemma {:induction false} BindFieldsKeys(pairs: seq<Pair>, fields: map<string, string>, vars: Vars)
    ensures BindFields(pairs, fields, vars).Keys == vars.Keys + NamedVars(pairs)
  {
    if pairs != [] {
      match pairs[0]
      case Named(v, field) =>
        BindFieldsKeys(pairs[1..], fields, vars[v := Trim(if field in fields then fields[field] else "")]);
      case _ => BindFieldsKeys(pairs[1..], fields, vars);
    }
  }

  /** The variables that are set when body line i starts. */
  function KeysAt(d: Directive, vars: set<string>, i: nat): set<string> {
    if i == 0 then vars else vars + Binds(d)
  }

  ghost predicate LineResult(d: Directive, i: nat, vars: set<string>, next: Work)
    requires i < |d.body|
  {
    && (next.err.None? ==> LineNeeds(d, i) <= vars && next.vars.Keys == KeysAt(d, vars, i + 1))
    && (next.err.Some? && LooksUnresolved(next.err.value) ==> !(LineNeeds(d, i) <= vars))
  }

  lemma KeysAtNext(d: Directive, vars: set<string>, i: nat)
    ensures KeysAt(d, vars, i) + Binds(d) == KeysAt(d, vars, i + 1)
    ensures Binds(d) == {} ==> KeysAt(d, vars, i) == vars
  {
  }

  lemma CommandNeeds(d: Directive, vars: set<string>, i: nat)
    requires d.kind.RunCmd? && !IsStep(d) && i < |d.body|
    ensures Names(d.body[i]) <= KeysAt(d, vars, i) <==> LineNeeds(d, i) <= vars
  {
  }

  /** What a command does to the variables, and which errors it can end in. */
  lemma CommandShape(p: Platform, d: Directive, i: nat, rep: Reply, w: Work)
    requires d.kind.RunCmd? && !IsStep(d) && i < |d.body| && w.err.None? && Calm(p, d, rep)
    ensures var cmd, next := Substitute(d.body[i], w.vars), CommandAt(p, d, i, rep, w);
            && (cmd.Err? ==> next.err == Some(cmd.error))
            && (cmd.Ok? && next.err.Some? ==> !LooksUnresolved(next.err.value))
            && (next.err.None? ==> cmd.Ok? && next.vars.Keys == w.vars.Keys + Binds(d))
  {
    var out := OutputAt(rep, i);
    assert CalmOutput(out);
    if out.Out? && d.attrs.effect != Some(Check) && d.attrs.capture.Some? {
      assert CalmCapture(p, d, Trim(out.stdout));
      CaptureKeys(p, d, rep, Trim(out.stdout), w.vars);
      var (after, err) := BindCapture(p, d, rep, Trim(out.stdout), w.vars);
      var next := CommandAt(p, d, i, rep, w);
      assert next.err.None? ==> err.None? && next.vars == after;
    } else {
      assert out.Out? ==> Binds(d) == {};
      assert w.vars.Keys + {} == w.vars.Keys;
    }
  }

  lemma CommandDefers(p: Platform, d: Directive, i: nat, rep: Reply, w: Work, vars: set<string>)
    requires d.kind.RunCmd? && !IsStep(d) && i < |d.body|
    requires w.err.None? && Calm(p, d, rep) && w.vars.Keys == KeysAt(d, vars, i)
    ensures LineResult(d, i, vars, CommandAt(p, d, i, rep, w))
  {
    SubstituteMeans(d.body[i], w.vars);
    CommandShape(p, d, i, rep, w);
    CommandNeeds(d, vars, i);
    KeysAtNext(d, vars, i);
  }

  lemma EnvShape(d: Directive, i: nat, rep: Reply, w: Work)
    requires i < |d.body| && w.err.None?
    ensures var value, next := Substitute(EnvValue(d.body[i]), w.vars), EnvAt(d, i, rep, w);
            && next.vars == w.vars
            && (value.Err? ==> next.err == Some(value.error))
            && (value.Ok? ==> next.err == None || next.err == Some(Other(rep.quotes)))
  {
  }

  lemma EnvDefers(d: Directive, i: nat, rep: Reply, w: Work, vars: set<string>)
    requires d.kind.EnvSet? && i < |d.body| && !rep.quotes
    requires w.err.None? && w.vars.Keys == KeysAt(d, vars, i)
    ensures LineResult(d, i, vars, EnvAt(d, i, rep, w))
  {
    SubstituteMeans(EnvValue(d.body[i]), w.vars);
    EnvShape(d, i, rep, w);
    KeysAtNext(d, vars, i);
    KeysAtNext(d, vars, i + 1);
  }

  lemma AppendDefers(d: Directive, i: nat, rep: Reply, w: Work, vars: set<string>)
    requires d.kind.Append? && i < |d.body| && !rep.quotes && CalmMessage(NoMarker(d))
    requires w.err.None? && w.vars.Keys == KeysAt(d, vars, i)
    ensures LineResult(d, i, vars, AppendAt(d, i, rep, w))
  {
  }

  lemma LineDefers(p: Platform, d: Directive, i: nat, rep: Reply, w: Work, vars: set<string>)
    requires LineWise(d) && i < |d.body|
    requires w.err.None? && Calm(p, d, rep) && w.vars.Keys == KeysAt(d, vars, i)
    ensures LineResult(d, i, vars, LineAt(p, d, i, rep, w))
  {
    match d.kind
    case Append => AppendDefers(d, i, rep, w, vars);
    case EnvSet => EnvDefers(d, i, rep, w, vars);
    case RunCmd => CommandDefers(p, d, i, rep, w, vars);
  }

  /** Lines before i had all they need, or the last of them lacked something. */
  ghost predicate NeededTo(d: Directive, vars: set<string>, i: nat, w: Work) {
    && (w.err.None? ==> w.vars.Keys == KeysAt(d, vars, i) && forall j: nat | j < i && j < |d.body| :: LineNeeds(d, j) <= vars)
    && (w.err.Some? && LooksUnresolved(w.err.value) ==> !Needed(d, vars))
  }

  lemma LineNeededTo(p: Platform, d: Directive, i: nat, rep: Reply, w: Work, vars: set<string>, next: Work)
    requires LineWise(d) && i < |d.body| && w.err.None? && Calm(p, d, rep)
    requires NeededTo(d, vars, i, w) && next == LineAt(p, d, i, rep, w)
    ensures NeededTo(d, vars, i + 1, next)
  {
    LineDefers(p, d, i, rep, w, vars);
  }

  lemma LinesDefer(p: Platform, d: Directive, rep: Reply, w: Work)
    requires LineWise(d) && w.err.None? && Calm(p, d, rep)
    ensures NeededTo(d, w.vars.Keys, |d.body|, ApplyLines(p, d, 0, rep, w))
  {
    var vars := w.vars.Keys;
    var inv := (i: nat, v: Work) => i <= |d.body| && NeededTo(d, vars, i, v);
    forall j: nat, v: Work | j < |d.body| && v.err.None? && inv(j, v)
      ensures inv(j + 1, LineAt(p, d, j, rep, v))
    {
      LineNeededTo(p, d, j, rep, v, vars, LineAt(p, d, j, rep, v));
    }
    var k := LinesInduction(inv, p, d, rep, w);
  }

  /** applyOne ended well only with all it needs; or it lacks something, when it says so. */
  ghost predicate Explains(d: Directive, vars: set<string>, w: Work) {
    && (w.err.None? ==> Needed(d, vars) && w.vars.Keys == vars + Binds(d))
    && (w.err.Some? && LooksUnresolved(w.err.value) ==> !Needed(d, vars))
  }

  lemma StepCommandDefers(p: Platform, d: Directive, stream: bool, rep: Reply, w: Work)
    requires IsStep(d) && w.err.None? && Calm(p, d, rep)
    ensures Explains(d, w.vars.Keys, ApplyStep(d, stream, rep, w))
  {
    SubstituteMeans(Join(d.body), w.vars);
    if rep.step.StepDone? && d.attrs.capture.Some? && d.attrs.capture.value.Pairs? {
      BindFieldsKeys(d.attrs.capture.value.pairs, rep.step.fields, w.vars);
    }
  }

  lemma LineWiseExplained(d: Directive, vars: set<string>, w: Work)
    requires LineWise(d) && NeededTo(d, vars, |d.body|, w)
    ensures Explains(d, vars, w)
  {
    KeysAtNext(d, vars, |d.body|);
  }

  lemma ApplyDefers(p: Platform, o: Options, d: Directive, rep: Reply, w: Work)
    requires w.err.None? && Calm(p, d, rep) && !d.kind.Operator? && !d.kind.Prompt?
    ensures Explains(d, w.vars.Keys, ApplyOne(p, o, d, rep, w))
  {
    if LineWise(d) {
      LinesDefer(p, d, rep, w);
      LineWiseExplained(d, w.vars.Keys, ApplyLines(p, d, 0, rep, w));
    } else if IsStep(d) {
      StepCommandDefers(p, d, o.stream, rep, w);
    } else {
      assert CalmOutput(OutputAt(rep, 0));
    }
  }

  // ----- One directive of a run -----

  /** How a directive ends, in terms of what it needs; nothing is said of a bounced one. */
  ghost predicate Outcome(d: Directive, st: State, r: Done) {
    match r.verdict
    case Task => true
    case Skipped => r.vars == st.vars
    case Deferred => !Needed(d, st.vars.Keys)
    case _ => Needed(d, st.vars.Keys) && r.vars.Keys == st.vars.Keys + Binds(d)
  }

  /** An install run in which the caller skips nothing and every prompt is answered well. */
  ghost predicate Favourable(p: Platform, o: Options, ds: seq<Directive>, reps: seq<Reply>) {
    && |ds| == |reps| && o.mode.Install? && o.skipEffects == {}
    && forall i | 0 <= i < |ds| :: Calm(p, ds[i], reps[i]) && AnsweredWell(p, o, ds[i], reps[i])
  }

  lemma CalmIsTask(err: Err)
    ensures Classify(err) == if LooksUnresolved(err) then Deferred else Task
  {
  }

  lemma MutationOutcome(p: Platform, o: Options, d: Directive, i: nat, rep: Reply, st: State, w: Work)
    requires Calm(p, d, rep) && Explains(d, st.vars.Keys, w)
    ensures Outcome(d, st, DoMutation(o, d, i, rep, st, w))
  {
    if w.err.Some? {
      CalmIsTask(w.err.value);
    }
    if rep.start.Some? {
      CalmIsTask(rep.start.value);
    }
    if rep.end.Some? {
      CalmIsTask(rep.end.value);
    }
  }

  lemma OperatorOutcome(p: Platform, o: Options, d: Directive, i: nat, rep: Reply, st: State)
    requires Calm(p, d, rep) && d.kind.Operator?
    ensures Outcome(d, st, DoOperator(o, d, i, rep, st))
  {
    SubstituteMeans(Join(d.body), st.vars);
    if rep.shown.Some? {
      CalmIsTask(rep.shown.value);
    }
    assert st.vars.Keys + Binds(d) == st.vars.Keys;
  }

  lemma PromptOutcome(p: Platform, o: Options, d: Directive, rep: Reply, st: State)
    requires Calm(p, d, rep) && d.kind.Prompt? && AnsweredWell(p, o, d, rep)
    ensures Outcome(d, st, DoPrompt(p, o, d, rep, st))
  {
    match Acquire(o, AskedVar(d), rep) {
      case ResolverThrows(err) => CalmIsTask(err);
      case _ =>
    }
  }

  lemma HandleWithOutcome(p: Platform, o: Options, d: Directive, i: nat, rep: Reply, st: State, w: Work)
    requires Calm(p, d, rep) && AnsweredWell(p, o, d, rep)
    requires !d.kind.Operator? && !d.kind.Prompt? ==> Explains(d, st.vars.Keys, w)
    ensures Outcome(d, st, HandleWith(p, o, d, i, rep, st, w))
  {
    if d.kind.Prompt? {
      PromptOutcome(p, o, d, rep, st);
    } else if d.kind.Operator? {
      OperatorOutcome(p, o, d, i, rep, st);
    } else {
      MutationOutcome(p, o, d, i, rep, st, w);
    }
  }

  lemma HandleOutcome(p: Platform, o: Options, d: Directive, i: nat, rep: Reply, st: State)
    requires Calm(p, d, rep) && AnsweredWell(p, o, d, rep)
    ensures Outcome(d, st, Handle(p, o, d, i, rep, st))
  {
    if !d.kind.Operator? && !d.kind.Prompt? {
      ApplyDefers(p, o, d, rep, WorkOf(st));
    }
    HandleWithOutcome(p, o, d, i, rep, st, ApplyOne(p, o, d, rep, WorkOf(st)));
  }

  // ----- Whole runs -----

  /** What is bound before directive i: whatever the earlier directives bind, unless skipped. */
  function LiveBefore(ds: seq<Directive>, skipped: seq<nat>, i: nat): set<string>
    requires i <= |ds|
  {
    if i == 0 then {}
    else LiveBefore(ds, skipped, i - 1) + if i - 1 in skipped then {} else Binds(ds[i - 1])
  }

  ghost predicate ReadyAt(ds: seq<Directive>, skipped: seq<nat>, i: nat)
    requires i < |ds|
  {
    i in skipped || Needed(ds[i], LiveBefore(ds, skipped, i))
  }

  ghost predicate Ready(ds: seq<Directive>, skipped: seq<nat>, n: nat)
    requires n <= |ds|
  {
    forall i: nat | i < n :: ReadyAt(ds, skipped, i)
  }

  lemma {:induction false} LiveSame(ds: seq<Directive>, s: seq<nat>, u: seq<nat>, i: nat)
    requires i <= |ds| && forall j: nat | j < i :: j in s <==> j in u
    ensures LiveBefore(ds, s, i) == LiveBefore(ds, u, i)
  {
    if i > 0 {
      LiveSame(ds, s, u, i - 1);
    }
  }

  lemma ReadySame(ds: seq<Directive>, s: seq<nat>, u: seq<nat>, n: nat)
    requires n <= |ds| && forall j: nat | j < n :: j in s <==> j in u
    ensures Ready(ds, s, n) <==> Ready(ds, u, n)
  {
    forall i: nat | i < n
      ensures ReadyAt(ds, s, i) <==> ReadyAt(ds, u, i)
    {
      LiveSame(ds, s, u, i);
    }
  }

  lemma ReadyNext(ds: seq<Directive>, skipped: seq<nat>, n: nat)
    requires n < |ds|
    ensures Ready(ds, skipped, n + 1) <==> Ready(ds, skipped, n) && ReadyAt(ds, skipped, n)
  {
  }

  /** Every step of the stepper has such an outcome. */
  ghost predicate Explained(ds: seq<Directive>, f: Stepper) {
    forall i: nat, st: State | i < |ds| :: Outcome(ds[i], st, f(i, st))
  }

  /** Everything needed was bound, and exactly the live variables are. */
  ghost predicate UpToDate(ds: seq<Directive>, st: State, n: nat)
    requires n <= |ds|
  {
    && (st.ledger.deferred == [] <==> Ready(ds, st.ledger.skipped, n))
    && (st.ledger.deferred == [] ==> st.vars.Keys == LiveBefore(ds, st.ledger.skipped, n))
  }

  lemma SettleUpToDate(ds: seq<Directive>, st: State, n: nat, r: Done, next: State)
    requires n < |ds| && UpToDate(ds, st, n) && UpTo(st.ledger.skipped, n)
    requires next == Settle(st, n, r) && Outcome(ds[n], st, r) && !r.verdict.Task?
    ensures UpToDate(ds, next, n + 1)
  {
    var before, after := st.ledger.skipped, next.ledger.skipped;
    assert (before + [n])[|before|] == n;
    assert forall j: nat | j < n :: j in before + [n] <==> j in before;
    ReadyNext(ds, after, n);
    ReadySame(ds, before, after, n);
    LiveSame(ds, before, after, n);
    assert n in after <==> r.verdict.Skipped?;
  }

  lemma SettleTasks(st: State, i: nat, r: Done, next: State)
    requires next == Settle(st, i, r) && next.ledger.tasks == []
    ensures st.ledger.tasks == [] && !r.verdict.Task?
  {
    assert |st.ledger.tasks + [i]| > 0;
  }

  lemma {:induction false} DriveDefers(ds: seq<Directive>, f: Stepper, t: Tree, n: nat)
    requires Explained(ds, f) && n <= |ds| && Drive(f, t, n).ledger.tasks == []
    ensures UpToDate(ds, Drive(f, t, n), n)
  {
    hide Outcome, UpTo, Settle;
    if n > 0 {
      var st, next := Drive(f, t, n - 1), Drive(f, t, n);
      var r := f(n - 1, st);
      assert next == Settle(st, n - 1, r) && Outcome(ds[n - 1], st, r);
      SettleTasks(st, n - 1, r, next);
      DriveDefers(ds, f, t, n - 1);
      DriveSkipsBelow(f, t, n - 1);
      SettleUpToDate(ds, st, n - 1, r, next);
    }
  }

  lemma DriveSkipsBelow(f: Stepper, t: Tree, n: nat)
    ensures UpTo(Drive(f, t, n).ledger.skipped, n)
  {
    DriveAccounts(f, t, n);
  }

  lemma EngineExplained(p: Platform, o: Options, ds: seq<Directive>, reps: seq<Reply>)
    requires Favourable(p, o, ds, reps)
    ensures Explained(ds, Stepping(p, o, ds, reps))
  {
    var f := Stepping(p, o, ds, reps);
    forall i: nat, st: State | i < |ds|
      ensures Outcome(ds[i], st, f(i, st))
    {
      HandleOutcome(p, o, ds[i], i, reps[i], st);
    }
  }

  /** When nothing is bounced, a directive is deferred exactly when something it needs is not bound. */
  lemma DefersExactly(p: Platform, o: Options, ds: seq<Directive>, reps: seq<Reply>, t: Tree)
    requires Favourable(p, o, ds, reps) && RunAll(p, o, ds, reps, t).ledger.tasks == []
    ensures var st := RunAll(p, o, ds, reps, t);
            st.ledger.deferred == [] <==> Ready(ds, st.ledger.skipped, |ds|)
  {
    EngineExplained(p, o, ds, reps);
    DriveDefers(ds, Stepping(p, o, ds, reps), t, |ds|);
  }

  // ----- The static check -----

  /** The directive binds what the check takes it to define. */
  predicate Honest(d: Directive) {
    Defines(d) <= Binds(d)
  }

  predicate NoBarePart(pairs: seq<Pair>) {
    forall pair <- pairs :: !pair.NoEq?
  }

  /** No capture that never happens, and no pair without `=`. */
  predicate WellFormedCapture(d: Directive) {
    d.kind.RunCmd? && d.attrs.capture.Some? ==>
      && (if IsStep(d) then d.attrs.capture.value.Pairs? else d.attrs.effect != Some(Check) && d.body != [])
      && (d.attrs.capture.value.Pairs? ==> NoBarePart(d.attrs.capture.value.pairs))
  }

  lemma {:induction false} NamedMember(pairs: seq<Pair>, i: nat)
    requires i < |pairs| && pairs[i].Named?
    ensures pairs[i].v in NamedVars(pairs)
  {
    if i > 0 {
      NamedMember(pairs[1..], i - 1);
    }
  }

  lemma WellFormedIsHonest(d: Directive)
    requires WellFormedCapture(d)
    ensures Honest(d)
  {
    if d.kind.RunCmd? && d.attrs.capture.Some? && d.attrs.capture.value.Pairs? {
      var pairs := d.attrs.capture.value.pairs;
      forall x | x in CaptureVars(d.attrs.capture.value)
        ensures x in NamedVars(pairs)
      {
        var i :| 0 <= i < |pairs| && PairVar(pairs[i]) != "" && PairVar(pairs[i]) == x;
        assert pairs[i] in pairs;
        NamedMember(pairs, i);
      }
    }
  }

  predicate Unguarded(ds: seq<Directive>) {
    forall d <- ds :: d.attrs.guard.None?
  }

  /** Without guards, an install run skips nothing that could bind a variable. */
  lemma SkipIsSilent(p: Platform, o: Options, d: Directive, i: nat, rep: Reply, st: State)
    requires o.mode.Install? && o.skipEffects == {} && d.attrs.guard.None?
    ensures Handle(p, o, d, i, rep, st).verdict.Skipped? ==> Binds(d) == {}
  {
  }

  ghost predicate SilentSkips(ds: seq<Directive>, skipped: seq<nat>) {
    forall i: nat | i < |ds| && i in skipped :: Binds(ds[i]) == {}
  }

  lemma SettleSilent(ds: seq<Directive>, st: State, i: nat, r: Done, next: State)
    requires i < |ds| && SilentSkips(ds, st.ledger.skipped) && next == Settle(st, i, r)
    requires r.verdict.Skipped? ==> Binds(ds[i]) == {}
    ensures SilentSkips(ds, next.ledger.skipped)
  {
  }

  lemma {:induction false} DriveSilent(ds: seq<Directive>, f: Stepper, t: Tree, n: nat)
    requires n <= |ds|
    requires forall i: nat, st: State | i < |ds| :: f(i, st).verdict.Skipped? ==> Binds(ds[i]) == {}
    ensures SilentSkips(ds, Drive(f, t, n).ledger.skipped)
  {
    if n > 0 {
      DriveSilent(ds, f, t, n - 1);
      var st := Drive(f, t, n - 1);
      SettleSilent(ds, st, n - 1, f(n - 1, st), Drive(f, t, n));
    }
  }

  lemma SkippedBindsNothing(p: Platform, o: Options, ds: seq<Directive>, reps: seq<Reply>, t: Tree, n: nat)
    requires n <= |ds| == |reps| && o.mode.Install? && o.skipEffects == {} && Unguarded(ds)
    ensures SilentSkips(ds, RunTo(p, o, ds, reps, t, n).ledger.skipped)
  {
    var f := Stepping(p, o, ds, reps);
    forall i: nat, st: State | i < |ds|
      ensures f(i, st).verdict.Skipped? ==> Binds(ds[i]) == {}
    {
      assert ds[i] in ds;
      SkipIsSilent(p, o, ds[i], i, reps[i], st);
    }
    DriveSilent(ds, f, t, n);
  }

  lemma {:induction false} DefinedIsLive(ds: seq<Directive>, skipped: seq<nat>, i: nat)
    requires i <= |ds| && forall d <- ds :: Honest(d)
    requires forall j: nat | j < |ds| && j in skipped :: Binds(ds[j]) == {}
    ensures DefinedBefore(ds, i) <= LiveBefore(ds, skipped, i)
  {
    if i > 0 {
      DefinedIsLive(ds, skipped, i - 1);
      assert ds[i - 1] in ds && Honest(ds[i - 1]);
    }
  }

  lemma EnvValueNames(entry: string)
    ensures Names(EnvValue(entry)) <= Names(entry)
  {
    var eq := IndexOf(entry, '=');
    TrimmedNames(if eq >= 0 then entry[eq + 1..] else entry);
    if eq >= 0 {
      assert entry == entry[..eq + 1] + entry[eq + 1..] + "";
      NamesWithin(entry[..eq + 1], entry[eq + 1..], "");
    }
  }

  /** What lines refer to covers what is substituted line by line. */
  lemma ReferencesCoverLines(d: Directive, vars: set<string>)
    requires ReferencedVars(d) <= vars && !Whole(d)
    ensures Needed(d, vars)
  {
    forall j: nat | j < |d.body|
      ensures LineNeeds(d, j) <= vars
    {
      assert Names(d.body[j]) <= ReferencedVars(d);
      EnvValueNames(d.body[j]);
    }
  }

  /** Directives that bind nothing when skipped leave the live variables as if they had not been. */
  lemma {:induction false} LiveSilently(ds: seq<Directive>, skipped: seq<nat>, i: nat)
    requires i <= |ds| && SilentSkips(ds, skipped)
    ensures LiveBefore(ds, skipped, i) == LiveBefore(ds, [], i)
  {
    if i > 0 {
      LiveSilently(ds, skipped, i - 1);
    }
  }

  lemma PutSkips(l: Ledger, n: nat, verdict: Verdict, i: nat)
    ensures i in Put(l, n, verdict).skipped <==> i in l.skipped || (i == n && verdict.Skipped?)
  {
    assert i in l.skipped + [n] <==> i in l.skipped || i == n;
  }

  lemma {:induction false} SkippedMeans(f: Stepper, t: Tree, n: nat, i: nat)
    ensures i in Drive(f, t, n).ledger.skipped <==> i < n && f(i, Drive(f, t, i)).verdict.Skipped?
  {
    if n > 0 {
      SkippedMeans(f, t, n - 1, i);
      var st := Drive(f, t, n - 1);
      PutSkips(st.ledger, n - 1, f(n - 1, st).verdict, i);
    }
  }

  lemma {:induction false} TasksGrow(f: Stepper, t: Tree, i: nat, n: nat)
    requires i <= n && Drive(f, t, n).ledger.tasks == []
    ensures Drive(f, t, i).ledger.tasks == []
  {
    if i < n {
      SettleTasks(Drive(f, t, n - 1), n - 1, f(n - 1, Drive(f, t, n - 1)), Drive(f, t, n));
      TasksGrow(f, t, i, n - 1);
    }
  }

  lemma WholeVerdict(p: Platform, o: Options, d: Directive, i: nat, rep: Reply, st: State)
    requires o.mode.Install? && o.skipEffects == {} && Whole(d) && d.attrs.guard.None? && !st.blocked
    ensures !Handle(p, o, d, i, rep, st).verdict.Skipped?
  {
  }

  /** As long as nothing is bounced, an unguarded operator or step is not skipped. */
  lemma WholeNeverSkipped(p: Platform, o: Options, ds: seq<Directive>, reps: seq<Reply>, t: Tree, i: nat)
    requires i < |ds| == |reps| && o.mode.Install? && o.skipEffects == {}
    requires Whole(ds[i]) && ds[i].attrs.guard.None? && RunAll(p, o, ds, reps, t).ledger.tasks == []
    ensures i !in RunAll(p, o, ds, reps, t).ledger.skipped
  {
    var f := Stepping(p, o, ds, reps);
    TasksGrow(f, t, i, |ds|);
    FailureLatches(p, o, ds, reps, t, i);
    WholeVerdict(p, o, ds[i], i, reps[i], Drive(f, t, i));
    SkippedMeans(f, t, |ds|, i);
  }

  /** Everything that operator block or step i refers to, read as one text, is bound by then. */
  ghost predicate ReadsBound(ds: seq<Directive>, i: nat)
    requires i < |ds|
  {
    Whole(ds[i]) ==> Names(Join(ds[i].body)) <= LiveBefore(ds, [], i)
  }

  /** A skill without guards that the check passes, with captures that bind what the check believes. */
  ghost predicate Checked(p: Platform, ds: seq<Directive>) {
    ProblemsOf(p, ds, |ds|) == [] && Unguarded(ds) && forall d <- ds :: Honest(d)
  }

  lemma ReadyMeansBound(p: Platform, o: Options, ds: seq<Directive>, reps: seq<Reply>, t: Tree, i: nat)
    requires Favourable(p, o, ds, reps) && Checked(p, ds) && i < |ds|
    requires RunAll(p, o, ds, reps, t).ledger.tasks == []
    ensures ReadyAt(ds, RunAll(p, o, ds, reps, t).ledger.skipped, i) <==> ReadsBound(ds, i)
  {
    var skipped := RunAll(p, o, ds, reps, t).ledger.skipped;
    SkippedBindsNothing(p, o, ds, reps, t, |ds|);
    LiveSilently(ds, skipped, i);
    assert ds[i] in ds;
    if Whole(ds[i]) {
      WholeNeverSkipped(p, o, ds, reps, t, i);
    } else {
      CleanMeansScoped(p, ds, |ds|, i);
      DefinedIsLive(ds, skipped, i);
      ReferencesCoverLines(ds[i], LiveBefore(ds, skipped, i));
    }
  }

  /**
   What the static check is worth: an install run of a checked skill that bounces nothing is fully
   applied exactly when every operator block and step, read as one text, refers to bound variables
   only. That can be told from the skill alone.
   */
  lemma StaticCheckExact(p: Platform, o: Options, ds: seq<Directive>, reps: seq<Reply>, t: Tree)
    requires Favourable(p, o, ds, reps) && Checked(p, ds)
    requires RunAll(p, o, ds, reps, t).ledger.tasks == []
    ensures FullyApplied(RunAll(p, o, ds, reps, t)) <==> forall i: nat | i < |ds| :: ReadsBound(ds, i)
  {
    DefersExactly(p, o, ds, reps, t);
    forall i: nat | i < |ds|
      ensures ReadyAt(ds, RunAll(p, o, ds, reps, t).ledger.skipped, i) <==> ReadsBound(ds, i)
    {
      ReadyMeansBound(p, o, ds, reps, t, i);
    }
  }

  /** No reference of an operator block or step spans a line break. */
  ghost predicate LineByLine(ds: seq<Directive>) {
    forall d <- ds :: Whole(d) ==> NoneSpans(Join(d.body))
  }

  /**
   Soundness of the static check: when no reference spans a line break, a checked skill never leaves
   a reference unresolved. If an install run bounces nothing, nothing is deferred either.
   */
  lemma StaticCheckSound(p: Platform, o: Options, ds: seq<Directive>, reps: seq<Reply>, t: Tree)
    requires Favourable(p, o, ds, reps) && Checked(p, ds) && LineByLine(ds)
    ensures RunAll(p, o, ds, reps, t).ledger.tasks == [] ==> FullyApplied(RunAll(p, o, ds, reps, t))
  {
    if RunAll(p, o, ds, reps, t).ledger.tasks == [] {
      StaticCheckExact(p, o, ds, reps, t);
      forall i: nat | i < |ds|
        ensures ReadsBound(ds, i)
      {
        LinesAreRead(p, ds, i);
      }
    }
  }

  lemma LinesAreRead(p: Platform, ds: seq<Directive>, i: nat)
    requires Checked(p, ds) && LineByLine(ds) && i < |ds|
    ensures ReadsBound(ds, i)
  {
    var d := ds[i];
    assert d in ds;
    CleanMeansScoped(p, ds, |ds|, i);
    DefinedIsLive(ds, [], i);
    if Whole(d) {
      forall x | x in Names(Join(d.body))
        ensures x in ReferencedVars(d)
      {
        JoinAddsNothing(d.body, x);
      }
    }
  }
}
