/**
 applySkill as it runs: one object holds the tree and the result record, the loops of applyOne
 change them in place, and each directive is tried, caught and classified. Every method is tied
 to the function of the same step, which the lemmas about whole runs use.
 */
module SkillApply {
  import opened Wrappers
  import opened Text
  import opened Directives
  import opened SkillEngine

  class Run {
    const p: Platform
    const o: Options
    var tree: Tree
    var vars: Vars
    var journal: seq<Entry>
    var ran: seq<string>
    var applied: seq<nat>
    var skipped: seq<nat>
    var deferred: seq<nat>
    var tasks: seq<nat>
    var bound: seq<nat>
    var messages: seq<string>
    var blocked: bool
    var trace: seq<Ev>

    function Now(): State
      reads this
    {
      State(tree, vars, journal, Ledger(applied, skipped, deferred, tasks, bound), messages, blocked, trace)
    }

    /** What one applyOne call has done so far. */
    function Progress(err: Option<Err>): Work
      reads this
    {
      Work(tree, vars, journal, ran, err)
    }

    constructor (p: Platform, o: Options, t: Tree)
      ensures this.p == p && this.o == o && Now() == Initial(t)
    {
      this.p, this.o := p, o;
      tree, vars, journal, ran := t, map[], [], [];
      applied, skipped, deferred, tasks, bound := [], [], [], [], [];
      messages, blocked, trace := [], false, [];
    }

    // ----- applyOne -----

    /** Write the files up to the one that fails, if any. */
    method WriteFiles(dests: seq<Path>, rep: Reply, stop: nat)
      requires stop <= |dests|
      modifies this`tree
      ensures tree == WriteAll(old(tree), dests, rep, 0, stop)
    {
      for i := 0 to stop
        invariant WriteAll(tree, dests, rep, i, stop) == WriteAll(old(tree), dests, rep, 0, stop)
      {
        tree := tree[dests[i] := ContentAt(rep, i)];
      }
    }

    method RecordFiles(dests: seq<Path>)
      modifies this`journal
      ensures journal == old(journal) + WroteEntries(dests)
    {
      for i := 0 to |dests|
        invariant journal == old(journal) + WroteEntries(dests)[..i]
      {
        journal := journal + [Wrote(dests[i])];
      }
      assert WroteEntries(dests)[..|dests|] == WroteEntries(dests);
    }

    method CopyFiles(d: Directive, rep: Reply) returns (err: Option<Err>)
      modifies this`tree, this`journal
      ensures Progress(err) == ApplyCopy(d, o.mode, rep, old(Progress(None)))
    {
      var dests := ToCopy(d.body, tree, o.mode);
      if rep.ioFails.Some? && rep.ioFails.value < |dests| {
        WriteFiles(dests, rep, rep.ioFails.value);
        return Some(Other(rep.quotes));
      }
      WriteFiles(dests, rep, |dests|);
      RecordFiles(dests);
      err := None;
    }

    method AppendLine(d: Directive, i: nat, rep: Reply) returns (err: Option<Err>)
      requires i < |d.body|
      modifies this`tree, this`journal
      ensures Progress(err) == AppendAt(d, i, rep, old(Progress(None)))
    {
      var line := d.body[i];
      if rep.ioFails == Some(i) {
        return Some(Other(rep.quotes));
      }
      var next := AppendOne(d, tree, line);
      if next.None? {
        return Some(Says(NoMarker(d)));
      }
      tree := next.value;
      journal := journal + [Appended(OrUndefined(d.attrs.to), line)];
      err := None;
    }

    method SetEnvLine(d: Directive, i: nat, rep: Reply) returns (err: Option<Err>)
      requires i < |d.body|
      modifies this`tree, this`journal
      ensures Progress(err) == EnvAt(d, i, rep, old(Progress(None)))
    {
      var key := EnvKey(d.body[i]);
      var value := Substitute(EnvValue(d.body[i]), vars);
      if value.Err? {
        return Some(value.error);
      }
      if rep.ioFails == Some(i) {
        return Some(Other(rep.quotes));
      }
      if !EnvKeySet(tree, key) {
        tree := SetOne(tree, key, value.value);
        journal := journal + [SetEnv(key)];
      }
      err := None;
    }

    method BindOutput(d: Directive, rep: Reply, stdout: string) returns (err: Option<Err>)
      requires d.attrs.capture.Some?
      modifies this`vars
      ensures (vars, err) == BindCapture(p, d, rep, stdout, old(vars))
    {
      if Guarded(d) && !p.regexOk(d.attrs.validate.value, "") {
        return Some(Other(rep.quotes));
      }
      match d.attrs.capture.value {
        case Bare(v) =>
          var next := Bind(p, d, vars, v, stdout);
          if next.Err? {
            return Some(next.error);
          }
          vars := next.value;
        case Pairs(pairs) =>
          var json := p.parse(stdout);
          if json.None? {
            return Some(Other(rep.quotes));
          }
          var i := 0;
          while i < |pairs|
            invariant 0 <= i <= |pairs|
            invariant BindPairs(p, d, pairs[i..], json.value, vars) == BindPairs(p, d, pairs, json.value, old(vars))
          {
            assert pairs[i..][0] == pairs[i] && pairs[i..][1..] == pairs[i + 1..];
            if pairs[i].Named? {
              var next := Bind(p, d, vars, pairs[i].v, DotPath(p, json.value, pairs[i].path));
              if next.Err? {
                return Some(next.error);
              }
              vars := next.value;
            }
            i := i + 1;
          }
      }
      err := None;
    }

    method BindBlock(d: Directive, fields: map<string, string>)
      modifies this`vars
      ensures vars == BindStep(d, fields, old(vars))
    {
      if d.attrs.capture.None? || d.attrs.capture.value.Bare? {
        return;
      }
      var pairs, i := d.attrs.capture.value.pairs, 0;
      while i < |pairs|
        invariant 0 <= i <= |pairs|
        invariant BindFields(pairs[i..], fields, vars) == BindFields(pairs, fields, old(vars))
      {
        assert pairs[i..][0] == pairs[i] && pairs[i..][1..] == pairs[i + 1..];
        if pairs[i].Named? {
          var field := pairs[i].path;
          vars := vars[pairs[i].v := Trim(if field in fields then fields[field] else "")];
        }
        i := i + 1;
      }
    }

    method StreamOne(d: Directive, rep: Reply) returns (err: Option<Err>)
      modifies this`vars, this`journal, this`ran
      ensures Progress(err) == ApplyStep(d, o.stream, rep, old(Progress(None)))
    {
      if !o.stream {
        return Some(Other(false));
      }
      var cmd := Substitute(Join(d.body), vars);
      if cmd.Err? {
        return Some(cmd.error);
      }
      ran := ran + [cmd.value];
      match rep.step {
        case StepThrows(e) => return Some(e);
        case StepDone(ok, fields) =>
          if !ok {
            return Some(StepFailure(fields));
          }
          BindBlock(d, fields);
          journal := journal + [Ran(Join(d.body), None)];
          err := None;
      }
    }

    method RunCommand(d: Directive, i: nat, rep: Reply) returns (err: Option<Err>)
      requires i < |d.body|
      modifies this`vars, this`journal, this`ran
      ensures Progress(err) == CommandAt(p, d, i, rep, old(Progress(None)))
    {
      var cmd := Substitute(d.body[i], vars);
      if cmd.Err? {
        return Some(cmd.error);
      }
      ran := ran + [cmd.value];
      var out := OutputAt(rep, i);
      if out.Throws? {
        return Some(out.err);
      }
      err := None;
      if d.attrs.effect != Some(Check) {
        if d.attrs.capture.Some? {
          err := BindOutput(d, rep, Trim(out.stdout));
          if err.Some? {
            return;
          }
        }
        var undo := if d.attrs.effect == Some(External) then d.attrs.remove else None;
        journal := journal + [Ran(d.body[i], undo)];
      }
    }

    /** One line, by what the kind of the directive does with it. */
    method OneLine(d: Directive, i: nat, rep: Reply) returns (err: Option<Err>)
      requires LineWise(d) && i < |d.body|
      modifies this`tree, this`vars, this`journal, this`ran
      ensures Progress(err) == LineAt(p, d, i, rep, old(Progress(None)))
    {
      if d.kind.Append? {
        err := AppendLine(d, i, rep);
      } else if d.kind.EnvSet? {
        err := SetEnvLine(d, i, rep);
      } else {
        err := RunCommand(d, i, rep);
      }
    }

    /** The loop over the body, for the kinds that work line by line. */
    method EachLine(d: Directive, rep: Reply) returns (err: Option<Err>)
      requires LineWise(d)
      modifies this`tree, this`vars, this`journal, this`ran
      ensures Progress(err) == ApplyLines(p, d, 0, rep, old(Progress(None)))
    {
      err := None;
      ghost var f, w := Lining(p, d, rep), Progress(None);
      for i := 0 to |d.body|
        invariant err.None?
        invariant Each(f, |d.body|, i, Progress(None)) == Each(f, |d.body|, 0, w)
      {
        ghost var before := Progress(None);
        err := OneLine(d, i, rep);
        assert f(i, before) == LineAt(p, d, i, rep, before);
        if err.Some? {
          return;
        }
      }
    }

    method MergeJson(d: Directive, rep: Reply) returns (err: Option<Err>)
      modifies this`tree, this`journal
      ensures Progress(err) == ApplyMerge(p, d, o.mode, rep, old(Progress(None)))
    {
      var into, key := OrUndefined(d.attrs.into), OrUndefined(d.attrs.key);
      var obj, file, value := MergeBody(p, d), ParseFile(p, tree, into), MergeValue(p, d, key);
      if obj.None? || rep.ioFails.Some? || file.None? {
        return Some(Other(rep.quotes));
      }
      if !file.value.JArr? {
        return Some(Says(NoArray(into)));
      }
      if value.Err? {
        return Some(Other(rep.quotes));
      }
      var elems := file.value.elems;
      var i := FindKey(elems, key, value.value);
      if i < 0 {
        tree := WriteArray(p, tree, into, elems + [obj.value]);
        journal := journal + [Merged(into, key, value.value, None)];
      } else if o.mode.RefreshOnly? && elems[i] != obj.value {
        tree := WriteArray(p, tree, into, elems[i := obj.value]);
        journal := journal + [Merged(into, key, value.value, Some(elems[i]))];
      }
      err := None;
    }

    method Mutate(d: Directive, rep: Reply) returns (err: Option<Err>)
      modifies this`tree, this`vars, this`journal, this`ran
      ensures Progress(err) == ApplyOne(p, o, d, rep, old(Progress(None)))
    {
      match d.kind {
        case Copy => err := CopyFiles(d, rep);
        case Append => err := EachLine(d, rep);
        case Dep =>
          var out := OutputAt(rep, 0);
          if out.Throws? {
            return Some(out.err);
          }
          journal := journal + [Ran("add", Some("remove"))];
          err := None;
        case RunCmd =>
          if d.attrs.effect == Some(StreamStep) {
            err := StreamOne(d, rep);
          } else {
            err := EachLine(d, rep);
          }
        case EnvSet => err := EachLine(d, rep);
        case JsonMerge => err := MergeJson(d, rep);
        case _ => err := Some(Says(NoHandler(d)));
      }
    }

    // ----- applySkill -----

    method BounceTask(i: nat)
      modifies this`blocked, this`tasks, this`trace
      ensures Now() == Settle(old(Now()), i, Quiet(old(Now()), Task))
    {
      blocked := true;
      tasks := tasks + [i];
      trace := trace + [Bounced(i)];
    }

    /** The classification that ends the outer catch. */
    method Catch(i: nat, thrown: Err)
      modifies this`blocked, this`tasks, this`trace, this`deferred
      ensures Now() == Settle(old(Now()), i, Quiet(old(Now()), Classify(thrown)))
    {
      if thrown.Reported? {
        BounceTask(i);
      } else if thrown.Unresolved? || thrown.looksUnresolved {
        deferred := deferred + [i];
      } else {
        BounceTask(i);
      }
    }

    method Ask(d: Directive, i: nat, rep: Reply)
      modifies this
      ensures Now() == Settle(old(Now()), i, DoPrompt(p, o, d, rep, old(Now())))
    {
      match Acquire(o, AskedVar(d), rep) {
        case ResolverThrows(e) => Catch(i, e);
        case Answered(None) => deferred := deferred + [i];
        case Answered(Some(value)) =>
          var normal := NormalizeValue(p, value, d.attrs.normalize);
          if d.attrs.validate.Some? {
            if !p.regexOk(d.attrs.validate.value, OrEmpty(d.attrs.flags)) {
              Catch(i, Other(rep.quotes));
              return;
            }
            if !p.matches(d.attrs.validate.value, OrEmpty(d.attrs.flags), normal) {
              deferred := deferred + [i];
              return;
            }
          }
          vars := BindPrompt(d, vars, normal);
          bound := bound + [i];
      }
    }

    method Show(d: Directive, i: nat, rep: Reply)
      modifies this
      ensures Now() == Settle(old(Now()), i, DoOperator(o, d, i, rep, old(Now())))
    {
      if blocked {
        skipped := skipped + [i];
        return;
      }
      var text := Substitute(Join(d.body), vars);
      if text.Err? {
        Catch(i, text.error);
        return;
      }
      messages := messages + [text.value];
      if o.consumer {
        trace := trace + [Shown(i)];
        if rep.shown.Some? {
          Catch(i, rep.shown.value);
          return;
        }
      }
      applied := applied + [i];
    }

    /** Run applyOne inside an open bracket and close the bracket, whichever way it ends. */
    method Attempt(d: Directive, i: nat, rep: Reply) returns (thrown: Option<Err>)
      modifies this`tree, this`vars, this`journal, this`ran, this`trace
      ensures var w := ApplyOne(p, o, d, rep, WorkOf(old(Now())));
              && thrown == w.err && tree == w.tree && vars == w.vars && journal == w.journal
              && trace == old(trace) + StepEvents(o, d, i, w)
    {
      ran := [];
      if o.consumer {
        trace := trace + [StepStart(i, true)];
      }
      thrown := Mutate(d, rep);
      if d.kind.RunCmd? && ran != [] {
        trace := trace + [Executed(i, d.attrs.effect, ran)];
      }
      if o.consumer {
        trace := trace + [StepEnd(i, thrown.None?)];
      }
    }

    method Step(d: Directive, i: nat, rep: Reply)
      modifies this
      ensures Now() == Settle(old(Now()), i, DoMutation(o, d, i, rep, old(Now()), ApplyOne(p, o, d, rep, WorkOf(old(Now())))))
    {
      if o.consumer && rep.start.Some? {
        trace := trace + [StepStart(i, false)];
        Catch(i, rep.start.value);
        return;
      }
      var thrown := Attempt(d, i, rep);
      if thrown.None? && o.consumer {
        thrown := rep.end;
      }
      if thrown.Some? {
        Catch(i, thrown.value);
      } else {
        applied := applied + [i];
      }
    }

    /** The body of the loop: directive i is tried, and ends in one place. */
    method RunDirective(d: Directive, i: nat, rep: Reply)
      modifies this
      ensures Now() == Settle(old(Now()), i, Handle(p, o, d, i, rep, old(Now())))
    {
      if o.mode.RefreshOnly? && OutsideRefresh(d) {
        skipped := skipped + [i];
        return;
      }
      if !WhenMet(d.attrs.guard, vars) {
        skipped := skipped + [i];
        return;
      }
      if d.kind.Prompt? {
        Ask(d, i, rep);
        return;
      }
      if d.kind.Operator? {
        Show(d, i, rep);
        return;
      }
      if d.kind.RunCmd? && d.attrs.effect.Some? && d.attrs.effect.value in o.skipEffects {
        skipped := skipped + [i];
        return;
      }
      if blocked && Gated(d) {
        BounceTask(i);
        return;
      }
      match SelfStatus(p, d, tree, o.mode) {
        case Agent => BounceTask(i);
        case Skip => skipped := skipped + [i];
        case Apply => Step(d, i, rep);
      }
    }

    method ApplySkill(ds: seq<Directive>, reps: seq<Reply>)
      requires |ds| == |reps| && Now() == Initial(tree)
      modifies this
      ensures Now() == RunAll(p, o, ds, reps, old(tree))
    {
      ghost var f, t := Stepping(p, o, ds, reps), tree;
      for i := 0 to |ds|
        invariant Now() == Drive(f, t, i)
      {
        ghost var st := Now();
        RunDirective(ds[i], i, reps[i]);
        assert f(i, st) == Handle(p, o, ds[i], i, reps[i], st);
      }
    }
  }
}
