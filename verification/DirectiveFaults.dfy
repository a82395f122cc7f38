/**
 The rules of the static check in nanoclaw/scripts/skill-directives.ts, one by one: a problem is
 reported exactly for the directives that have the fault.
 */
module DirectiveFaults {
  import opened Wrappers
  import opened Text
  import opened References
  import opened Directives

  predicate Empty(attr: Option<string>) {
    attr == None || attr == Some("")
  }

  /** The body of a merge, when it is JSON. */
  function Merged(p: Platform, d: Directive): Option<Json> {
    p.parse(Join(d.body))
  }

  /** What each problem says about its directive, given the names defined before it. */
  predicate Fault(p: Platform, d: Directive, defined: set<string>, rule: Rule) {
    match rule
    case UnknownDirective => d.kind.Unknown?
    case UnpinnedDep(spec) => d.kind.Dep? && spec in d.body && !p.pinned(spec)
    case AdapterOutOfStep(spec) => d.kind.Dep? && spec in d.body && !p.inStep(spec)
    case AppendNeedsTarget => d.kind.Append? && Empty(d.attrs.to)
    case NeedsBody => d.body == [] && (d.kind.Append? || d.kind.Copy? || d.kind.JsonMerge? || d.kind.Prompt? || d.kind.Operator?)
    case MergeNeedsTarget => d.kind.JsonMerge? && Empty(d.attrs.into)
    case MergeNeedsKey => d.kind.JsonMerge? && Empty(d.attrs.key)
    case MergeUnparseable => d.kind.JsonMerge? && d.body != [] && Merged(p, d) == None
    case MergeNotObject => d.kind.JsonMerge? && d.body != [] && Merged(p, d).Some? && !Merged(p, d).value.JObj?
    case MergeLacksKey =>
      && d.kind.JsonMerge? && d.body != [] && Merged(p, d).Some? && Merged(p, d).value.JObj?
      && d.attrs.key.Some? && d.attrs.key.value !in Merged(p, d).value.fields
    case PromptNeedsName => d.kind.Prompt? && forall i | 0 <= i < |d.args| :: d.args[i].Secret?
    case BadRegex =>
      && d.attrs.validate.Some?
      && ((d.kind.Prompt? && !p.regexOk(d.attrs.validate.value, if d.attrs.flags.Some? then d.attrs.flags.value else ""))
          || (d.kind.RunCmd? && !p.regexOk(d.attrs.validate.value, "")))
    case BadFlags => d.kind.Prompt? && d.attrs.validate.None? && d.attrs.flags.Some? && !p.regexOk("", d.attrs.flags.value)
    case BadNormalize => d.kind.Prompt? && d.attrs.normalize.Some? && d.attrs.normalize.value.OtherNormalize?
    case BadReuse => d.kind.Prompt? && d.attrs.reuse.Some? && !IsIdent(d.attrs.reuse.value)
    case RemovedAttribute(Min) => d.kind.Prompt? && Min in d.attrs.removed
    case RemovedAttribute(ErrorText) => d.kind.Prompt? && ErrorText in d.attrs.removed
    case RemovedAttribute(Open) => d.kind.Operator? && Open in d.attrs.removed
    case RemovedAttribute(Gate) => d.kind.Operator? && (Gate in d.attrs.removed || Name("gate") in d.args)
    case RemovedAttribute(attr) => attr in d.attrs.removed
    case UndefinedReference(x) => x !in defined && exists i :: 0 <= i < |d.body| && x in Names(d.body[i])
    case MalformedGuard => d.attrs.guard == Some(Malformed)
    case UndefinedGuard => d.attrs.guard.Some? && d.attrs.guard.value.Equals? && d.attrs.guard.value.v !in defined
  }

  lemma {:induction false} DepRulesMean(p: Platform, specs: seq<string>, rule: Rule)
    ensures rule in DepRules(p, specs) <==>
            || (rule.UnpinnedDep? && rule.spec in specs && !p.pinned(rule.spec))
            || (rule.AdapterOutOfStep? && rule.spec in specs && !p.inStep(rule.spec))
  {
    if specs != [] {
      DepRulesMean(p, specs[1..], rule);
      var first := If(!p.pinned(specs[0]), UnpinnedDep(specs[0])) + If(!p.inStep(specs[0]), AdapterOutOfStep(specs[0]));
      assert DepRules(p, specs) == first + DepRules(p, specs[1..]);
      assert specs == [specs[0]] + specs[1..];
      assert rule in first <==> (rule == UnpinnedDep(specs[0]) && !p.pinned(specs[0]))
                                || (rule == AdapterOutOfStep(specs[0]) && !p.inStep(specs[0]));
    }
  }

  lemma {:induction false} UndefinedMeans(names: seq<string>, defined: set<string>, rule: Rule)
    ensures rule in Undefined(names, defined) <==> rule.UndefinedReference? && rule.name in names && rule.name !in defined
  {
    if names != [] {
      UndefinedMeans(names[1..], defined, rule);
      assert names == [names[0]] + names[1..];
    }
  }

  lemma {:induction false} ReferenceRulesMean(body: seq<string>, defined: set<string>, rule: Rule)
    ensures rule in ReferenceRules(body, defined) <==>
            rule.UndefinedReference? && rule.name !in defined && exists i :: 0 <= i < |body| && rule.name in Names(body[i])
  {
    if body != [] {
      UndefinedMeans(NamesIn(body[0]), defined, rule);
      ReferenceRulesMean(body[1..], defined, rule);
      assert forall i | 1 <= i < |body| :: body[i] == body[1..][i - 1];
      assert forall i | 0 <= i < |body| - 1 :: body[1..][i] == body[i + 1];
    }
  }

  lemma {:induction false} PromptVarMeans(args: seq<Arg>)
    ensures PromptVar(args).None? <==> forall i | 0 <= i < |args| :: args[i].Secret?
  {
    if args != [] {
      PromptVarMeans(args[1..]);
      assert forall i | 1 <= i < |args| :: args[i] == args[1..][i - 1];
      assert forall i | 0 <= i < |args| - 1 :: args[1..][i] == args[i + 1];
    }
  }

  /** The faults that only some kinds of directive can have. */
  predicate OfKind(rule: Rule) {
    !rule.UndefinedReference? && !rule.MalformedGuard? && !rule.UndefinedGuard?
    && rule != RemovedAttribute(Label) && rule != RemovedAttribute(OnFail)
  }

  lemma InIf(b: bool, r: Rule, rule: Rule)
    ensures rule in If(b, r) <==> b && rule == r
  {
  }

  lemma InRemoved(d: Directive, attr: Removed, rule: Rule)
    ensures rule in RemovedRule(d, attr) <==> attr in d.attrs.removed && rule == RemovedAttribute(attr)
  {
  }

  /** The rule on the pattern of a prompt, or on its flags alone. */
  function PatternRules(p: Platform, d: Directive): seq<Rule> {
    if d.attrs.validate.Some? then If(!p.regexOk(d.attrs.validate.value, OrEmpty(d.attrs.flags)), BadRegex)
    else If(d.attrs.flags.Some? && !p.regexOk("", OrEmpty(d.attrs.flags)), BadFlags)
  }

  lemma PatternRulesMean(p: Platform, d: Directive, rule: Rule)
    requires d.kind.Prompt?
    ensures rule in PatternRules(p, d) <==> (rule.BadRegex? || rule.BadFlags?) && Fault(p, d, {}, rule)
  {
  }

  lemma PromptParts(p: Platform, d: Directive, rule: Rule)
    ensures rule in PromptRules(p, d) <==>
            || rule in If(PromptVar(d.args).None?, PromptNeedsName) || rule in If(d.body == [], NeedsBody)
            || rule in PatternRules(p, d) || rule in RemovedRule(d, Min) || rule in RemovedRule(d, ErrorText)
            || rule in If(d.attrs.normalize.Some? && d.attrs.normalize.value.OtherNormalize?, BadNormalize)
            || rule in If(d.attrs.reuse.Some? && !IsIdent(d.attrs.reuse.value), BadReuse)
  {
    hide If, RemovedRule;
  }

  lemma PromptRulesMean(p: Platform, d: Directive, rule: Rule)
    requires d.kind.Prompt?
    ensures rule in PromptRules(p, d) <==> OfKind(rule) && Fault(p, d, {}, rule)
  {
    hide If, RemovedRule, PromptRules, PatternRules;
    PromptParts(p, d, rule);
    PromptVarMeans(d.args);
    PatternRulesMean(p, d, rule);
    InIf(PromptVar(d.args).None?, PromptNeedsName, rule);
    InIf(d.body == [], NeedsBody, rule);
    InRemoved(d, Min, rule);
    InRemoved(d, ErrorText, rule);
    InIf(d.attrs.normalize.Some? && d.attrs.normalize.value.OtherNormalize?, BadNormalize, rule);
    InIf(d.attrs.reuse.Some? && !IsIdent(d.attrs.reuse.value), BadReuse, rule);
  }

  /** The rule on the body of a merge. */
  function MergedRules(p: Platform, d: Directive): seq<Rule> {
    if d.body == [] then [NeedsBody]
    else
      match Merged(p, d)
      case None => [MergeUnparseable]
      case Some(JObj(fields)) => If(d.attrs.key.Some? && d.attrs.key.value !in fields, MergeLacksKey)
      case Some(_) => [MergeNotObject]
  }

  lemma MergedRulesMean(p: Platform, d: Directive, rule: Rule)
    requires d.kind.JsonMerge?
    ensures rule in MergedRules(p, d) <==>
            (rule.NeedsBody? || rule.MergeUnparseable? || rule.MergeNotObject? || rule.MergeLacksKey?) && Fault(p, d, {}, rule)
  {
    hide Merged;
  }

  lemma MergeParts(p: Platform, d: Directive, rule: Rule)
    ensures rule in MergeRules(p, d) <==>
            || rule in If(OrEmpty(d.attrs.into) == "", MergeNeedsTarget) || rule in If(OrEmpty(d.attrs.key) == "", MergeNeedsKey)
            || rule in MergedRules(p, d)
  {
    hide If;
  }

  lemma MergeRulesMean(p: Platform, d: Directive, rule: Rule)
    requires d.kind.JsonMerge?
    ensures rule in MergeRules(p, d) <==> OfKind(rule) && Fault(p, d, {}, rule)
  {
    hide If, MergeRules, MergedRules, Merged;
    MergeParts(p, d, rule);
    MergedRulesMean(p, d, rule);
    InIf(OrEmpty(d.attrs.into) == "", MergeNeedsTarget, rule);
    InIf(OrEmpty(d.attrs.key) == "", MergeNeedsKey, rule);
  }

  lemma OperatorRulesMean(p: Platform, d: Directive, rule: Rule)
    requires d.kind.Operator?
    ensures rule in OperatorRules(d) <==> OfKind(rule) && Fault(p, d, {}, rule)
  {
    hide If, RemovedRule, Merged;
    InIf(d.body == [], NeedsBody, rule);
    InRemoved(d, Open, rule);
    InIf(Gate in d.attrs.removed || Name("gate") in d.args, RemovedAttribute(Gate), rule);
  }

  lemma AppendRulesMean(p: Platform, d: Directive, rule: Rule)
    requires d.kind.Append?
    ensures rule in KindRules(p, d) <==> OfKind(rule) && Fault(p, d, {}, rule)
  {
    hide If, Merged;
    InIf(OrEmpty(d.attrs.to) == "", AppendNeedsTarget, rule);
    InIf(d.body == [], NeedsBody, rule);
  }

  lemma OtherRulesMean(p: Platform, d: Directive, rule: Rule)
    requires d.kind.Unknown? || d.kind.Copy? || d.kind.RunCmd? || d.kind.EnvSet?
    ensures rule in KindRules(p, d) <==> OfKind(rule) && Fault(p, d, {}, rule) && !(d.kind.RunCmd? && rule.BadRegex?)
  {
    hide If, Merged, DepRules, PromptRules, MergeRules, OperatorRules;
    InIf(d.body == [], NeedsBody, rule);
  }

  lemma KindRulesMean(p: Platform, d: Directive, rule: Rule)
    ensures rule in KindRules(p, d) <==> OfKind(rule) && Fault(p, d, {}, rule) && !(d.kind.RunCmd? && rule.BadRegex?)
  {
    hide DepRules, PromptRules, MergeRules, OperatorRules, Merged;
    match d.kind
    case Dep => DepRulesMean(p, d.body, rule);
    case Prompt => PromptRulesMean(p, d, rule);
    case JsonMerge => MergeRulesMean(p, d, rule);
    case Operator => OperatorRulesMean(p, d, rule);
    case Append => AppendRulesMean(p, d, rule);
    case _ => OtherRulesMean(p, d, rule);
  }

  lemma GuardRulesMean(d: Directive, defined: set<string>, rule: Rule)
    ensures rule in GuardRules(d, defined) <==>
            || (rule.MalformedGuard? && d.attrs.guard == Some(Malformed))
            || (rule.UndefinedGuard? && d.attrs.guard.Some? && d.attrs.guard.value.Equals? && d.attrs.guard.value.v !in defined)
  {
  }

  lemma RuleParts(p: Platform, d: Directive, defined: set<string>, rule: Rule)
    ensures rule in Rules(p, d, defined) <==>
            || rule in KindRules(p, d) || rule in RemovedRule(d, Label) || rule in RemovedRule(d, OnFail)
            || rule in ReferenceRules(d.body, defined) || rule in GuardRules(d, defined)
            || rule in If(d.kind.RunCmd? && d.attrs.validate.Some? && !p.regexOk(d.attrs.validate.value, ""), BadRegex)
  {
    hide If, RemovedRule, KindRules, ReferenceRules, GuardRules;
  }

  /** One directive is flagged for exactly its faults. */
  lemma RulesMean(p: Platform, d: Directive, defined: set<string>, rule: Rule)
    ensures rule in Rules(p, d, defined) <==> Fault(p, d, defined, rule)
  {
    hide If, RemovedRule, KindRules, ReferenceRules, GuardRules, Rules;
    RuleParts(p, d, defined, rule);
    KindRulesMean(p, d, rule);
    ReferenceRulesMean(d.body, defined, rule);
    GuardRulesMean(d, defined, rule);
    InRemoved(d, Label, rule);
    InRemoved(d, OnFail, rule);
    InIf(d.kind.RunCmd? && d.attrs.validate.Some? && !p.regexOk(d.attrs.validate.value, ""), BadRegex, rule);
  }

  lemma LocatedMeans(index: nat, rules: seq<Rule>, i: nat, rule: Rule)
    ensures Problem(i, rule) in Located(index, rules) <==> i == index && rule in rules
  {
    if i == index && rule in rules {
      var k :| 0 <= k < |rules| && rules[k] == rule;
      assert Located(index, rules)[k] == Problem(index, rule);
    }
  }

  lemma {:induction false} GatherMeans(p: Platform, ds: seq<Directive>, n: nat, i: nat, rule: Rule)
    requires n <= |ds|
    ensures Problem(i, rule) in Gather(CheckOf(p, ds), n) <==> i < n && Fault(p, ds[i], DefinedBefore(ds, i), rule)
  {
    hide Rules, Fault, Located, DefinedBefore;
    if n > 0 {
      GatherMeans(p, ds, n - 1, i, rule);
      var rules := Rules(p, ds[n - 1], DefinedBefore(ds, n - 1));
      LocatedMeans(n - 1, rules, i, rule);
      RulesMean(p, ds[n - 1], DefinedBefore(ds, n - 1), rule);
      assert CheckOf(p, ds)(n - 1) == Located(n - 1, rules);
    }
  }

  /** A bare name; the name in front of a '='; or, without a '=', the text less its last character. */
  predicate CaptureDefines(c: Capture, x: string) {
    match c
    case Bare(v) => x == v
    case Pairs(pairs) =>
      x != "" && exists i :: 0 <= i < |pairs| && match pairs[i]
                                                 case Named(v, _) => x == v
                                                 case NoEq(text) => text != "" && x == Trim(text[..|text| - 1])
                                                 case NoName(_) => false
  }

  lemma CaptureVarsMean(c: Capture, x: string)
    ensures x in CaptureVars(c) <==> CaptureDefines(c, x)
  {
  }

  /** A name is defined before a directive by an earlier prompt for it or an earlier capture of it. */
  predicate DefinesName(d: Directive, x: string) {
    || (d.kind.Prompt? && exists i :: 0 <= i < |d.args| && d.args[i] == Name(x) && forall j | 0 <= j < i :: d.args[j].Secret?)
    || (d.kind.RunCmd? && d.attrs.capture.Some? && CaptureDefines(d.attrs.capture.value, x))
  }

  lemma {:induction false} PromptVarIs(args: seq<Arg>, x: string)
    ensures PromptVar(args) == Some(x) <==> exists i :: 0 <= i < |args| && args[i] == Name(x) && forall j | 0 <= j < i :: args[j].Secret?
  {
    if args != [] && args[0].Secret? {
      PromptVarIs(args[1..], x);
      if PromptVar(args) == Some(x) {
        var i :| 0 <= i < |args[1..]| && args[1..][i] == Name(x) && forall j | 0 <= j < i :: args[1..][j].Secret?;
        assert args[i + 1] == Name(x);
        assert forall j | 1 <= j < i + 1 :: args[j] == args[1..][j - 1];
      }
      if i :| 0 <= i < |args| && args[i] == Name(x) && forall j | 0 <= j < i :: args[j].Secret? {
        assert args[1..][i - 1] == Name(x);
        assert forall j | 0 <= j < i - 1 :: args[1..][j] == args[j + 1];
      }
    } else if args != [] {
      assert args[0].Name?;
    }
  }

  lemma {:induction false} DefinedMeans(ds: seq<Directive>, n: nat, x: string)
    requires n <= |ds|
    ensures x in DefinedBefore(ds, n) <==> exists i :: 0 <= i < n && DefinesName(ds[i], x)
  {
    if n > 0 {
      DefinedMeans(ds, n - 1, x);
      PromptVarIs(ds[n - 1].args, x);
      if ds[n - 1].attrs.capture.Some? {
        CaptureVarsMean(ds[n - 1].attrs.capture.value, x);
      }
      assert x in Defines(ds[n - 1]) <==> DefinesName(ds[n - 1], x);
    }
  }

  /** The report names exactly the faults, each at its directive, given the names that earlier directives define. */
  lemma ReportedExactly(p: Platform, ds: seq<Directive>, i: nat, defined: set<string>, rule: Rule)
    requires i < |ds| && forall x :: x in defined <==> exists k :: 0 <= k < i && DefinesName(ds[k], x)
    ensures Problem(i, rule) in ProblemsOf(p, ds, |ds|) <==> Fault(p, ds[i], defined, rule)
  {
    GatherMeans(p, ds, |ds|, i, rule);
    forall x
      ensures x in DefinedBefore(ds, i) <==> x in defined
    {
      DefinedMeans(ds, i, x);
    }
    assert DefinedBefore(ds, i) == defined;
  }

  /** The problems of the first n directives, none before one of an earlier directive. */
  predicate InOrder(problems: seq<Problem>, n: nat) {
    && (forall a | 0 <= a < |problems| :: problems[a].index < n)
    && (forall a, b | 0 <= a <= b < |problems| :: problems[a].index <= problems[b].index)
  }

  lemma OrderedTogether(earlier: seq<Problem>, n: nat, rules: seq<Rule>)
    requires InOrder(earlier, n)
    ensures InOrder(earlier + Located(n, rules), n + 1)
  {
  }

  /** The report follows the document. */
  lemma {:induction false} InDocumentOrder(p: Platform, ds: seq<Directive>, n: nat)
    requires n <= |ds|
    ensures InOrder(ProblemsOf(p, ds, n), n)
  {
    hide Rules, InOrder, Located, DefinedBefore, CheckOf;
    if n == 0 {
      NoneInOrder();
    } else {
      InDocumentOrder(p, ds, n - 1);
      var defined := DefinedBefore(ds, n - 1);
      OrderedTogether(ProblemsOf(p, ds, n - 1), n - 1, Rules(p, ds[n - 1], defined));
      GatherNext(p, ds, n - 1, defined, ProblemsOf(p, ds, n - 1));
    }
  }

  lemma NoneInOrder()
    ensures InOrder([], 0)
  {
  }
}
