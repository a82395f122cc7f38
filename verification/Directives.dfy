/**
 nanoclaw/scripts/skill-directives.ts: the directives of a skill as parseDirectives delivers
 them, with attributes in parsed form, and the static check.
 */
module Directives {
  import opened Wrappers
  import opened Text
  import opened References

  datatype Kind = Copy | Append | Dep | RunCmd | Prompt | Operator | EnvSet | JsonMerge | Unknown(name: string)

  datatype Effect = Build | Test | Fetch | External | Wire | Restart | StreamStep | Check | Refresh | OtherEffect(name: string)

  /** `when:` text; without a '=' after the first character it is malformed. */
  datatype When = Malformed | Equals(v: string, value: string)

  /** One comma-separated part of a capture: `=` missing, at the front, or after a name. */
  datatype Pair = NoEq(text: string) | NoName(path: string) | Named(v: string, path: string)

  datatype Capture = Bare(v: string) | Pairs(pairs: seq<Pair>)

  datatype Normalize = TrimValue | StripSlash | Lower | OtherNormalize(name: string)

  datatype Arg = Secret | Name(name: string)

  /** Attributes that were removed from the language and are rejected. */
  datatype Removed = Min | ErrorText | Open | Gate | Label | OnFail

  datatype Attrs = Attrs(
    effect: Option<Effect>,
    guard: Option<When>,
    to: Option<string>,
    at: Option<string>,
    into: Option<string>,
    key: Option<string>,
    capture: Option<Capture>,
    validate: Option<string>,
    flags: Option<string>,
    normalize: Option<Normalize>,
    reuse: Option<string>,
    fromBranch: bool,
    cwd: Option<string>,
    remove: Option<string>,
    removed: set<Removed>)

  datatype Directive = Directive(kind: Kind, args: seq<Arg>, attrs: Attrs, body: seq<string>)

  datatype Json =
    | JNull
    | JBool(b: bool)
    | JNum(n: int)
    | JStr(s: string)
    | JArr(elems: seq<Json>)
    | JObj(fields: map<string, Json>)

  /** Library calls the engine relies on: JSON, regular expressions, package manifests, versions. */
  datatype Platform = Platform(
    parse: string -> Option<Json>,
    show: Json -> string,
    toText: Json -> string,
    element: (Json, string) -> Option<Json>,
    regexOk: (string, string) -> bool,
    matches: (string, string, string) -> bool,
    lower: string -> string,
    hasDep: (string, string) -> bool,
    pinned: string -> bool,
    inStep: string -> bool)

  /** The names its body lines refer to, each line by itself. */
  function ReferencedVars(d: Directive): set<string> {
    set i, x | 0 <= i < |d.body| && x in Names(d.body[i]) :: x
  }

  /** The first positional that is not a flag. */
  function PromptVar(args: seq<Arg>): Option<string> {
    if args == [] then None
    else match args[0] case Name(v) => Some(v) case Secret => PromptVar(args[1..])
  }

  function DropLast(s: string): string {
    if s == "" then "" else s[..|s| - 1]
  }

  /** What captureVars reads off one pair: without '=' it is the text less its last character. */
  function PairVar(pair: Pair): string {
    match pair
    case NoEq(text) => Trim(DropLast(text))
    case NoName(_) => ""
    case Named(v, _) => v
  }

  function CaptureVars(c: Capture): set<string> {
    match c
    case Bare(v) => {v}
    case Pairs(pairs) => set i | 0 <= i < |pairs| && PairVar(pairs[i]) != "" :: PairVar(pairs[i])
  }

  /** The variables a directive defines in the eyes of the static check. */
  function Defines(d: Directive): set<string> {
    if d.kind.Prompt? && PromptVar(d.args).Some? then {PromptVar(d.args).value}
    else if d.kind.RunCmd? && d.attrs.capture.Some? then CaptureVars(d.attrs.capture.value)
    else {}
  }

  // ----- The static check -----

  datatype Rule =
    | UnknownDirective
    | UnpinnedDep(spec: string)
    | AdapterOutOfStep(spec: string)
    | AppendNeedsTarget
    | NeedsBody
    | MergeNeedsTarget
    | MergeNeedsKey
    | MergeUnparseable
    | MergeNotObject
    | MergeLacksKey
    | PromptNeedsName
    | BadRegex
    | BadFlags
    | BadNormalize
    | BadReuse
    | RemovedAttribute(attr: Removed)
    | UndefinedReference(name: string)
    | MalformedGuard
    | UndefinedGuard

  datatype Problem = Problem(index: nat, rule: Rule)

  function If(b: bool, rule: Rule): seq<Rule> {
    if b then [rule] else []
  }

  /** A missing attribute and an empty one read alike. */
  function OrEmpty(attr: Option<string>): string {
    if attr.Some? then attr.value else ""
  }

  function RemovedRule(d: Directive, attr: Removed): seq<Rule> {
    If(attr in d.attrs.removed, RemovedAttribute(attr))
  }

  function DepRules(p: Platform, specs: seq<string>): seq<Rule> {
    if specs == [] then []
    else
      If(!p.pinned(specs[0]), UnpinnedDep(specs[0])) + If(!p.inStep(specs[0]), AdapterOutOfStep(specs[0]))
      + DepRules(p, specs[1..])
  }

  function MergeRules(p: Platform, d: Directive): seq<Rule> {
    If(OrEmpty(d.attrs.into) == "", MergeNeedsTarget) + If(OrEmpty(d.attrs.key) == "", MergeNeedsKey)
    + if d.body == [] then [NeedsBody]
      else
        match p.parse(Join(d.body))
        case None => [MergeUnparseable]
        case Some(JObj(fields)) => If(d.attrs.key.Some? && d.attrs.key.value !in fields, MergeLacksKey)
        case Some(_) => [MergeNotObject]
  }

  function PromptRules(p: Platform, d: Directive): seq<Rule> {
    var flags := OrEmpty(d.attrs.flags);
    If(PromptVar(d.args).None?, PromptNeedsName) + If(d.body == [], NeedsBody)
    + (if d.attrs.validate.Some? then If(!p.regexOk(d.attrs.validate.value, flags), BadRegex)
       else If(d.attrs.flags.Some? && !p.regexOk("", flags), BadFlags))
    + RemovedRule(d, Min) + RemovedRule(d, ErrorText)
    + If(d.attrs.normalize.Some? && d.attrs.normalize.value.OtherNormalize?, BadNormalize)
    + If(d.attrs.reuse.Some? && !IsIdent(d.attrs.reuse.value), BadReuse)
  }

  function OperatorRules(d: Directive): seq<Rule> {
    If(d.body == [], NeedsBody) + RemovedRule(d, Open)
    + If(Gate in d.attrs.removed || Name("gate") in d.args, RemovedAttribute(Gate))
  }

  function KindRules(p: Platform, d: Directive): seq<Rule> {
    match d.kind
    case Unknown(_) => [UnknownDirective]
    case Dep => DepRules(p, d.body)
    case Append => If(OrEmpty(d.attrs.to) == "", AppendNeedsTarget) + If(d.body == [], NeedsBody)
    case Copy => If(d.body == [], NeedsBody)
    case JsonMerge => MergeRules(p, d)
    case Prompt => PromptRules(p, d)
    case Operator => OperatorRules(d)
    case _ => []
  }

  function Undefined(names: seq<string>, defined: set<string>): seq<Rule> {
    if names == [] then []
    else If(names[0] !in defined, UndefinedReference(names[0])) + Undefined(names[1..], defined)
  }

  function ReferenceRules(body: seq<string>, defined: set<string>): seq<Rule> {
    if body == [] then [] else Undefined(NamesIn(body[0]), defined) + ReferenceRules(body[1..], defined)
  }

  function GuardRules(d: Directive, defined: set<string>): seq<Rule> {
    match d.attrs.guard
    case None => []
    case Some(Malformed) => [MalformedGuard]
    case Some(Equals(v, _)) => If(v !in defined, UndefinedGuard)
  }

  /** What one directive is flagged for, in order: each spec and each reference by itself. */
  function Rules(p: Platform, d: Directive, defined: set<string>): seq<Rule> {
    KindRules(p, d) + RemovedRule(d, Label) + RemovedRule(d, OnFail)
    + ReferenceRules(d.body, defined) + GuardRules(d, defined)
    + If(d.kind.RunCmd? && d.attrs.validate.Some? && !p.regexOk(d.attrs.validate.value, ""), BadRegex)
  }

  /** Everything defined by the first n directives. */
  function DefinedBefore(ds: seq<Directive>, n: nat): set<string>
    requires n <= |ds|
  {
    if n == 0 then {} else DefinedBefore(ds, n - 1) + Defines(ds[n - 1])
  }

  function Located(index: nat, rules: seq<Rule>): seq<Problem> {
    seq(|rules|, i requires 0 <= i < |rules| => Problem(index, rules[i]))
  }

  type Checker = nat -> seq<Problem>

  function CheckOf(p: Platform, ds: seq<Directive>): Checker {
    (i: nat) => if i < |ds| then Located(i, Rules(p, ds[i], DefinedBefore(ds, i))) else []
  }

  function Gather(check: Checker, n: nat): seq<Problem> {
    if n == 0 then [] else Gather(check, n - 1) + check(n - 1)
  }

  /** The problems of the first n directives, in document order. */
  function ProblemsOf(p: Platform, ds: seq<Directive>, n: nat): seq<Problem>
    requires n <= |ds|
  {
    Gather(CheckOf(p, ds), n)
  }

  lemma GatherNext(p: Platform, ds: seq<Directive>, i: nat, defined: set<string>, problems: seq<Problem>)
    requires i < |ds| && defined == DefinedBefore(ds, i) && problems == Gather(CheckOf(p, ds), i)
    ensures problems + Located(i, Rules(p, ds[i], defined)) == Gather(CheckOf(p, ds), i + 1)
  {
    assert CheckOf(p, ds)(i) == Located(i, Rules(p, ds[i], defined));
  }

  method Validate(p: Platform, ds: seq<Directive>) returns (problems: seq<Problem>)
    ensures problems == ProblemsOf(p, ds, |ds|)
  {
    problems := [];
    var defined: set<string> := {};
    for i := 0 to |ds|
      invariant problems == Gather(CheckOf(p, ds), i)
      invariant defined == DefinedBefore(ds, i)
    {
      GatherNext(p, ds, i, defined, problems);
      problems := problems + Located(i, Rules(p, ds[i], defined));
      defined := defined + Defines(ds[i]);
    }
  }

  lemma {:induction false} NothingUndefined(names: seq<string>, defined: set<string>)
    ensures Undefined(names, defined) == [] <==> forall x <- names :: x in defined
  {
    if names != [] {
      NothingUndefined(names[1..], defined);
    }
  }

  lemma {:induction false} NoReferenceRules(body: seq<string>, defined: set<string>)
    ensures ReferenceRules(body, defined) == [] <==> forall i | 0 <= i < |body| :: Names(body[i]) <= defined
  {
    if body != [] {
      NothingUndefined(NamesIn(body[0]), defined);
      NoReferenceRules(body[1..], defined);
      assert forall i | 1 <= i < |body| :: body[i] == body[1..][i - 1];
      assert forall i | 0 <= i < |body| - 1 :: body[1..][i] == body[i + 1];
    }
  }

  lemma NoRules(p: Platform, d: Directive, defined: set<string>)
    requires |Rules(p, d, defined)| == 0
    ensures ReferencedVars(d) <= defined
    ensures d.attrs.guard.Some? ==> d.attrs.guard.value.Equals? && d.attrs.guard.value.v in defined
  {
    assert |ReferenceRules(d.body, defined)| == 0 && |GuardRules(d, defined)| == 0;
    NoReferenceRules(d.body, defined);
  }

  lemma {:induction false} NothingGathered(check: Checker, n: nat, i: nat)
    requires i < n && Gather(check, n) == []
    ensures check(i) == []
  {
    assert |Gather(check, n)| == |Gather(check, n - 1)| + |check(n - 1)|;
    if i < n - 1 {
      NothingGathered(check, n - 1, i);
    }
  }

  /** A clean report means that every reference and guard names an earlier definition. */
  lemma CleanMeansScoped(p: Platform, ds: seq<Directive>, n: nat, i: nat)
    requires i < n <= |ds| && ProblemsOf(p, ds, n) == []
    ensures ReferencedVars(ds[i]) <= DefinedBefore(ds, i)
    ensures var guard := ds[i].attrs.guard;
            guard.Some? ==> guard.value.Equals? && guard.value.v in DefinedBefore(ds, i)
  {
    NothingGathered(CheckOf(p, ds), n, i);
    assert |Located(i, Rules(p, ds[i], DefinedBefore(ds, i)))| == 0;
    NoRules(p, ds[i], DefinedBefore(ds, i));
  }
}
