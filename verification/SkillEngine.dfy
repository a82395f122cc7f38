/**
 nanoclaw/scripts/skill-apply.ts: one run over the directives of a skill. Everything the run
 asks of the outside world for one directive is a Reply; file contents are strings and paths
 are names. Commands are taken not to touch the files that directives edit.
 */
module SkillEngine {
  import opened Wrappers
  import opened Text
  import opened References
  import opened Directives

  type Path = string
  type Tree = map<Path, string>
  type Vars = map<string, string>

  const ENV_FILE: Path := ".env"

  datatype Mode = Install | RefreshOnly

  /**
   A thrown error, told apart the way the outer catch does: by whether a step reported it, and by
   whether its message, which may quote anything, holds the words of a missing input.
   */
  datatype Err = Unresolved(name: string) | Reported(message: string) | Other(looksUnresolved: bool)

  const UNRESOLVED: string := "unresolved {{"

  /** An error with a message of the engine's own making. */
  function Says(message: string): Err {
    Other(Contains(message, UNRESOLVED))
  }

  datatype Entry =
    | Wrote(path: Path)
    | Appended(path: Path, line: string)
    | SetEnv(key: string)
    | Merged(path: Path, key: string, value: Option<Json>, previous: Option<Json>)
    | Ran(cmd: string, undo: Option<string>)

  datatype Input = Answered(value: Option<string>) | ResolverThrows(err: Err)

  datatype Output = Out(stdout: string) | Throws(err: Err)

  datatype StepReply = StepDone(ok: bool, fields: map<string, string>) | StepThrows(err: Err)

  /** `None` is a consumer that accepts the event. */
  type Reaction = Option<Err>

  /** `quotes`: an error that a library call of this directive throws reads like a missing input. */
  datatype Reply = Reply(
    input: Input,
    start: Reaction,
    end: Reaction,
    shown: Reaction,
    commands: seq<Output>,
    step: StepReply,
    contents: seq<string>,
    ioFails: Option<nat>,
    quotes: bool)

  datatype Options = Options(
    mode: Mode,
    inputs: map<string, string>,
    consumer: bool,
    stream: bool,
    skipEffects: set<Effect>)

  // ----- Reading -----

  function Read(t: Tree, path: Path): string {
    if path in t then t[path] else ""
  }

  function Has(t: Tree, path: Path): bool {
    path in t
  }

  function DestOf(line: string): string {
    var c := Cut(line, "->");
    if c.1 then Trim(Cut(c.2, "->").0) else Trim(line)
  }

  predicate SameLine(l: string, line: string) {
    Trim(l) == Trim(line)
  }

  predicate HasLine(s: string, line: string) {
    exists i :: 0 <= i < |Split(s)| && SameLine(Split(s)[i], line)
  }

  /** A line that sets `key` to something: the assignment regex with a non-blank value. */
  predicate Assigns(l: string, key: string) {
    var eq := IndexOf(l, '=');
    eq >= 0 && IsIdent(Trim(l[..eq])) && Trim(l[..eq]) == key
    && Trim(l[eq + 1..]) != "" && (forall c <- l[eq + 1..] :: !IsTerminator(c))
  }

  predicate EnvKeySet(t: Tree, key: string) {
    var ls := Split(Read(t, ENV_FILE));
    exists i :: 0 <= i < |ls| && Assigns(ls[i], key)
  }

  /** el[key], where undefined is None. */
  function Field(el: Json, key: string): Option<Json> {
    if el.JObj? && key in el.fields then Some(el.fields[key]) else None
  }

  predicate Scalar(v: Option<Json>) {
    v.None? || !(v.value.JArr? || v.value.JObj?)
  }

  /** a === b for values that were parsed separately. */
  predicate StrictEq(a: Option<Json>, b: Option<Json>) {
    a == b && Scalar(a)
  }

  predicate KeyMatches(el: Json, key: string, value: Option<Json>) {
    (el.JObj? || el.JArr?) && StrictEq(Field(el, key), value)
  }

  /** findIndex, or -1. */
  function FindKey(elems: seq<Json>, key: string, value: Option<Json>): (i: int)
    ensures -1 <= i < |elems|
    ensures i >= 0 ==> KeyMatches(elems[i], key, value)
    ensures forall j | 0 <= j < (if i < 0 then |elems| else i) :: !KeyMatches(elems[j], key, value)
  {
    if elems == [] then -1
    else if KeyMatches(elems[0], key, value) then 0
    else
      var i := FindKey(elems[1..], key, value);
      if i < 0 then -1 else i + 1
  }

  function ParseFile(p: Platform, t: Tree, path: Path): Option<Json> {
    p.parse(if Read(t, path) == "" then "[]" else Read(t, path))
  }

  predicate ArrayHasKey(p: Platform, t: Tree, path: Path, key: string, value: Option<Json>) {
    match ParseFile(p, t, path)
    case Some(JArr(elems)) => FindKey(elems, key, value) >= 0
    case _ => false
  }

  /** The name a write falls back on when its attribute is missing. */
  function OrUndefined(attr: Option<string>): string {
    if attr.Some? then attr.value else "undefined"
  }

  /** The merge body, when it is an object or at least something with fields. */
  function MergeBody(p: Platform, d: Directive): Option<Json> {
    p.parse(Join(d.body))
  }

  /** JSON.parse(body)[key]; reading a field of null throws. */
  function MergeValue(p: Platform, d: Directive, key: string): Result<Option<Json>, ()> {
    match MergeBody(p, d)
    case None => Err(())
    case Some(JNull) => Err(())
    case Some(obj) => Ok(Field(obj, key))
  }

  // ----- Status -----

  datatype Status = Skip | Apply | Agent

  /** The key applyOne writes; without '=' it loses its last character. */
  function EnvKey(entry: string): string {
    var eq := IndexOf(entry, '=');
    Trim(if eq >= 0 then entry[..eq] else DropLast(entry))
  }

  /** The key selfStatus looks for. */
  function StatusKey(entry: string): string {
    var eq := IndexOf(entry, '=');
    Trim(if eq >= 0 then entry[..eq] else entry)
  }

  function EnvValue(entry: string): string {
    var eq := IndexOf(entry, '=');
    Trim(if eq >= 0 then entry[eq + 1..] else entry)
  }

  function FirstLine(d: Directive): string {
    if d.body == [] then "" else d.body[0]
  }

  /** The files a copy block would write: all on refresh, the absent ones on install. */
  function ToCopy(body: seq<string>, t: Tree, mode: Mode): seq<Path> {
    if body == [] then []
    else
      var dest := DestOf(body[0]);
      (if mode.RefreshOnly? || !Has(t, dest) then [dest] else []) + ToCopy(body[1..], t, mode)
  }

  function PackageFile(d: Directive): Path {
    if OrEmpty(d.attrs.cwd) == "" then "package.json" else d.attrs.cwd.value + "/package.json"
  }

  function SelfStatus(p: Platform, d: Directive, t: Tree, mode: Mode): Status {
    match d.kind
    case Copy => if mode.RefreshOnly? || ToCopy(d.body, t, Install) != [] then Apply else Skip
    case Append => if HasLine(Read(t, OrEmpty(d.attrs.to)), FirstLine(d)) then Skip else Apply
    case Dep =>
      if mode.RefreshOnly? || exists i :: 0 <= i < |d.body| && !p.hasDep(Read(t, PackageFile(d)), d.body[i])
      then Apply else Skip
    case RunCmd => Apply
    case EnvSet => if forall i | 0 <= i < |d.body| :: EnvKeySet(t, StatusKey(d.body[i])) then Skip else Apply
    case JsonMerge =>
      var value := MergeValue(p, d, OrEmpty(d.attrs.key));
      if value.Err? then Agent
      else if mode.RefreshOnly? then Apply
      else if ArrayHasKey(p, t, OrEmpty(d.attrs.into), OrEmpty(d.attrs.key), value.value) then Skip
      else Apply
    case Prompt => Apply
    case Operator => Apply
    case Unknown(_) => Agent
  }

  // ----- Applying one directive -----

  /** What applyOne changes before it ends or throws; `ran` are the commands it started. */
  datatype Work = Work(tree: Tree, vars: Vars, journal: seq<Entry>, ran: seq<string>, err: Option<Err>)

  function Fill(pieces: seq<Piece>, vars: Vars): Result<string, Err> {
    if pieces == [] then Ok("")
    else
      match pieces[0]
      case Plain(c) =>
        var rest := Fill(pieces[1..], vars);
        if rest.Err? then rest else Ok([c] + rest.value)
      case Ref(name) =>
        if name !in vars then Result.Err(Unresolved(name))
        else
          var rest := Fill(pieces[1..], vars);
          if rest.Err? then rest else Ok(vars[name] + rest.value)
  }

  /** Every reference replaced by its value; the first one without a value throws. */
  function Substitute(s: string, vars: Vars): Result<string, Err> {
    Fill(Pieces(s), vars)
  }

  function Fail(w: Work, err: Err): Work {
    w.(err := Some(err))
  }

  function ContentAt(rep: Reply, i: nat): string {
    if i < |rep.contents| then rep.contents[i] else ""
  }

  /** The files written when the block stops before `stop`. */
  function WriteAll(t: Tree, dests: seq<Path>, rep: Reply, i: nat, stop: nat): Tree
    requires i <= |dests|
    decreases |dests| - i
  {
    if i == |dests| || i == stop then t
    else WriteAll(t[dests[i] := ContentAt(rep, i)], dests, rep, i + 1, stop)
  }

  function WroteEntries(dests: seq<Path>): seq<Entry> {
    seq(|dests|, i requires 0 <= i < |dests| => Wrote(dests[i]))
  }

  /** Journal entries are pushed only after the whole block was written. */
  function ApplyCopy(d: Directive, mode: Mode, rep: Reply, w: Work): Work {
    var dests := ToCopy(d.body, w.tree, mode);
    if rep.ioFails.Some? && rep.ioFails.value < |dests|
    then Fail(w.(tree := WriteAll(w.tree, dests, rep, 0, rep.ioFails.value)), Other(rep.quotes))
    else w.(tree := WriteAll(w.tree, dests, rep, 0, |dests|), journal := w.journal + WroteEntries(dests))
  }

  /** The first line that holds the closing marker, or -1. */
  function FindMarker(ls: seq<string>, close: string): (i: int)
    ensures -1 <= i < |ls|
    ensures i >= 0 ==> Contains(ls[i], close)
  {
    if ls == [] then -1
    else if Contains(ls[0], close) then 0
    else
      var i := FindMarker(ls[1..], close);
      if i < 0 then -1 else i + 1
  }

  /** Insert before the marker line at `i`, indented like it. */
  function InsertAt(s: string, i: nat, line: string): string
    requires i < |Split(s)|
  {
    var ls := Split(s);
    Join(ls[..i] + [Indent(ls[i]) + line] + ls[i..])
  }

  function AppendOne(d: Directive, t: Tree, line: string): Option<Tree> {
    var to := OrUndefined(d.attrs.to);
    var s := Read(t, to);
    if OrEmpty(d.attrs.at) == "" then Some(t[to := AppendLine(s, line)])
    else
      var i := FindMarker(Split(s), "<<< " + d.attrs.at.value);
      if i < 0 then None else Some(t[to := InsertAt(s, i, line)])
  }

  function NoMarker(d: Directive): string {
    "append marker \"" + OrEmpty(d.attrs.at) + "\" not found in " + OrUndefined(d.attrs.to)
  }

  function AppendAt(d: Directive, i: nat, rep: Reply, w: Work): Work
    requires i < |d.body|
  {
    var line := d.body[i];
    var t := AppendOne(d, w.tree, line);
    if rep.ioFails == Some(i) then Fail(w, Other(rep.quotes))
    else if t.None? then Fail(w, Says(NoMarker(d)))
    else w.(tree := t.value, journal := w.journal + [Appended(OrUndefined(d.attrs.to), line)])
  }

  function OutputAt(rep: Reply, i: nat): Output {
    if i < |rep.commands| then rep.commands[i] else Out("")
  }

  function ApplyDep(d: Directive, rep: Reply, w: Work): Work {
    match OutputAt(rep, 0)
    case Throws(err) => Fail(w, err)
    case Out(_) => w.(journal := w.journal + [Ran("add", Some("remove"))])
  }

  /** path.split('.'), without empty parts. */
  function PathKeys(path: string): seq<string> {
    if path == "" then []
    else
      var i := IndexOf(path, '.');
      if i < 0 then [path]
      else (if i == 0 then [] else [path[..i]]) + PathKeys(path[i + 1..])
  }

  /** dotPath: one hop after the other, undefined behind anything without properties. */
  function Follow(p: Platform, json: Json, keys: seq<string>): Option<Json>
    decreases |keys|
  {
    if keys == [] then Some(json)
    else
      var next := match json
        case JObj(_) => Field(json, keys[0])
        case JArr(_) => p.element(json, keys[0])
        case _ => None;
      if next.None? then None else Follow(p, next.value, keys[1..])
  }

  /** What a path finds, as text; undefined and null read as nothing. */
  function DotPath(p: Platform, json: Json, path: string): string {
    match Follow(p, json, PathKeys(path))
    case None => ""
    case Some(JNull) => ""
    case Some(found) => p.toText(found)
  }

  /** An empty `validate:` guards nothing. */
  predicate Guarded(d: Directive) {
    d.attrs.validate.Some? && d.attrs.validate.value != ""
  }

  function Mismatch(d: Directive, name: string, value: string): string {
    "captured " + name + "=\"" + value + "\" does not match validate:" + OrEmpty(d.attrs.validate)
  }

  /** A value a capture would bind, refused when it misses the validate pattern. */
  function Bind(p: Platform, d: Directive, vars: Vars, name: string, value: string): Result<Vars, Err> {
    if Guarded(d) && !p.matches(d.attrs.validate.value, "", value) then Result.Err(Says(Mismatch(d, name, value)))
    else Ok(vars[name := value])
  }

  function BindPairs(p: Platform, d: Directive, pairs: seq<Pair>, json: Json, vars: Vars): (Vars, Option<Err>) {
    if pairs == [] then (vars, None)
    else
      match pairs[0]
      case Named(v, path) =>
        var bound := Bind(p, d, vars, v, DotPath(p, json, path));
        if bound.Err? then (vars, Some(bound.error)) else BindPairs(p, d, pairs[1..], json, bound.value)
      case _ => BindPairs(p, d, pairs[1..], json, vars)
  }

  function BindCapture(p: Platform, d: Directive, rep: Reply, stdout: string, vars: Vars): (Vars, Option<Err>)
    requires d.attrs.capture.Some?
  {
    if Guarded(d) && !p.regexOk(d.attrs.validate.value, "") then (vars, Some(Other(rep.quotes)))
    else
      match d.attrs.capture.value
      case Bare(v) =>
        var bound := Bind(p, d, vars, v, stdout);
        if bound.Err? then (vars, Some(bound.error)) else (bound.value, None)
      case Pairs(pairs) =>
        match p.parse(stdout)
        case None => (vars, Some(Other(rep.quotes)))
        case Some(json) => BindPairs(p, d, pairs, json, vars)
  }

  /** The fields a finished step binds; pairs without a name before '=' bind nothing. */
  function BindFields(pairs: seq<Pair>, fields: map<string, string>, vars: Vars): Vars {
    if pairs == [] then vars
    else
      match pairs[0]
      case Named(v, field) =>
        BindFields(pairs[1..], fields, vars[v := Trim(if field in fields then fields[field] else "")])
      case _ => BindFields(pairs[1..], fields, vars)
  }

  /** A bare capture on a step binds nothing. */
  function BindStep(d: Directive, fields: map<string, string>, vars: Vars): Vars {
    match d.attrs.capture
    case Some(Pairs(pairs)) => BindFields(pairs, fields, vars)
    case _ => vars
  }

  /** The block's own ERROR text, when it has one, is the reason that is reported. */
  function StepFailure(fields: map<string, string>): Err {
    var message := if "ERROR" in fields then Trim(fields["ERROR"]) else "";
    if message != "" then Reported(message) else Other(false)
  }

  function ApplyStep(d: Directive, stream: bool, rep: Reply, w: Work): Work {
    if !stream then Fail(w, Other(false))
    else
      var cmd := Substitute(Join(d.body), w.vars);
      if cmd.Err? then Fail(w, cmd.error)
      else
        var started := w.(ran := w.ran + [cmd.value]);
        match rep.step
        case StepThrows(err) => Fail(started, err)
        case StepDone(ok, fields) =>
          if !ok then Fail(started, StepFailure(fields))
          else started.(vars := BindStep(d, fields, w.vars), journal := w.journal + [Ran(Join(d.body), None)])
  }

  /** A check only runs its command; any other run captures and journals. */
  function CommandAt(p: Platform, d: Directive, i: nat, rep: Reply, w: Work): Work
    requires i < |d.body|
  {
    var cmd := Substitute(d.body[i], w.vars);
    if cmd.Err? then Fail(w, cmd.error)
    else
      var started := w.(ran := w.ran + [cmd.value]);
      match OutputAt(rep, i)
      case Throws(err) => Fail(started, err)
      case Out(stdout) =>
        if d.attrs.effect == Some(Check) then started
        else
          var (vars, err) :=
            if d.attrs.capture.None? then (w.vars, None) else BindCapture(p, d, rep, Trim(stdout), w.vars);
          if err.Some? then Fail(started.(vars := vars), err.value)
          else
            var undo := if d.attrs.effect == Some(External) then d.attrs.remove else None;
            started.(vars := vars, journal := w.journal + [Ran(d.body[i], undo)])
  }

  function SetOne(t: Tree, key: string, value: string): Tree {
    t[ENV_FILE := AppendLine(Read(t, ENV_FILE), key + "=" + value)]
  }

  function EnvAt(d: Directive, i: nat, rep: Reply, w: Work): Work
    requires i < |d.body|
  {
    var key := EnvKey(d.body[i]);
    var value := Substitute(EnvValue(d.body[i]), w.vars);
    if value.Err? then Fail(w, value.error)
    else if rep.ioFails == Some(i) then Fail(w, Other(rep.quotes))
    else if EnvKeySet(w.tree, key) then w
    else w.(tree := SetOne(w.tree, key, value.value), journal := w.journal + [SetEnv(key)])
  }

  predicate LineWise(d: Directive) {
    d.kind.Append? || d.kind.EnvSet? || (d.kind.RunCmd? && d.attrs.effect != Some(StreamStep))
  }

  function LineAt(p: Platform, d: Directive, i: nat, rep: Reply, w: Work): Work
    requires i < |d.body| && LineWise(d)
  {
    match d.kind
    case Append => AppendAt(d, i, rep, w)
    case EnvSet => EnvAt(d, i, rep, w)
    case _ => CommandAt(p, d, i, rep, w)
  }

  type Liner = (nat, Work) -> Work

  function Lining(p: Platform, d: Directive, rep: Reply): Liner
    requires LineWise(d)
  {
    (i: nat, w: Work) => if i < |d.body| then LineAt(p, d, i, rep, w) else w
  }

  /** Lines i to n, until one throws. */
  function Each(f: Liner, n: nat, i: nat, w: Work): Work
    requires i <= n
    decreases n - i
  {
    if i == n || w.err.Some? then w else Each(f, n, i + 1, f(i, w))
  }

  /** The body lines from `i` on, until one throws. */
  function ApplyLines(p: Platform, d: Directive, i: nat, rep: Reply, w: Work): Work
    requires i <= |d.body| && LineWise(d)
  {
    Each(Lining(p, d, rep), |d.body|, i, w)
  }

  function WriteArray(p: Platform, t: Tree, path: Path, elems: seq<Json>): Tree {
    t[path := p.show(JArr(elems))]
  }

  function NoArray(path: Path): string {
    path + " is not a JSON array"
  }

  function ApplyMerge(p: Platform, d: Directive, mode: Mode, rep: Reply, w: Work): Work {
    var into, key := OrUndefined(d.attrs.into), OrUndefined(d.attrs.key);
    var obj, file := MergeBody(p, d), ParseFile(p, w.tree, into);
    if obj.None? || rep.ioFails.Some? || file.None? then Fail(w, Other(rep.quotes))
    else if !file.value.JArr? then Fail(w, Says(NoArray(into)))
    else
      var elems := file.value.elems;
      match MergeValue(p, d, key)
      case Err(_) => Fail(w, Other(rep.quotes))
      case Ok(value) =>
        var i := FindKey(elems, key, value);
        if i < 0 then
          w.(tree := WriteArray(p, w.tree, into, elems + [obj.value]),
             journal := w.journal + [Merged(into, key, value, None)])
        else if mode.RefreshOnly? && elems[i] != obj.value then
          w.(tree := WriteArray(p, w.tree, into, elems[i := obj.value]),
             journal := w.journal + [Merged(into, key, value, Some(elems[i]))])
        else w
  }

  function NoHandler(d: Directive): string {
    "no handler for nc:" + if d.kind.Unknown? then d.kind.name else ""
  }

  function ApplyOne(p: Platform, o: Options, d: Directive, rep: Reply, w: Work): Work {
    match d.kind
    case Copy => ApplyCopy(d, o.mode, rep, w)
    case Append => ApplyLines(p, d, 0, rep, w)
    case Dep => ApplyDep(d, rep, w)
    case RunCmd =>
      if d.attrs.effect == Some(StreamStep) then ApplyStep(d, o.stream, rep, w) else ApplyLines(p, d, 0, rep, w)
    case EnvSet => ApplyLines(p, d, 0, rep, w)
    case JsonMerge => ApplyMerge(p, d, o.mode, rep, w)
    case _ => Fail(w, Says(NoHandler(d)))
  }

  // ----- The run -----

  /** What the run did, in order; directives are named by their position. */
  datatype Ev =
    | StepStart(i: nat, accepted: bool)
    | StepEnd(i: nat, ok: bool)
    | Shown(i: nat)
    | Executed(i: nat, effect: Option<Effect>, commands: seq<string>)
    | Bounced(i: nat)

  /** The five places a directive can end in; a task is one bounced to an agent. */
  datatype Verdict = Applied | Skipped | Deferred | Task | Bound

  datatype Ledger = Ledger(applied: seq<nat>, skipped: seq<nat>, deferred: seq<nat>, tasks: seq<nat>, bound: seq<nat>)

  function Put(l: Ledger, i: nat, verdict: Verdict): Ledger {
    match verdict
    case Applied => l.(applied := l.applied + [i])
    case Skipped => l.(skipped := l.skipped + [i])
    case Deferred => l.(deferred := l.deferred + [i])
    case Task => l.(tasks := l.tasks + [i])
    case Bound => l.(bound := l.bound + [i])
  }

  datatype State = State(
    tree: Tree,
    vars: Vars,
    journal: seq<Entry>,
    ledger: Ledger,
    messages: seq<string>,
    blocked: bool,
    trace: seq<Ev>)

  function Initial(t: Tree): State {
    State(t, map[], [], Ledger([], [], [], [], []), [], false, [])
  }

  /** What one directive did to the run. */
  datatype Done = Done(
    tree: Tree,
    vars: Vars,
    journal: seq<Entry>,
    messages: seq<string>,
    events: seq<Ev>,
    verdict: Verdict)

  function Quiet(st: State, verdict: Verdict): Done {
    Done(st.tree, st.vars, st.journal, [], [], verdict)
  }

  function IfTask(verdict: Verdict, i: nat): seq<Ev> {
    if verdict.Task? then [Bounced(i)] else []
  }

  /** File directive i; a bounce latches `blocked`. */
  function Settle(st: State, i: nat, r: Done): State {
    State(r.tree, r.vars, r.journal, Put(st.ledger, i, r.verdict), st.messages + r.messages,
          st.blocked || r.verdict.Task?, st.trace + (r.events + IfTask(r.verdict, i)))
  }

  /** The classification at the end of the outer catch. */
  function Classify(err: Err): Verdict {
    match err
    case Reported(_) => Task
    case Unresolved(_) => Deferred
    case Other(looksUnresolved) => if looksUnresolved then Deferred else Task
  }

  predicate SideEffect(e: Effect) {
    e.Restart? || e.StreamStep? || e.Wire?
  }

  predicate Validation(e: Effect) {
    e.Build? || e.Test?
  }

  /** Not run once the run is blocked. */
  predicate Gated(d: Directive) {
    d.kind.RunCmd? && d.attrs.effect.Some? && (SideEffect(d.attrs.effect.value) || Validation(d.attrs.effect.value))
  }

  predicate WhenMet(guard: Option<When>, vars: Vars) {
    match guard
    case None => true
    case Some(Malformed) => true
    case Some(Equals(v, value)) => v in vars && vars[v] == value
  }

  predicate OutsideRefresh(d: Directive) {
    d.kind.Prompt? || d.kind.Operator? || d.kind.EnvSet? || (d.kind.RunCmd? && d.attrs.effect != Some(Refresh))
  }

  function StripSlashes(s: string): string {
    if s != "" && s[|s| - 1] == '/' then StripSlashes(s[..|s| - 1]) else s
  }

  function NormalizeValue(p: Platform, value: string, how: Option<Normalize>): string {
    match how
    case Some(TrimValue) => Trim(value)
    case Some(StripSlash) => StripSlashes(value)
    case Some(Lower) => p.lower(value)
    case _ => value
  }

  /** The variable a prompt asks for; a nameless prompt asks for the property "undefined". */
  function AskedVar(d: Directive): string {
    if PromptVar(d.args).Some? then PromptVar(d.args).value else "undefined"
  }

  function Acquire(o: Options, v: string, rep: Reply): Input {
    if v in o.inputs then Answered(Some(o.inputs[v])) else rep.input
  }

  /** A nameless prompt binds a key that no reference can name. */
  function BindPrompt(d: Directive, vars: Vars, value: string): Vars {
    if PromptVar(d.args).Some? then vars[PromptVar(d.args).value := value] else vars
  }

  function DoPrompt(p: Platform, o: Options, d: Directive, rep: Reply, st: State): Done {
    match Acquire(o, AskedVar(d), rep)
    case ResolverThrows(err) => Quiet(st, Classify(err))
    case Answered(None) => Quiet(st, Deferred)
    case Answered(Some(value)) =>
      var bound := NormalizeValue(p, value, d.attrs.normalize);
      if d.attrs.validate.Some? && !p.regexOk(d.attrs.validate.value, OrEmpty(d.attrs.flags))
      then Quiet(st, Classify(Other(rep.quotes)))
      else if d.attrs.validate.Some? && !p.matches(d.attrs.validate.value, OrEmpty(d.attrs.flags), bound)
      then Quiet(st, Deferred)
      else Quiet(st, Bound).(vars := BindPrompt(d, st.vars, bound))
  }

  function DoOperator(o: Options, d: Directive, i: nat, rep: Reply, st: State): Done {
    if st.blocked then Quiet(st, Skipped)
    else
      var text := Substitute(Join(d.body), st.vars);
      if text.Err? then Quiet(st, Classify(text.error))
      else
        Done(st.tree, st.vars, st.journal, [text.value], if o.consumer then [Shown(i)] else [],
             if o.consumer && rep.shown.Some? then Classify(rep.shown.value) else Applied)
  }

  function WorkOf(st: State): Work {
    Work(st.tree, st.vars, st.journal, [], None)
  }

  /** The events of a step whose start was accepted. */
  function StepEvents(o: Options, d: Directive, i: nat, w: Work): seq<Ev> {
    (if o.consumer then [StepStart(i, true)] else [])
    + (if d.kind.RunCmd? && w.ran != [] then [Executed(i, d.attrs.effect, w.ran)] else [])
    + (if o.consumer then [StepEnd(i, w.err.None?)] else [])
  }

  /** The bracketed mutation: start event, applyOne (which comes to `w`), end event. */
  function DoMutation(o: Options, d: Directive, i: nat, rep: Reply, st: State, w: Work): Done {
    if o.consumer && rep.start.Some?
    then Quiet(st, Classify(rep.start.value)).(events := [StepStart(i, false)])
    else
      var verdict :=
        if w.err.Some? then Classify(w.err.value)
        else if o.consumer && rep.end.Some? then Classify(rep.end.value)
        else Applied;
      Done(w.tree, w.vars, w.journal, [], StepEvents(o, d, i, w), verdict)
  }

  /** The body of the loop; `w` is what applyOne comes to, should it be reached. */
  function HandleWith(p: Platform, o: Options, d: Directive, i: nat, rep: Reply, st: State, w: Work): Done {
    if (o.mode.RefreshOnly? && OutsideRefresh(d)) || !WhenMet(d.attrs.guard, st.vars) then Quiet(st, Skipped)
    else if d.kind.Prompt? then DoPrompt(p, o, d, rep, st)
    else if d.kind.Operator? then DoOperator(o, d, i, rep, st)
    else if d.kind.RunCmd? && d.attrs.effect.Some? && d.attrs.effect.value in o.skipEffects then Quiet(st, Skipped)
    else if st.blocked && Gated(d) then Quiet(st, Task)
    else
      match SelfStatus(p, d, st.tree, o.mode)
      case Agent => Quiet(st, Task)
      case Skip => Quiet(st, Skipped)
      case Apply => DoMutation(o, d, i, rep, st, w)
  }

  function Handle(p: Platform, o: Options, d: Directive, i: nat, rep: Reply, st: State): Done {
    HandleWith(p, o, d, i, rep, st, ApplyOne(p, o, d, rep, WorkOf(st)))
  }

  /** What directive i does in a given state. */
  type Stepper = (nat, State) -> Done

  function Stepping(p: Platform, o: Options, ds: seq<Directive>, reps: seq<Reply>): Stepper
    requires |ds| == |reps|
  {
    (i: nat, st: State) => if i < |ds| then Handle(p, o, ds[i], i, reps[i], st) else Quiet(st, Skipped)
  }

  /** The loop over the first n directives. */
  function Drive(f: Stepper, t: Tree, n: nat): State {
    if n == 0 then Initial(t)
    else
      var st := Drive(f, t, n - 1);
      Settle(st, n - 1, f(n - 1, st))
  }

  /** The state after the first n directives. */
  function RunTo(p: Platform, o: Options, ds: seq<Directive>, reps: seq<Reply>, t: Tree, n: nat): State
    requires n <= |ds| == |reps|
  {
    Drive(Stepping(p, o, ds, reps), t, n)
  }

  function RunAll(p: Platform, o: Options, ds: seq<Directive>, reps: seq<Reply>, t: Tree): State
    requires |ds| == |reps|
  {
    RunTo(p, o, ds, reps, t, |ds|)
  }

  predicate FullyApplied(st: State) {
    st.ledger.deferred == [] && st.ledger.tasks == []
  }

  // ----- Undoing a journal -----

  /** The lines a journal entry takes out again. */
  predicate Drops(e: Entry, l: string) {
    match e
    case Appended(_, line) => SameLine(l, line)
    case SetEnv(key) => StartsWith(l, key + "=")
    case _ => false
  }

  function Spares(e: Entry): string -> bool {
    l => !Drops(e, l)
  }

  function WithoutLines(t: Tree, path: Path, e: Entry): Tree {
    t[path := Join(Filter(Split(Read(t, path)), Spares(e)))]
  }

  /** None is the exception for a file that is not JSON any more. */
  function UndoOne(p: Platform, t: Tree, e: Entry): Option<Tree> {
    match e
    case Wrote(path) => Some(t - {path})
    case Appended(path, _) => Some(WithoutLines(t, path, e))
    case SetEnv(_) => Some(WithoutLines(t, ENV_FILE, e))
    case Merged(path, key, value, previous) =>
      (match ParseFile(p, t, path)
       case None => None
       case Some(JArr(elems)) =>
         var i := FindKey(elems, key, value);
         Some(WriteArray(p, t, path,
                         if i < 0 then elems
                         else if previous.Some? then elems[i := previous.value]
                         else elems[..i] + elems[i + 1..]))
       case Some(_) => Some(t))
    case Ran(_, _) => Some(t)
  }

  /** The journal played backwards. */
  function Undo(p: Platform, t: Tree, journal: seq<Entry>): Option<Tree>
    decreases |journal|
  {
    if journal == [] then Some(t)
    else
      match UndoOne(p, t, journal[|journal| - 1])
      case None => None
      case Some(u) => Undo(p, u, journal[..|journal| - 1])
  }

  method RemoveSkill(p: Platform, t: Tree, journal: seq<Entry>) returns (ok: bool, tree: Tree)
    ensures ok <==> Undo(p, t, journal).Some?
    ensures ok ==> Undo(p, t, journal) == Some(tree)
  {
    tree := t;
    var n := |journal|;
    assert journal[..n] == journal;
    while n > 0
      invariant 0 <= n <= |journal|
      invariant Undo(p, tree, journal[..n]) == Undo(p, t, journal)
    {
      assert journal[..n][..n - 1] == journal[..n - 1];
      match UndoOne(p, tree, journal[n - 1]) {
        case None => return false, tree;
        case Some(u) => tree := u;
      }
      n := n - 1;
    }
    ok := true;
  }
}
