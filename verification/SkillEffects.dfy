/**
 What the directives of nanoclaw/scripts/skill-apply.ts do: the text each of them leaves in a file,
 shows, runs or binds, told without the functions of the engine.
 */
module SkillEffects {
  import opened Wrappers
  import opened Text
  import opened References
  import opened Directives
  import opened SkillEngine
  import opened SkillUndo
  import opened SkillPlan
  import opened SkillStaticLimits
  import opened Substitution

  // ----- The first occurrence of a text -----

  /** s is `a`, the first occurrence of t, and `b`. */
  ghost predicate FirstOf(s: string, a: string, t: string, b: string) {
    s == a + t + b && forall p: nat | p < |a| :: !StandsAt(s, p, t)
  }

  lemma StandsBehind(s: string, p: nat, t: string)
    requires 0 < p <= |s|
    ensures StandsAt(s, p, t) <==> StandsAt(s[1..], p - 1, t)
  {
    var u, q := s[1..], p - 1;
    if p + |t| <= |s| {
      assert u[q..q + |t|] == s[p..p + |t|];
    }
  }

  lemma {:induction false} CutMeans(s: string, t: string)
    requires t != ""
    ensures var r := Cut(s, t);
            if r.1 then FirstOf(s, r.0, t, r.2) else forall p: nat | p <= |s| :: !StandsAt(s, p, t)
  {
    if |s| >= |t| && !(t <= s) {
      CutMeans(s[1..], t);
      var r := Cut(s[1..], t);
      forall p: nat | 0 < p <= |s|
        ensures StandsAt(s, p, t) <==> StandsAt(s[1..], p - 1, t)
      {
        StandsBehind(s, p, t);
      }
      assert !StandsAt(s, 0, t);
    }
  }

  lemma OneFirstOf(s: string, a: string, t: string, b: string, a': string, b': string)
    requires FirstOf(s, a, t, b) && FirstOf(s, a', t, b')
    ensures a == a' && b == b'
  {
    assert s[|a|..|a| + |t|] == t && s[|a'|..|a'| + |t|] == t;
    assert StandsAt(s, |a|, t) && StandsAt(s, |a'|, t);
    assert |a| == |a'|;
    assert a == s[..|a|] == a' && b == s[|a| + |t|..] == b';
  }

  lemma CutAtFirst(s: string, a: string, t: string, b: string)
    requires t != "" && FirstOf(s, a, t, b)
    ensures Cut(s, t) == (a, true, b)
  {
    CutMeans(s, t);
    assert s[|a|..|a| + |t|] == t && StandsAt(s, |a|, t);
    OneFirstOf(s, a, t, b, Cut(s, t).0, Cut(s, t).2);
  }

  /** Whether a line holds a text. */
  ghost predicate Holds(s: string, t: string) {
    exists p: nat :: p <= |s| && StandsAt(s, p, t)
  }

  lemma ContainsMeans(s: string, t: string)
    requires t != ""
    ensures Contains(s, t) <==> Holds(s, t)
  {
    CutMeans(s, t);
    var r := Cut(s, t);
    if r.1 {
      assert s[|r.0|..|r.0| + |t|] == t && StandsAt(s, |r.0|, t);
    }
  }

  // ----- Appended lines -----

  /** A text with one more line at its end. */
  predicate OneMore(s: string, line: string, u: string) {
    u == (if s == "" || s[|s| - 1] == '\n' then s else s + "\n") + line + "\n"
  }

  lemma AppendLineMeans(s: string, line: string)
    ensures OneMore(s, line, AppendLine(s, line))
  {
  }

  /** An append without a marker adds its line at the end of the target and changes nothing else. */
  lemma AppendWrites(d: Directive, i: nat, rep: Reply, w: Work)
    requires d.attrs.to.Some? && OrEmpty(d.attrs.at) == "" && i < |d.body| && rep.ioFails.None? && w.err.None?
    ensures var to, w' := d.attrs.to.value, AppendAt(d, i, rep, w);
            && to in w'.tree && OneMore(Read(w.tree, to), d.body[i], w'.tree[to])
            && w' == w.(tree := w.tree[to := w'.tree[to]], journal := w.journal + [Appended(to, d.body[i])])
  {
    AppendLineMeans(Read(w.tree, d.attrs.to.value), d.body[i]);
  }

  /** The first line that holds the closing marker. */
  ghost predicate MarkerAt(ls: seq<string>, close: string, k: nat) {
    k < |ls| && Holds(ls[k], close) && forall j: nat | j < k :: !Holds(ls[j], close)
  }

  lemma {:induction false} FindMarkerMeans(ls: seq<string>, close: string)
    requires close != ""
    ensures var k := FindMarker(ls, close);
            if k >= 0 then MarkerAt(ls, close, k) else forall j: nat | j < |ls| :: !Holds(ls[j], close)
  {
    if ls != [] {
      ContainsMeans(ls[0], close);
      if !Contains(ls[0], close) {
        FindMarkerMeans(ls[1..], close);
        assert forall j: nat | 0 < j < |ls| :: ls[j] == ls[1..][j - 1];
        assert forall j: nat | j < |ls| - 1 :: ls[1..][j] == ls[j + 1];
      }
    }
  }

  lemma OneMarker(ls: seq<string>, close: string, k: nat)
    requires close != "" && MarkerAt(ls, close, k)
    ensures FindMarker(ls, close) == k
  {
    FindMarkerMeans(ls, close);
  }

  lemma IndentedLike(l: string)
    ensures Indent(l) + TrimLeft(l) == l && AllBlank(Indent(l))
  {
    var n := |l| - |TrimLeft(l)|;
    TrimLeftIsEnd(l);
    IndentIsBlank(l);
    assert l == l[..n] + l[n..];
  }

  lemma SplitInserted(s: string, k: nat, line: string)
    requires k < |Split(s)| && OneLine(line)
    ensures var ls := Split(s); Split(InsertAt(s, k, line)) == ls[..k] + [Indent(ls[k]) + line] + ls[k..]
  {
    var ls := Split(s);
    SplitOneLine(s);
    IndentOneLine(ls[k]);
    StillOneLine(ls, k, Indent(ls[k]) + line);
    SplitJoin(ls[..k] + [Indent(ls[k]) + line] + ls[k..]);
  }

  lemma StillOneLine(ls: seq<string>, k: nat, line: string)
    requires k < |ls| && OneLine(line) && forall i | 0 <= i < |ls| :: OneLine(ls[i])
    ensures var more := ls[..k] + [line] + ls[k..]; forall i | 0 <= i < |more| :: OneLine(more[i])
  {
    var more := ls[..k] + [line] + ls[k..];
    assert forall j | 0 <= j < |more| :: more[j] == if j < k then ls[j] else if j == k then line else ls[j - 1];
  }

  /** With a marker, the line goes in front of the first line that holds it, indented like that line. */
  lemma AppendInserts(d: Directive, i: nat, rep: Reply, w: Work, k: nat)
    requires d.attrs.to.Some? && OrEmpty(d.attrs.at) != "" && i < |d.body| && rep.ioFails.None? && w.err.None? && OneLine(d.body[i])
    requires MarkerAt(Split(Read(w.tree, d.attrs.to.value)), "<<< " + d.attrs.at.value, k)
    ensures var to, w' := d.attrs.to.value, AppendAt(d, i, rep, w);
            var ls := Split(Read(w.tree, to));
            && w'.err.None? && to in w'.tree
            && Split(w'.tree[to]) == ls[..k] + [Indent(ls[k]) + d.body[i]] + ls[k..]
            && w' == w.(tree := w.tree[to := w'.tree[to]], journal := w.journal + [Appended(to, d.body[i])])
            && Indent(ls[k]) + TrimLeft(ls[k]) == ls[k] && AllBlank(Indent(ls[k]))
  {
    var to := d.attrs.to.value;
    var s := Read(w.tree, to);
    OneMarker(Split(s), "<<< " + d.attrs.at.value, k);
    SplitInserted(s, k, d.body[i]);
    IndentedLike(Split(s)[k]);
  }

  /** Without such a line nothing changes and the append fails. */
  lemma AppendNeedsMarker(d: Directive, i: nat, rep: Reply, w: Work)
    requires d.attrs.to.Some? && OrEmpty(d.attrs.at) != "" && i < |d.body| && rep.ioFails.None? && w.err.None?
    requires forall l <- Split(Read(w.tree, d.attrs.to.value)) :: !Holds(l, "<<< " + d.attrs.at.value)
    ensures var w' := AppendAt(d, i, rep, w); w'.err.Some? && w' == w.(err := w'.err)
  {
    var ls := Split(Read(w.tree, d.attrs.to.value));
    FindMarkerMeans(ls, "<<< " + d.attrs.at.value);
    assert forall j: nat | j < |ls| :: ls[j] in ls;
  }

  // ----- Env settings -----

  predicate SplitAt(entry: string, n: nat, key: string, value: string) {
    n < |entry| && entry[n] == '=' && '=' !in entry[..n] && key == Trim(entry[..n]) && value == Trim(entry[n + 1..])
  }

  /** An entry with its key and its value; without `=` all is the value, and all but its last character the key. */
  ghost predicate Entry(entry: string, key: string, value: string) {
    if '=' in entry then exists n: nat :: SplitAt(entry, n, key, value)
    else key == Trim(if entry == "" then "" else entry[..|entry| - 1]) && value == Trim(entry)
  }

  /** The status looks for the same key, and without `=` for the whole entry. */
  lemma EntryMeans(entry: string, key: string, value: string)
    requires Entry(entry, key, value)
    ensures EnvKey(entry) == key && EnvValue(entry) == value
    ensures StatusKey(entry) == if '=' in entry then key else value
  {
    if '=' in entry {
      var n: nat :| SplitAt(entry, n, key, value);
      FirstIndexOf(entry, '=', n);
    }
  }

  /** Some line sets the key to a visible value. */
  ghost predicate KeySet(s: string, key: string) {
    exists l, n: nat :: l in Split(s) && n < |l| && SetAt(l, n, key)
  }

  predicate SetAt(l: string, n: nat, key: string)
    requires n < |l|
  {
    && l[n] == '=' && '=' !in l[..n] && Trim(l[..n]) == key && IsIdent(key)
    && Trim(l[n + 1..]) != "" && forall c <- l[n + 1..] :: !IsTerminator(c)
  }

  lemma AssignsMeans(l: string, key: string)
    ensures Assigns(l, key) <==> exists n: nat :: n < |l| && SetAt(l, n, key)
  {
    var eq := IndexOf(l, '=');
    if Assigns(l, key) {
      assert SetAt(l, eq, key);
    }
    if n: nat :| n < |l| && SetAt(l, n, key) {
      FirstIndexOf(l, '=', n);
    }
  }

  lemma EnvKeySetMeans(t: Tree, key: string)
    ensures EnvKeySet(t, key) <==> KeySet(Read(t, ".env"), key)
  {
    hide Assigns, SetAt;
    var ls := Split(Read(t, ".env"));
    if EnvKeySet(t, key) {
      var i :| 0 <= i < |ls| && Assigns(ls[i], key);
      AssignsMeans(ls[i], key);
      var n: nat :| n < |ls[i]| && SetAt(ls[i], n, key);
      assert ls[i] in ls;
    }
    if KeySet(Read(t, ".env"), key) {
      var l, n: nat :| l in ls && n < |l| && SetAt(l, n, key);
      AssignsMeans(l, key);
      var i :| 0 <= i < |ls| && ls[i] == l;
      assert Assigns(ls[i], key);
    }
  }

  /**
   A setting whose key is not set yet becomes the last line of .env, with each reference in it
   replaced by its value; one whose key is set leaves the file alone.
   */
  lemma EnvSetWrites(d: Directive, i: nat, rep: Reply, w: Work, key: string, value: string, text: string)
    requires i < |d.body| && Entry(d.body[i], key, value) && Becomes(value, w.vars, text) && rep.ioFails.None?
    ensures var w' := EnvAt(d, i, rep, w);
            if KeySet(Read(w.tree, ".env"), key) then w' == w
            else
              && ".env" in w'.tree && OneMore(Read(w.tree, ".env"), key + "=" + text, w'.tree[".env"])
              && w' == w.(tree := w.tree[".env" := w'.tree[".env"]], journal := w.journal + [SetEnv(key)])
  {
    EntryMeans(d.body[i], key, value);
    SubstituteMeans(value, w.vars, text);
    EnvKeySetMeans(w.tree, key);
    AppendLineMeans(Read(w.tree, ".env"), key + "=" + text);
  }

  // ----- Merged elements -----

  /** An element of the array has the same scalar under the key. */
  ghost predicate HasElement(elems: seq<Json>, key: string, value: Json) {
    exists el :: el in elems && el.JObj? && key in el.fields && el.fields[key] == value
  }

  predicate Plainly(value: Json) {
    !value.JArr? && !value.JObj?
  }

  lemma FindKeyMeans(elems: seq<Json>, key: string, value: Json)
    requires Plainly(value)
    ensures FindKey(elems, key, Some(value)) >= 0 <==> HasElement(elems, key, value)
  {
    var i := FindKey(elems, key, Some(value));
    if i >= 0 {
      assert elems[i] in elems;
    }
    if HasElement(elems, key, value) {
      var el :| el in elems && el.JObj? && key in el.fields && el.fields[key] == value;
      var j :| 0 <= j < |elems| && elems[j] == el;
      assert KeyMatches(elems[j], key, Some(value));
    }
  }

  /** The text of a JSON file; an absent or empty one counts as the empty array. */
  function JsonText(t: Tree, f: Path): string {
    if f in t && t[f] != "" then t[f] else "[]"
  }

  /** An install appends the element to the array, unless one with the same key value is there. */
  lemma MergePushes(p: Platform, d: Directive, rep: Reply, w: Work, elems: seq<Json>, obj: Json, key: string)
    requires d.attrs.into.Some? && d.attrs.key == Some(key) && rep.ioFails.None?
    requires p.parse(Join(d.body)) == Some(obj) && obj.JObj? && key in obj.fields && Plainly(obj.fields[key])
    requires p.parse(JsonText(w.tree, d.attrs.into.value)) == Some(JArr(elems))
    ensures var into, w' := d.attrs.into.value, ApplyMerge(p, d, Install, rep, w);
            if HasElement(elems, key, obj.fields[key]) then w' == w
            else w' == w.(tree := w.tree[into := p.show(JArr(elems + [obj]))],
                          journal := w.journal + [Merged(into, key, Some(obj.fields[key]), None)])
  {
    FindKeyMeans(elems, key, obj.fields[key]);
  }

  /** A refresh puts the new element in the place of the first one with the same key value, and remembers that one. */
  lemma MergeReplaces(p: Platform, d: Directive, rep: Reply, w: Work, elems: seq<Json>, obj: Json, key: string, k: nat)
    requires d.attrs.into.Some? && d.attrs.key == Some(key) && rep.ioFails.None?
    requires p.parse(Join(d.body)) == Some(obj) && obj.JObj? && key in obj.fields && Plainly(obj.fields[key])
    requires p.parse(JsonText(w.tree, d.attrs.into.value)) == Some(JArr(elems)) && k < |elems|
    requires HasElement([elems[k]], key, obj.fields[key]) && !HasElement(elems[..k], key, obj.fields[key])
    ensures var into, w' := d.attrs.into.value, ApplyMerge(p, d, RefreshOnly, rep, w);
            if elems[k] == obj then w' == w
            else w' == w.(tree := w.tree[into := p.show(JArr(elems[k := obj]))],
                          journal := w.journal + [Merged(into, key, Some(obj.fields[key]), Some(elems[k]))])
  {
    FirstElement(elems, key, obj.fields[key], k);
  }

  lemma FirstElement(elems: seq<Json>, key: string, value: Json, k: nat)
    requires Plainly(value) && k < |elems| && HasElement([elems[k]], key, value) && !HasElement(elems[..k], key, value)
    ensures FindKey(elems, key, Some(value)) == k
  {
    var i := FindKey(elems, key, Some(value));
    assert KeyMatches(elems[k], key, Some(value));
    if 0 <= i < k {
      ElementBefore(elems, key, value, i, k);
    }
  }

  lemma ElementBefore(elems: seq<Json>, key: string, value: Json, i: nat, k: nat)
    requires Plainly(value) && i < k <= |elems| && KeyMatches(elems[i], key, Some(value))
    ensures HasElement(elems[..k], key, value)
  {
    assert elems[..k][i] == elems[i] && elems[i] in elems[..k];
  }

  /** A file that is no JSON array is left alone, and the merge fails. */
  lemma MergeNeedsArray(p: Platform, d: Directive, mode: Mode, rep: Reply, w: Work)
    requires d.attrs.into.Some? && rep.ioFails.None?
    requires var file := p.parse(JsonText(w.tree, d.attrs.into.value)); file.None? || !file.value.JArr?
    ensures var w' := ApplyMerge(p, d, mode, rep, w); w'.err.Some? && w' == w.(err := w'.err)
  {
  }

  // ----- Commands -----

  /** A command with its references replaced, its trimmed output bound to the captured name, and journaled as written. */
  lemma CommandRuns(p: Platform, d: Directive, i: nat, rep: Reply, w: Work, text: string, stdout: string)
    requires i < |d.body| && Becomes(d.body[i], w.vars, text) && i < |rep.commands| && rep.commands[i] == Out(stdout) && w.err.None?
    requires d.attrs.effect != Some(Check) && d.attrs.validate.None?
    requires d.attrs.capture.Some? ==> d.attrs.capture.value.Bare?
    ensures CommandAt(p, d, i, rep, w) ==
            w.(ran := w.ran + [text],
               journal := w.journal + [Ran(d.body[i], if d.attrs.effect == Some(External) then d.attrs.remove else None)],
               vars := if d.attrs.capture.Some? then w.vars[d.attrs.capture.value.v := Trim(stdout)] else w.vars)
  {
    SubstituteMeans(d.body[i], w.vars, text);
  }

  /** A check only runs. */
  lemma CheckRuns(p: Platform, d: Directive, i: nat, rep: Reply, w: Work, text: string, stdout: string)
    requires i < |d.body| && Becomes(d.body[i], w.vars, text) && i < |rep.commands| && rep.commands[i] == Out(stdout) && w.err.None?
    requires d.attrs.effect == Some(Check)
    ensures CommandAt(p, d, i, rep, w) == w.(ran := w.ran + [text])
  {
    SubstituteMeans(d.body[i], w.vars, text);
  }

  /** A captured value that misses its pattern is not bound. */
  lemma RefusedCapture(p: Platform, d: Directive, i: nat, rep: Reply, w: Work, text: string, stdout: string, re: string)
    requires i < |d.body| && Becomes(d.body[i], w.vars, text) && i < |rep.commands| && rep.commands[i] == Out(stdout) && w.err.None?
    requires d.attrs.effect != Some(Check) && d.attrs.capture.Some? && d.attrs.capture.value.Bare?
    requires d.attrs.validate == Some(re) && re != ""
    ensures var w' := CommandAt(p, d, i, rep, w);
            if p.regexOk(re, "") && p.matches(re, "", Trim(stdout))
            then w'.err.None? && w'.vars == w.vars[d.attrs.capture.value.v := Trim(stdout)]
            else w'.err.Some? && w'.vars == w.vars && w'.journal == w.journal
  {
    SubstituteMeans(d.body[i], w.vars, text);
  }

  /** A path of one name reads that field of an object. */
  lemma OneHop(p: Platform, fields: map<string, Json>, key: string)
    requires key != "" && '.' !in key
    ensures DotPath(p, JObj(fields), "." + key) ==
            if key in fields && fields[key] != JNull then p.toText(fields[key]) else ""
  {
    var path := "." + key;
    assert path[..0] == "" && path[1..] == key && IndexOf(path, '.') == 0;
    assert IndexOf(key, '.') < 0;
    assert PathKeys(path) == [] + PathKeys(key) == [key];
    var found := Field(JObj(fields), key);
    if found.Some? {
      assert [key][1..] == [] && Follow(p, found.value, []) == found;
    }
  }

  /** Dots go on into the objects below. */
  lemma NextHop(p: Platform, fields: map<string, Json>, key: string, rest: string)
    requires key != "" && '.' !in key && key in fields
    ensures DotPath(p, JObj(fields), key + "." + rest) == DotPath(p, fields[key], rest)
  {
    var path := key + "." + rest;
    PathSplits(key, rest);
    assert PathKeys(path)[1..] == PathKeys(rest);
  }

  lemma PathSplits(key: string, rest: string)
    requires key != "" && '.' !in key
    ensures PathKeys(key + "." + rest) == [key] + PathKeys(rest)
  {
    var path, n := key + "." + rest, |key|;
    assert path[..n] == key && path[n] == '.' && path[n + 1..] == rest;
    FirstIndexOf(path, '.', n);
  }

  lemma {:induction false} OtherCaptures(p: Platform, d: Directive, pairs: seq<Pair>, json: Json, vars: Vars, x: string)
    requires !NamesIt(pairs, x) && d.attrs.validate.None?
    ensures var (bound, err) := BindPairs(p, d, pairs, json, vars);
            err.None? && (x in bound <==> x in vars) && (x in vars ==> bound[x] == vars[x])
  {
    if pairs != [] {
      assert forall i | 0 <= i < |pairs| - 1 :: pairs[1..][i] == pairs[i + 1];
      assert pairs[0].Named? ==> pairs[0].v != x;
      OtherCaptures(p, d, pairs[1..], json, if pairs[0].Named? then vars[pairs[0].v := DotPath(p, json, pairs[0].path)] else vars, x);
    }
  }

  /** Each pair of a capture binds what its path finds in the output. */
  lemma {:induction false} CapturesBound(p: Platform, d: Directive, pairs: seq<Pair>, json: Json, vars: Vars, i: nat)
    requires i < |pairs| && pairs[i].Named? && DistinctNames(pairs) && d.attrs.validate.None?
    ensures var (bound, err) := BindPairs(p, d, pairs, json, vars);
            err.None? && pairs[i].v in bound && bound[pairs[i].v] == DotPath(p, json, pairs[i].path)
  {
    assert forall j | 0 <= j < |pairs| - 1 :: pairs[1..][j] == pairs[j + 1];
    var next := if pairs[0].Named? then vars[pairs[0].v := DotPath(p, json, pairs[0].path)] else vars;
    if i == 0 {
      assert !NamesIt(pairs[1..], pairs[0].v);
      OtherCaptures(p, d, pairs[1..], json, next, pairs[0].v);
    } else {
      CapturesBound(p, d, pairs[1..], json, next, i - 1);
    }
  }

  /** A command whose output is JSON binds each named field. */
  lemma JsonCommandRuns(p: Platform, d: Directive, i: nat, j: nat, rep: Reply, w: Work, text: string, stdout: string, json: Json, pairs: seq<Pair>)
    requires i < |d.body| && Becomes(d.body[i], w.vars, text) && i < |rep.commands| && rep.commands[i] == Out(stdout) && w.err.None?
    requires d.attrs.effect != Some(Check) && d.attrs.validate.None? && d.attrs.capture == Some(Pairs(pairs)) && DistinctNames(pairs)
    requires p.parse(Trim(stdout)) == Some(json) && j < |pairs| && pairs[j].Named?
    ensures var w' := CommandAt(p, d, i, rep, w);
            && w'.err.None? && w'.ran == w.ran + [text]
            && pairs[j].v in w'.vars && w'.vars[pairs[j].v] == DotPath(p, json, pairs[j].path)
  {
    SubstituteMeans(d.body[i], w.vars, text);
    CapturesBound(p, d, pairs, json, w.vars, j);
  }

  ghost predicate DistinctNames(pairs: seq<Pair>) {
    forall i, j | 0 <= i < j < |pairs| && pairs[i].Named? && pairs[j].Named? :: pairs[i].v != pairs[j].v
  }

  ghost predicate NamesIt(pairs: seq<Pair>, x: string) {
    exists i :: 0 <= i < |pairs| && pairs[i].Named? && pairs[i].v == x
  }

  lemma {:induction false} OtherFields(pairs: seq<Pair>, fields: map<string, string>, vars: Vars, x: string)
    requires !NamesIt(pairs, x)
    ensures x in BindFields(pairs, fields, vars) <==> x in vars
    ensures x in vars ==> BindFields(pairs, fields, vars)[x] == vars[x]
  {
    if pairs != [] {
      assert forall i | 0 <= i < |pairs| - 1 :: pairs[1..][i] == pairs[i + 1];
      assert pairs[0].Named? ==> pairs[0].v != x;
      match pairs[0]
      case Named(v, field) =>
        OtherFields(pairs[1..], fields, vars[v := Trim(if field in fields then fields[field] else "")], x);
      case _ => OtherFields(pairs[1..], fields, vars, x);
    }
  }

  /** Each pair of a step's capture binds the trimmed field, or nothing visible if it is missing. */
  lemma {:induction false} FieldsBound(pairs: seq<Pair>, fields: map<string, string>, vars: Vars, i: nat)
    requires i < |pairs| && pairs[i].Named? && DistinctNames(pairs)
    ensures var bound, x := BindFields(pairs, fields, vars), pairs[i].v;
            x in bound && bound[x] == if pairs[i].path in fields then Trim(fields[pairs[i].path]) else ""
  {
    assert forall j | 0 <= j < |pairs| - 1 :: pairs[1..][j] == pairs[j + 1];
    var next := match pairs[0]
      case Named(v, field) => vars[v := Trim(if field in fields then fields[field] else "")]
      case _ => vars;
    if i == 0 {
      assert !NamesIt(pairs[1..], pairs[0].v);
      OtherFields(pairs[1..], fields, next, pairs[0].v);
    } else {
      FieldsBound(pairs[1..], fields, next, i - 1);
    }
  }

  /** A step runs its joined body as one command; when it reports success its fields are bound. */
  lemma StepRuns(d: Directive, rep: Reply, w: Work, text: string, fields: map<string, string>, pairs: seq<Pair>)
    requires Becomes(Join(d.body), w.vars, text) && rep.step == StepDone(true, fields) && w.err.None?
    requires d.attrs.capture == Some(Pairs(pairs)) && DistinctNames(pairs)
    ensures var w' := ApplyStep(d, true, rep, w);
            && w'.err.None? && w'.ran == w.ran + [text] && w'.tree == w.tree && w'.journal == w.journal + [Ran(Join(d.body), None)]
            && (forall i | 0 <= i < |pairs| && pairs[i].Named? ::
                  && pairs[i].v in w'.vars
                  && w'.vars[pairs[i].v] == if pairs[i].path in fields then Trim(fields[pairs[i].path]) else "")
            && (forall x | !NamesIt(pairs, x) :: (x in w'.vars <==> x in w.vars) && (x in w.vars ==> w'.vars[x] == w.vars[x]))
  {
    SubstituteMeans(Join(d.body), w.vars, text);
    forall i | 0 <= i < |pairs| && pairs[i].Named?
      ensures var bound, x := BindFields(pairs, fields, w.vars), pairs[i].v;
              x in bound && bound[x] == if pairs[i].path in fields then Trim(fields[pairs[i].path]) else ""
    {
      FieldsBound(pairs, fields, w.vars, i);
    }
    forall x | !NamesIt(pairs, x)
      ensures x in BindFields(pairs, fields, w.vars) <==> x in w.vars
      ensures x in w.vars ==> BindFields(pairs, fields, w.vars)[x] == w.vars[x]
    {
      OtherFields(pairs, fields, w.vars, x);
    }
  }

  // ----- Operator blocks and prompts -----

  /** A block is shown as its joined lines, with each reference replaced by its value. */
  lemma BlockShows(o: Options, d: Directive, i: nat, rep: Reply, st: State, text: string)
    requires !st.blocked && Becomes(Join(d.body), st.vars, text) && rep.shown.None?
    ensures DoOperator(o, d, i, rep, st) ==
            Done(st.tree, st.vars, st.journal, [text], if o.consumer then [Shown(i)] else [], Applied)
  {
    SubstituteMeans(Join(d.body), st.vars, text);
  }

  /** A given input is bound to the asked name, whatever the resolver would say. */
  lemma InputBinds(p: Platform, o: Options, d: Directive, x: string, i: nat, rep: Reply, st: State)
    requires d.kind.Prompt? && d.args == [Name(x)] && x in o.inputs && d.attrs.validate.None? && d.attrs.guard.None? && o.mode.Install?
    ensures var v := o.inputs[x];
            var bound := match d.attrs.normalize
              case Some(TrimValue) => Trim(v)
              case Some(StripSlash) => StripSlashes(v)
              case Some(Lower) => p.lower(v)
              case _ => v;
            Handle(p, o, d, i, rep, st) == Done(st.tree, st.vars[x := bound], st.journal, [], [], Bound)
  {
  }

  /** The pattern of a prompt is put to the normalized value; one that misses it is not bound. */
  lemma InputChecked(p: Platform, o: Options, d: Directive, x: string, re: string, i: nat, rep: Reply, st: State)
    requires d.kind.Prompt? && d.args == [Name(x)] && x in o.inputs && d.attrs.guard.None? && o.mode.Install?
    requires d.attrs.validate == Some(re) && d.attrs.flags.None? && d.attrs.normalize == Some(TrimValue) && p.regexOk(re, "")
    ensures var bound := Trim(o.inputs[x]);
            Handle(p, o, d, i, rep, st) ==
            if p.matches(re, "", bound) then Done(st.tree, st.vars[x := bound], st.journal, [], [], Bound)
            else Done(st.tree, st.vars, st.journal, [], [], Deferred)
  {
  }

  /** Without a given input the resolver is asked; no answer defers. */
  lemma AnswerBinds(p: Platform, o: Options, d: Directive, x: string, i: nat, rep: Reply, st: State)
    requires d.kind.Prompt? && d.args == [Name(x)] && x !in o.inputs && d.attrs.guard.None? && o.mode.Install?
    requires d.attrs.validate.None? && d.attrs.normalize.None? && rep.input.Answered?
    ensures Handle(p, o, d, i, rep, st) ==
            if rep.input.value.Some? then Done(st.tree, st.vars[x := rep.input.value.value], st.journal, [], [], Bound)
            else Done(st.tree, st.vars, st.journal, [], [], Deferred)
  {
  }

  lemma {:induction false} StripMeans(s: string) returns (slashes: string)
    ensures s == StripSlashes(s) + slashes && forall c <- slashes :: c == '/'
    ensures StripSlashes(s) == "" || StripSlashes(s)[|StripSlashes(s)| - 1] != '/'
  {
    if s != "" && s[|s| - 1] == '/' {
      var rest := StripMeans(s[..|s| - 1]);
      slashes := rest + "/";
      assert s == s[..|s| - 1] + "/";
    } else {
      slashes := "";
    }
  }

  // ----- Copied files -----

  lemma {:induction false} ToCopyMeans(body: seq<string>, t: Tree, mode: Mode, f: Path)
    ensures f in ToCopy(body, t, mode) <==>
            (exists i :: 0 <= i < |body| && DestOf(body[i]) == f) && (mode.RefreshOnly? || f !in t)
  {
    if body != [] {
      ToCopyMeans(body[1..], t, mode, f);
      assert forall i | 1 <= i < |body| :: body[i] == body[1..][i - 1];
      assert forall i | 0 <= i < |body| - 1 :: body[1..][i] == body[i + 1];
    }
  }

  lemma {:induction false} WrittenPaths(t: Tree, dests: seq<Path>, rep: Reply, i: nat, f: Path)
    requires i <= |dests|
    ensures var u := WriteAll(t, dests, rep, i, |dests|);
            && (f in u <==> f in t || f in dests[i..])
            && (f in t && f !in dests[i..] ==> u[f] == t[f])
    decreases |dests| - i
  {
    if i < |dests| {
      WrittenPaths(t[dests[i] := ContentAt(rep, i)], dests, rep, i + 1, f);
      assert dests[i..] == [dests[i]] + dests[i + 1..];
    }
  }

  /** The destination of a copy line is the text behind its arrow, or the whole line. */
  lemma DestMeans(line: string, a: string, b: string)
    requires FirstOf(line, a, "->", b) && !Holds(b, "->")
    ensures DestOf(line) == Trim(b)
  {
    CutAtFirst(line, a, "->", b);
    ContainsMeans(b, "->");
  }

  lemma PlainDest(line: string)
    requires !Holds(line, "->")
    ensures DestOf(line) == Trim(line)
  {
    ContainsMeans(line, "->");
  }

  /** A copy block of an install creates exactly the destinations that are absent, and touches nothing else. */
  lemma CopyWrites(d: Directive, rep: Reply, w: Work, f: Path)
    requires rep.ioFails.None? && w.err.None?
    ensures var w' := ApplyCopy(d, Install, rep, w);
            var named := exists i :: 0 <= i < |d.body| && DestOf(d.body[i]) == f;
            && w'.err.None? && w'.vars == w.vars
            && (f in w'.tree <==> f in w.tree || named)
            && (f in w.tree ==> w'.tree[f] == w.tree[f])
            && w.journal <= w'.journal
            && (Wrote(f) in w'.journal[|w.journal|..] <==> named && f !in w.tree)
  {
    var dests := ToCopy(d.body, w.tree, Install);
    ToCopyMeans(d.body, w.tree, Install, f);
    WrittenPaths(w.tree, dests, rep, 0, f);
    assert dests[0..] == dests;
    var more := WroteEntries(dests);
    assert (w.journal + more)[|w.journal|..] == more;
    if f in dests {
      var k :| 0 <= k < |dests| && dests[k] == f;
      assert more[k] == Wrote(f);
    }
  }

  /** The copied content is the one that was read. */
  lemma CopyOne(d: Directive, line: string, rep: Reply, w: Work, content: string)
    requires d.body == [line] && DestOf(line) !in w.tree && rep.ioFails.None? && rep.contents == [content] && w.err.None?
    ensures ApplyCopy(d, Install, rep, w) ==
            w.(tree := w.tree[DestOf(line) := content], journal := w.journal + [Wrote(DestOf(line))])
  {
    var dests := ToCopy(d.body, w.tree, Install);
    assert d.body[0] == line && d.body[1..] == [] && ToCopy([], w.tree, Install) == [];
    assert dests == [DestOf(line)];
    var u := w.tree[DestOf(line) := content];
    assert WriteAll(u, dests, rep, 1, 1) == u;
    assert WroteEntries(dests) == [Wrote(DestOf(line))];
  }

  // ----- What is in place is skipped, and nothing else -----

  /** What the directive would do is in the files. */
  ghost predicate InPlace(p: Platform, d: Directive, t: Tree) {
    match d.kind
    case Copy => forall i | 0 <= i < |d.body| :: DestOf(d.body[i]) in t
    case Append =>
      exists l :: l in Split(Read(t, OrEmpty(d.attrs.to))) && Trim(l) == Trim(if d.body == [] then "" else d.body[0])
    case EnvSet => forall i | 0 <= i < |d.body| :: KeySet(Read(t, ".env"), StatusKey(d.body[i]))
    case _ => false
  }

  /** A copy, append or env-set is satisfied exactly when its files, line or keys are there. */
  lemma SatisfiedMeans(p: Platform, d: Directive, t: Tree)
    requires d.kind.Copy? || d.kind.Append? || d.kind.EnvSet?
    ensures Satisfied(p, d, t) <==> InPlace(p, d, t)
  {
    match d.kind
    case Copy => CopySatisfiedMeans(p, d, t);
    case Append =>
      var ls := Split(Read(t, OrEmpty(d.attrs.to)));
      if InPlace(p, d, t) {
        var l :| l in ls && Trim(l) == Trim(FirstLine(d));
        var i :| 0 <= i < |ls| && ls[i] == l;
        assert SameLine(ls[i], FirstLine(d));
      }
    case EnvSet =>
      forall i | 0 <= i < |d.body|
        ensures EnvKeySet(t, StatusKey(d.body[i])) <==> KeySet(Read(t, ".env"), StatusKey(d.body[i]))
      {
        EnvKeySetMeans(t, StatusKey(d.body[i]));
      }
  }

  lemma CopySatisfiedMeans(p: Platform, d: Directive, t: Tree)
    requires d.kind.Copy?
    ensures Satisfied(p, d, t) <==> forall i | 0 <= i < |d.body| :: DestOf(d.body[i]) in t
  {
    var dests := ToCopy(d.body, t, Install);
    if dests == [] {
      forall i | 0 <= i < |d.body|
        ensures DestOf(d.body[i]) in t
      {
        ToCopyMeans(d.body, t, Install, DestOf(d.body[i]));
      }
    } else {
      ToCopyMeans(d.body, t, Install, dests[0]);
    }
  }

  /** A merge is satisfied exactly when the array has an element with the same key value. */
  lemma MergeSatisfiedMeans(p: Platform, d: Directive, t: Tree, elems: seq<Json>, obj: Json, key: string)
    requires d.kind.JsonMerge? && d.attrs.into.Some? && d.attrs.key == Some(key)
    requires p.parse(Join(d.body)) == Some(obj) && obj.JObj? && key in obj.fields && Plainly(obj.fields[key])
    requires p.parse(JsonText(t, d.attrs.into.value)) == Some(JArr(elems))
    ensures Satisfied(p, d, t) <==> HasElement(elems, key, obj.fields[key])
  {
    FindKeyMeans(elems, key, obj.fields[key]);
  }

  // ----- The loop around them -----

  /** An unguarded directive of an install that is not in place is run, once, and counts as applied. */
  lemma DueRuns(p: Platform, o: Options, d: Directive, i: nat, rep: Reply, st: State, w: Work)
    requires o.mode.Install? && !o.consumer && d.attrs.guard.None? && o.skipEffects == {}
    requires (d.kind.Copy? || d.kind.Append? || d.kind.EnvSet?) && !InPlace(p, d, st.tree)
    requires w == ApplyOne(p, o, d, rep, WorkOf(st)) && w.err.None?
    ensures Handle(p, o, d, i, rep, st) == Done(w.tree, w.vars, w.journal, [], [], Applied)
  {
    SatisfiedMeans(p, d, st.tree);
  }

  /** A command is run whatever the files hold, unless an earlier failure gates its effect. */
  lemma CommandIsRun(p: Platform, o: Options, d: Directive, i: nat, rep: Reply, st: State, w: Work)
    requires o.mode.Install? && !o.consumer && d.attrs.guard.None? && o.skipEffects == {} && d.kind.RunCmd?
    requires st.blocked ==> d.attrs.effect.None? || d.attrs.effect.value in {Fetch, External, Check, Refresh}
    requires w == ApplyOne(p, o, d, rep, WorkOf(st)) && w.err.None?
    ensures Handle(p, o, d, i, rep, st) ==
            Done(w.tree, w.vars, w.journal, [], if w.ran != [] then [Executed(i, d.attrs.effect, w.ran)] else [], Applied)
  {
  }

  /** A body of one line is that line. */
  lemma OneLineApplies(p: Platform, o: Options, d: Directive, rep: Reply, w: Work)
    requires |d.body| == 1 && LineWise(d) && w.err.None?
    ensures ApplyOne(p, o, d, rep, w) == LineAt(p, d, 0, rep, w)
  {
    var f := Lining(p, d, rep);
    assert Each(f, 1, 1, f(0, w)) == f(0, w);
  }

  /** Text without braces in front of one reference. */
  lemma ReferenceBecomes(a: string, x: string, vars: Vars)
    requires '{' !in a && IsIdent(x) && x in vars
    ensures Becomes(a + Reference(x), vars, a + vars[x])
  {
    var m := Reference(x);
    assert Shape(m, 2, 2 + |x|, 2 + |x|) && m[2..2 + |x|] == x;
    forall p: nat | p < |a|
      ensures !MatchesAt(a + m, p)
    {
      assert (a + m)[p..][0] == a[p] && a[p] in a;
    }
    assert a + m == a + m + "" && First(a + m, a, m, x, "");
    assert FreeBefore("", 0) && Becomes("", vars, "");
    assert a + vars[x] == a + vars[x] + "";
  }

  function SetTo(key: string, x: string): Directive {
    Directive(EnvSet, [], PLAIN, [key + "=" + Reference(x)])
  }

  function Tell(text: string, x: string): Directive {
    Directive(Operator, [], PLAIN, [text + Reference(x)])
  }

  lemma SetToSets(p: Platform, o: Options, key: string, x: string, i: nat, rep: Reply, st: State)
    requires o.mode.Install? && !o.consumer && o.skipEffects == {} && rep.ioFails.None?
    requires IsIdent(key) && IsIdent(x) && x in st.vars && !KeySet(Read(st.tree, ".env"), key)
    ensures var r := Handle(p, o, SetTo(key, x), i, rep, st);
            && ".env" in r.tree && OneMore(Read(st.tree, ".env"), key + "=" + st.vars[x], r.tree[".env"])
            && r == Done(st.tree[".env" := r.tree[".env"]], st.vars, st.journal + [SetEnv(key)], [], [], Applied)
  {
    hide Becomes, Entry, KeySet, Handle, EnvAt, ApplyOne, InPlace, Reference;
    var d, w := SetTo(key, x), WorkOf(st);
    SetToMeans(p, key, x, st);
    EnvSetWrites(d, 0, rep, w, key, Reference(x), st.vars[x]);
    OneLineApplies(p, o, d, rep, w);
    DueRuns(p, o, d, i, rep, st, ApplyOne(p, o, d, rep, w));
  }

  lemma SetToMeans(p: Platform, key: string, x: string, st: State)
    requires IsIdent(key) && IsIdent(x) && x in st.vars
    ensures Entry(SetTo(key, x).body[0], key, Reference(x)) && Becomes(Reference(x), st.vars, st.vars[x])
    ensures InPlace(p, SetTo(key, x), st.tree) ==> KeySet(Read(st.tree, ".env"), key)
  {
    hide Becomes, KeySet, Entry, StatusKey, Reference, InPlace;
    var entry := SetTo(key, x).body[0];
    ReferenceTrimmed(x);
    EntryOf(key, Reference(x));
    EntryMeans(entry, key, Reference(x));
    SetToInPlace(p, key, x, st.tree);
    ReferenceBecomes("", x, st.vars);
    assert "" + Reference(x) == Reference(x) && "" + st.vars[x] == st.vars[x];
  }

  lemma ReferenceTrimmed(x: string)
    ensures Trimmed(Reference(x))
  {
  }

  lemma SetToInPlace(p: Platform, key: string, x: string, t: Tree)
    requires StatusKey(SetTo(key, x).body[0]) == key
    ensures InPlace(p, SetTo(key, x), t) ==> KeySet(Read(t, ".env"), key)
  {
    hide KeySet, StatusKey;
  }

  lemma EntryOf(key: string, value: string)
    requires IsIdent(key) && Trimmed(value)
    ensures Entry(key + "=" + value, key, value)
  {
    var entry, n := key + "=" + value, |key|;
    assert entry[..n] == key && entry[n] == '=' && entry[n + 1..] == value;
    IdentIsPlain(key);
    TrimOfTrimmed(key);
    TrimOfTrimmed(value);
    assert forall c <- key :: IsIdentPart(c);
    assert SplitAt(entry, n, key, value);
  }

  lemma TellShows(p: Platform, o: Options, text: string, x: string, i: nat, rep: Reply, st: State)
    requires o.mode.Install? && !o.consumer && !st.blocked && rep.shown.None?
    requires '{' !in text && IsIdent(x) && x in st.vars
    ensures Handle(p, o, Tell(text, x), i, rep, st) == Done(st.tree, st.vars, st.journal, [text + st.vars[x]], [], Applied)
  {
    ReferenceBecomes(text, x, st.vars);
    BlockShows(o, Tell(text, x), i, rep, st, text + st.vars[x]);
  }

  /**
   From the answer to the file and the screen: a prompt for x, a setting of a fresh key to it and a
   block that shows it leave the answer in .env and in the messages, undo journal included.
   */
  lemma AnswerReachesFile(p: Platform, o: Options, x: string, key: string, text: string, reps: seq<Reply>, t: Tree)
    requires o.mode.Install? && !o.consumer && o.skipEffects == {} && x in o.inputs && |reps| == 3
    requires reps[1].ioFails.None? && reps[2].shown.None?
    requires IsIdent(x) && IsIdent(key) && '{' !in text && !KeySet(Read(t, ".env"), key)
    ensures var st := RunAll(p, o, [Ask(x), SetTo(key, x), Tell(text, x)], reps, t);
            && ".env" in st.tree && OneMore(Read(t, ".env"), key + "=" + o.inputs[x], st.tree[".env"])
            && st.tree == t[".env" := st.tree[".env"]]
            && st.messages == [text + o.inputs[x]] && st.journal == [SetEnv(key)]
            && st.ledger == Ledger([1, 2], [], [], [], [0])
  {
    hide Handle, KeySet, OneMore, Reference;
    var ds := [Ask(x), SetTo(key, x), Tell(text, x)];
    var f := Stepping(p, o, ds, reps);
    var s0, s1, s2 := Drive(f, t, 0), Drive(f, t, 1), Drive(f, t, 2);
    AskRun(p, o, x, reps[0], s0, s1, t);
    SetToSets(p, o, key, x, 1, reps[1], s1);
    assert s2 == Settle(s1, 1, Handle(p, o, ds[1], 1, reps[1], s1));
    TellShows(p, o, text, x, 2, reps[2], s2);
    assert Drive(f, t, 3) == Settle(s2, 2, Handle(p, o, ds[2], 2, reps[2], s2));
  }

  lemma AskRun(p: Platform, o: Options, x: string, rep: Reply, st: State, next: State, t: Tree)
    requires o.mode.Install? && x in o.inputs && st == Initial(t) && next == Settle(st, 0, Handle(p, o, Ask(x), 0, rep, st))
    ensures next == State(t, map[x := o.inputs[x]], [], Ledger([], [], [], [], [0]), [], false, [])
  {
    InputBinds(p, o, Ask(x), x, 0, rep, st);
  }
}
