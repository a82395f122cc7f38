/**
 The plan and repeated installs. What a run does to the files only grows them, in a sense that
 every "already satisfied" test respects; so a directive that is satisfied stays satisfied, the
 plan's skips hold, and a second install changes nothing.
 */
module SkillPlan {
  import opened Wrappers
  import opened Text
  import opened References
  import opened Directives
  import opened SkillEngine
  import opened SkillRun
  import opened SkillStatic
  import opened SkillUndo

  /** The kinds whose state is read off the files alone. */
  predicate FileKind(d: Directive) {
    d.kind.Copy? || d.kind.Append? || d.kind.EnvSet? || d.kind.JsonMerge?
  }

  predicate Satisfied(p: Platform, d: Directive, t: Tree) {
    SelfStatus(p, d, t, Install).Skip?
  }

  // ----- Growing files -----

  predicate LinesStay(s: string, u: string) {
    forall l <- Split(s) :: l != "" ==> l in Split(u)
  }

  predicate ElemsStay(p: Platform, t: Tree, u: Tree, f: Path) {
    match ParseFile(p, t, f)
    case Some(JArr(elems)) =>
      elems != [] ==>
        ParseFile(p, u, f).Some? && ParseFile(p, u, f).value.JArr? && elems <= ParseFile(p, u, f).value.elems
    case _ => true
  }

  predicate PathGrows(p: Platform, ds: seq<Directive>, f: Path, t: Tree, u: Tree) {
    && (f in t ==> f in u)
    && (TextTarget(ds, f) ==> LinesStay(Read(t, f), Read(u, f)))
    && (JsonTarget(ds, f) ==> ElemsStay(p, t, u, f))
  }

  ghost predicate Grows(p: Platform, ds: seq<Directive>, t: Tree, u: Tree) {
    forall f :: PathGrows(p, ds, f, t, u)
  }

  lemma SameGrows(p: Platform, ds: seq<Directive>, f: Path, t: Tree, u: Tree)
    requires At(t, f) == At(u, f)
    ensures PathGrows(p, ds, f, t, u)
  {
  }

  lemma GrowsOn(p: Platform, ds: seq<Directive>, t: Tree, u: Tree, v: Tree)
    requires Grows(p, ds, t, u) && Grows(p, ds, u, v)
    ensures Grows(p, ds, t, v)
  {
    forall f
      ensures PathGrows(p, ds, f, t, v)
    {
      assert PathGrows(p, ds, f, t, u) && PathGrows(p, ds, f, u, v);
    }
  }

  // ----- Satisfied tests respect growth -----

  /** The attributes are given, and an append has a visible first line. */
  predicate WellFormed(d: Directive) {
    && (d.kind.Append? ==> d.attrs.to.Some? && d.body != [] && forall line <- d.body :: PlainLine(line))
    && (d.kind.JsonMerge? ==> d.attrs.into.Some? && d.attrs.key.Some?)
  }

  lemma HasLineStays(s: string, u: string, line: string)
    requires LinesStay(s, u) && Trim(line) != "" && HasLine(s, line)
    ensures HasLine(u, line)
  {
    var i :| 0 <= i < |Split(s)| && SameLine(Split(s)[i], line);
    assert Split(s)[i] in Split(s) && Split(s)[i] != "";
    var k :| 0 <= k < |Split(u)| && Split(u)[k] == Split(s)[i];
    assert SameLine(Split(u)[k], line);
  }

  lemma EnvKeyStays(t: Tree, u: Tree, key: string)
    requires LinesStay(Read(t, ENV_FILE), Read(u, ENV_FILE)) && EnvKeySet(t, key)
    ensures EnvKeySet(u, key)
  {
    var ls, ms := Split(Read(t, ENV_FILE)), Split(Read(u, ENV_FILE));
    var i :| 0 <= i < |ls| && Assigns(ls[i], key);
    assert ls[i] in ls && ls[i] != "";
    var k :| 0 <= k < |ms| && ms[k] == ls[i];
    assert Assigns(ms[k], key);
  }

  lemma {:induction false} CopyStays(body: seq<string>, t: Tree, u: Tree)
    requires forall f <- t :: f in u
    requires ToCopy(body, t, Install) == []
    ensures ToCopy(body, u, Install) == []
  {
    if body != [] {
      CopyStays(body[1..], t, u);
    }
  }

  lemma FoundStays(elems: seq<Json>, longer: seq<Json>, key: string, value: Option<Json>)
    requires elems <= longer && FindKey(elems, key, value) >= 0
    ensures FindKey(longer, key, value) >= 0
  {
    var i := FindKey(elems, key, value);
    assert longer[i] == elems[i];
  }

  lemma SatisfiedStays(p: Platform, ds: seq<Directive>, d: Directive, t: Tree, u: Tree)
    requires Grows(p, ds, t, u) && d in ds && FileKind(d) && WellFormed(d) && Satisfied(p, d, t)
    ensures Satisfied(p, d, u)
  {
    match d.kind
    case Copy =>
      forall f <- t
        ensures f in u
      {
        assert PathGrows(p, ds, f, t, u);
      }
      CopyStays(d.body, t, u);
    case Append =>
      var to := d.attrs.to.value;
      assert PathGrows(p, ds, to, t, u) && TextTarget(ds, to);
      assert d.body[0] in d.body;
      HasLineStays(Read(t, to), Read(u, to), FirstLine(d));
    case EnvSet =>
      assert PathGrows(p, ds, ENV_FILE, t, u) && TextTarget(ds, ENV_FILE);
      forall i | 0 <= i < |d.body|
        ensures EnvKeySet(u, StatusKey(d.body[i]))
      {
        EnvKeyStays(t, u, StatusKey(d.body[i]));
      }
    case JsonMerge =>
      var into := d.attrs.into.value;
      assert PathGrows(p, ds, into, t, u) && JsonTarget(ds, into);
      var value := MergeValue(p, d, d.attrs.key.value).value;
      var elems := ParseFile(p, t, into).value.elems;
      FoundStays(elems, ParseFile(p, u, into).value.elems, d.attrs.key.value, value);
  }

  // ----- Every directive of an install run grows the files -----

  /** The JSON library reads back what it writes, and "[]" as the empty array. */
  ghost predicate Faithful(p: Platform) {
    RoundTrips(p) && p.parse("[]") == Some(JArr([]))
  }

  lemma AppendGrows(s: string, line: string)
    ensures LinesStay(s, AppendLine(s, line))
    ensures forall l <- Split(line) :: l in Split(AppendLine(s, line))
  {
    SplitAppendLine(s, line);
    if Closed(s) {
      SplitClosed(s);
    }
  }

  lemma StaysIn(before: seq<string>, line: string, after: seq<string>)
    ensures line in before + [line] + after
    ensures forall l <- before + after :: l in before + [line] + after
  {
    assert (before + [line])[|before|] == line;
  }

  lemma InsertGrows(s: string, i: nat, line: string)
    requires i < |Split(s)| && OneLine(line)
    ensures LinesStay(s, InsertAt(s, i, line))
    ensures Indent(Split(s)[i]) + line in Split(InsertAt(s, i, line))
  {
    var ls := Split(s);
    InsertedLines(s, i, line);
    StaysIn(ls[..i], Indent(ls[i]) + line, ls[i..]);
    assert ls[..i] + ls[i..] == ls;
  }

  /** Only the text file f changed, and its lines stayed. */
  lemma TextFileGrows(p: Platform, ds: seq<Directive>, t: Tree, f: Path, s: string)
    requires !JsonTarget(ds, f) && LinesStay(Read(t, f), s)
    ensures Grows(p, ds, t, t[f := s])
  {
    var u := t[f := s];
    forall g
      ensures PathGrows(p, ds, g, t, u)
    {
      if g != f {
        SameGrows(p, ds, g, t, u);
      }
    }
  }

  lemma AppendAtGrows(p: Platform, ds: seq<Directive>, d: Directive, i: nat, rep: Reply, w: Work)
    requires Separate(ds) && d in ds && d.kind.Append? && i < |d.body| && OneLine(d.body[i])
    ensures var next := AppendAt(d, i, rep, w);
            && Grows(p, ds, w.tree, next.tree)
            && (next.journal != w.journal ==> HasLine(Read(next.tree, OrUndefined(d.attrs.to)), d.body[i]))
  {
    var line, to := d.body[i], OrUndefined(d.attrs.to);
    var next := AppendAt(d, i, rep, w);
    if next.journal == w.journal {
      assert next.tree == w.tree;
    } else {
      var s, u := Read(w.tree, to), Read(next.tree, to);
      assert TextTarget(ds, to);
      SeparateTarget(ds, to);
      if OrEmpty(d.attrs.at) == "" {
        AppendGrows(s, line);
        SplitPlain(line);
        assert line in Split(line);
        var k :| 0 <= k < |Split(u)| && Split(u)[k] == line;
        assert SameLine(Split(u)[k], line);
      } else {
        var m := FindMarker(Split(s), "<<< " + d.attrs.at.value);
        InsertGrows(s, m, line);
        IndentedIsSame(Split(s)[m], line);
        var k :| 0 <= k < |Split(u)| && Split(u)[k] == Indent(Split(s)[m]) + line;
        assert SameLine(Split(u)[k], line);
      }
      TextFileGrows(p, ds, w.tree, to, u);
      assert next.tree == w.tree[to := u];
    }
  }

  /** The line an env-set entry writes is one its own key test accepts. */
  predicate SoundEntry(line: string, vars: Vars) {
    && '=' in line && IsIdent(EnvKey(line))
    && var value := Substitute(EnvValue(line), vars);
       value.Ok? ==> Trim(value.value) != "" && forall c <- value.value :: !IsTerminator(c)
  }

  lemma IdentIsPlain(key: string)
    requires IsIdent(key)
    ensures Trim(key) == key && '=' !in key && OneLine(key)
  {
    TrimOfTrimmed(key);
  }

  lemma WrittenAssigns(key: string, value: string)
    requires IsIdent(key) && Trim(value) != "" && forall c <- value :: !IsTerminator(c)
    ensures Assigns(key + "=" + value, key) && OneLine(key + "=" + value)
  {
    var l := key + "=" + value;
    IdentIsPlain(key);
    assert l[|key|] == '=';
    assert l[..|key|] == key;
    assert IndexOf(l, '=') == |key|;
    assert l[|key| + 1..] == value;
  }

  lemma EnvAtWrites(d: Directive, i: nat, rep: Reply, w: Work) returns (line: string)
    requires i < |d.body|
    ensures var u := EnvAt(d, i, rep, w).tree;
            u == w.tree || u == w.tree[ENV_FILE := AppendLine(Read(w.tree, ENV_FILE), line)]
  {
    var value := Substitute(EnvValue(d.body[i]), w.vars);
    line := EnvKey(d.body[i]) + "=" + if value.Ok? then value.value else "";
  }

  lemma EnvAtGrows(p: Platform, ds: seq<Directive>, d: Directive, i: nat, rep: Reply, w: Work)
    requires Separate(ds) && d in ds && d.kind.EnvSet? && i < |d.body|
    ensures Grows(p, ds, w.tree, EnvAt(d, i, rep, w).tree)
  {
    var line := EnvAtWrites(d, i, rep, w);
    var s := Read(w.tree, ENV_FILE);
    TreeStays(p, ds, w.tree);
    AppendGrows(s, line);
    assert TextTarget(ds, ENV_FILE);
    SeparateTarget(ds, ENV_FILE);
    TextFileGrows(p, ds, w.tree, ENV_FILE, AppendLine(s, line));
  }

  /** An entry that ends well has its key set. */
  lemma EnvAtSets(d: Directive, i: nat, rep: Reply, w: Work)
    requires i < |d.body| && SoundEntry(d.body[i], w.vars) && w.err.None? && EnvAt(d, i, rep, w).err.None?
    ensures EnvKeySet(EnvAt(d, i, rep, w).tree, StatusKey(d.body[i]))
  {
    var key, next := EnvKey(d.body[i]), EnvAt(d, i, rep, w);
    assert StatusKey(d.body[i]) == key;
    if !EnvKeySet(w.tree, key) {
      var value := Substitute(EnvValue(d.body[i]), w.vars).value;
      var s, line := Read(w.tree, ENV_FILE), key + "=" + value;
      WrittenAssigns(key, value);
      AppendGrows(s, line);
      SplitPlain(line);
      assert line in Split(line);
      var ls := Split(AppendLine(s, line));
      var k :| 0 <= k < |ls| && ls[k] == line;
      assert Read(next.tree, ENV_FILE) == AppendLine(s, line);
      assert Assigns(Split(Read(next.tree, ENV_FILE))[k], key);
    }
  }

  lemma TreeStays(p: Platform, ds: seq<Directive>, t: Tree)
    ensures Grows(p, ds, t, t)
  {
    forall f
      ensures PathGrows(p, ds, f, t, t)
    {
      SameGrows(p, ds, f, t, t);
    }
  }

  predicate SoundEntries(d: Directive, vars: Vars) {
    d.kind.EnvSet? ==> forall line <- d.body :: SoundEntry(line, vars)
  }

  /** What body line j is for: the line is in its file, the key is set. */
  predicate LineDone(d: Directive, t: Tree, j: nat)
    requires j < |d.body|
  {
    && (d.kind.Append? ==> HasLine(Read(t, OrUndefined(d.attrs.to)), d.body[j]))
    && (d.kind.EnvSet? ==> EnvKeySet(t, StatusKey(d.body[j])))
  }

  lemma LineGrows(p: Platform, ds: seq<Directive>, d: Directive, i: nat, rep: Reply, w: Work)
    requires Separate(ds) && d in ds && LineWise(d) && i < |d.body| && WellFormed(d)
    ensures Grows(p, ds, w.tree, LineAt(p, d, i, rep, w).tree)
  {
    assert d.body[i] in d.body;
    match d.kind
    case Append => AppendAtGrows(p, ds, d, i, rep, w);
    case EnvSet => EnvAtGrows(p, ds, d, i, rep, w);
    case RunCmd =>
      assert CommandAt(p, d, i, rep, w).tree == w.tree;
      TreeStays(p, ds, w.tree);
  }

  /** A line that ends well is done. */
  lemma LineDoes(p: Platform, ds: seq<Directive>, d: Directive, i: nat, rep: Reply, w: Work)
    requires Separate(ds) && d in ds && LineWise(d) && i < |d.body| && w.err.None?
    requires WellFormed(d) && SoundEntries(d, w.vars)
    ensures var next := LineAt(p, d, i, rep, w);
            SoundEntries(d, next.vars) && (next.err.None? ==> LineDone(d, next.tree, i))
  {
    assert d.body[i] in d.body;
    match d.kind
    case Append =>
      AppendAtGrows(p, ds, d, i, rep, w);
      AppendRecords(d, i, rep, w);
    case EnvSet =>
      EnvAtKeepsVars(d, i, rep, w);
      if EnvAt(d, i, rep, w).err.None? {
        EnvAtSets(d, i, rep, w);
      }
    case RunCmd =>
  }

  lemma AppendRecords(d: Directive, i: nat, rep: Reply, w: Work)
    requires i < |d.body| && w.err.None?
    ensures AppendAt(d, i, rep, w).err.None? ==> |AppendAt(d, i, rep, w).journal| == |w.journal| + 1
  {
  }

  lemma LineStaysDone(p: Platform, ds: seq<Directive>, d: Directive, t: Tree, u: Tree, j: nat)
    requires Grows(p, ds, t, u) && d in ds && WellFormed(d) && j < |d.body| && LineDone(d, t, j)
    ensures LineDone(d, u, j)
  {
    if d.kind.Append? {
      var to := OrUndefined(d.attrs.to);
      assert TextTarget(ds, to) && PathGrows(p, ds, to, t, u);
      assert d.body[j] in d.body;
      HasLineStays(Read(t, to), Read(u, to), d.body[j]);
    } else if d.kind.EnvSet? {
      assert TextTarget(ds, ENV_FILE) && PathGrows(p, ds, ENV_FILE, t, u);
      EnvKeyStays(t, u, StatusKey(d.body[j]));
    }
  }

  lemma LinesGrow(p: Platform, ds: seq<Directive>, d: Directive, rep: Reply, w: Work)
    requires Separate(ds) && d in ds && LineWise(d) && WellFormed(d)
    ensures Grows(p, ds, w.tree, ApplyLines(p, d, 0, rep, w).tree)
  {
    var inv := (i: nat, v: Work) => Grows(p, ds, w.tree, v.tree);
    TreeStays(p, ds, w.tree);
    forall j: nat, v: Work | j < |d.body| && v.err.None? && inv(j, v)
      ensures inv(j + 1, LineAt(p, d, j, rep, v))
    {
      LineGrows(p, ds, d, j, rep, v);
      GrowsOn(p, ds, w.tree, v.tree, LineAt(p, d, j, rep, v).tree);
    }
    var k := LinesInduction(inv, p, d, rep, w);
  }

  /** Lines before i are done, unless one of them threw. */
  ghost predicate DoneTo(d: Directive, i: nat, w: Work) {
    && SoundEntries(d, w.vars)
    && (w.err.None? ==> forall j: nat | j < i && j < |d.body| :: LineDone(d, w.tree, j))
  }

  lemma LineDoesTo(p: Platform, ds: seq<Directive>, d: Directive, i: nat, rep: Reply, w: Work, next: Work)
    requires Separate(ds) && d in ds && LineWise(d) && i < |d.body| && WellFormed(d)
    requires w.err.None? && DoneTo(d, i, w) && next == LineAt(p, d, i, rep, w)
    ensures DoneTo(d, i + 1, next)
  {
    LineDoes(p, ds, d, i, rep, w);
    LineGrows(p, ds, d, i, rep, w);
    forall j: nat | j < i
      ensures LineDone(d, next.tree, j)
    {
      LineStaysDone(p, ds, d, w.tree, next.tree, j);
    }
  }

  lemma LinesDo(p: Platform, ds: seq<Directive>, d: Directive, rep: Reply, w: Work)
    requires Separate(ds) && d in ds && LineWise(d) && w.err.None? && WellFormed(d) && SoundEntries(d, w.vars)
    ensures DoneTo(d, |d.body|, ApplyLines(p, d, 0, rep, w))
  {
    var inv := (i: nat, v: Work) => i <= |d.body| && DoneTo(d, i, v);
    forall j: nat, v: Work | j < |d.body| && v.err.None? && inv(j, v)
      ensures inv(j + 1, LineAt(p, d, j, rep, v))
    {
      LineDoesTo(p, ds, d, j, rep, v, LineAt(p, d, j, rep, v));
    }
    var k := LinesInduction(inv, p, d, rep, w);
  }

  // ----- Copies and merges -----

  lemma {:induction false} CopyGrowsPath(t: Tree, dests: seq<Path>, rep: Reply, i: nat, stop: nat, f: Path)
    requires i <= |dests| && f !in dests
    ensures At(WriteAll(t, dests, rep, i, stop), f) == At(t, f)
    decreases |dests| - i
  {
    if i < |dests| && i != stop {
      assert dests[i] in dests;
      CopyGrowsPath(t[dests[i] := ContentAt(rep, i)], dests, rep, i + 1, stop, f);
    }
  }

  lemma CopyGrows(p: Platform, ds: seq<Directive>, d: Directive, rep: Reply, w: Work)
    requires Faithful(p) && w.err.None?
    ensures Grows(p, ds, w.tree, ApplyCopy(d, Install, rep, w).tree)
  {
    var dests, end := ToCopy(d.body, w.tree, Install), ApplyCopy(d, Install, rep, w);
    var stop := if rep.ioFails.Some? && rep.ioFails.value < |dests| then rep.ioFails.value else |dests|;
    CopiesOnlyAbsent(d.body, w.tree);
    forall f
      ensures PathGrows(p, ds, f, w.tree, end.tree)
    {
      if f in dests {
        assert f !in w.tree && Split(Read(w.tree, f)) == [""];
      } else {
        CopyGrowsPath(w.tree, dests, rep, 0, stop, f);
        SameGrows(p, ds, f, w.tree, end.tree);
      }
    }
  }

  lemma {:induction false} NothingToCopy(body: seq<string>, t: Tree, u: Tree, dests: seq<Path>)
    requires forall f <- t :: f in u
    requires forall f <- dests :: f in u
    requires forall f <- ToCopy(body, t, Install) :: f in dests
    ensures ToCopy(body, u, Install) == []
  {
    if body != [] {
      var dest := DestOf(body[0]);
      assert forall f <- ToCopy(body[1..], t, Install) :: f in ToCopy(body, t, Install);
      assert dest !in t ==> dest == ToCopy(body, t, Install)[0];
      NothingToCopy(body[1..], t, u, dests);
    }
  }

  lemma CopySatisfies(p: Platform, ds: seq<Directive>, d: Directive, rep: Reply, w: Work)
    requires d.kind.Copy? && Faithful(p) && w.err.None? && ApplyCopy(d, Install, rep, w).err.None?
    ensures Satisfied(p, d, ApplyCopy(d, Install, rep, w).tree)
  {
    var dests, end := ToCopy(d.body, w.tree, Install), ApplyCopy(d, Install, rep, w);
    CopyGrows(p, ds, d, rep, w);
    forall f | f in w.tree || f in dests
      ensures f in end.tree
    {
      assert PathGrows(p, ds, f, w.tree, end.tree);
      WroteAt(w.tree, dests, rep, 0, f);
      assert dests[0..] == dests;
    }
    NothingToCopy(d.body, w.tree, end.tree, dests);
  }

  lemma MergeGrows(p: Platform, ds: seq<Directive>, d: Directive, rep: Reply, w: Work)
    requires Faithful(p) && Separate(ds) && d in ds && d.kind.JsonMerge? && WellFormed(d)
    ensures Grows(p, ds, w.tree, ApplyMerge(p, d, Install, rep, w).tree)
  {
    var into, end := d.attrs.into.value, ApplyMerge(p, d, Install, rep, w);
    if end.journal == w.journal {
      assert end.tree == w.tree;
      TreeStays(p, ds, w.tree);
    } else {
      var longer := ParseFile(p, w.tree, into).value.elems + [MergeBody(p, d).value];
      assert end.tree == w.tree[into := p.show(JArr(longer))];
      assert ParseFile(p, end.tree, into) == Some(JArr(longer));
      forall f
        ensures PathGrows(p, ds, f, w.tree, end.tree)
      {
        if f != into {
          SameGrows(p, ds, f, w.tree, end.tree);
        }
      }
    }
  }

  lemma MergeSatisfies(p: Platform, d: Directive, rep: Reply, w: Work)
    requires Faithful(p) && d.kind.JsonMerge? && WellFormed(d) && Findable(p, d) && w.err.None?
    requires ApplyMerge(p, d, Install, rep, w).err.None?
    ensures Satisfied(p, d, ApplyMerge(p, d, Install, rep, w).tree)
  {
    var into, key := d.attrs.into.value, d.attrs.key.value;
    var end := ApplyMerge(p, d, Install, rep, w);
    if end.journal == w.journal {
      assert end.tree == w.tree;
    } else {
      var obj, value := MergeBody(p, d).value, MergeValue(p, d, key).value;
      var elems := ParseFile(p, w.tree, into).value.elems;
      var longer := elems + [obj];
      assert end.tree == w.tree[into := p.show(JArr(longer))];
      assert ParseFile(p, end.tree, into) == Some(JArr(longer));
      assert longer[|elems|] == obj && KeyMatches(obj, key, value);
    }
  }

  // ----- Directives and runs -----

  /** An install that can only grow its files. */
  ghost predicate Growing(p: Platform, o: Options, ds: seq<Directive>) {
    o.mode.Install? && Faithful(p) && Separate(ds) && forall d <- ds :: WellFormed(d)
  }

  /** What it adds can be recognized again. */
  ghost predicate Stable(p: Platform, o: Options, ds: seq<Directive>) {
    Growing(p, o, ds) && forall d <- ds :: d.kind.JsonMerge? ==> Findable(p, d)
  }

  lemma ApplyGrows(p: Platform, o: Options, ds: seq<Directive>, d: Directive, rep: Reply, w: Work)
    requires Growing(p, o, ds) && d in ds && w.err.None?
    ensures Grows(p, ds, w.tree, ApplyOne(p, o, d, rep, w).tree)
  {
    if d.kind.Append? || d.kind.EnvSet? {
      LinesGrow(p, ds, d, rep, w);
    } else if d.kind.Copy? {
      CopyGrows(p, ds, d, rep, w);
    } else if d.kind.JsonMerge? {
      MergeGrows(p, ds, d, rep, w);
    } else {
      if LineWise(d) {
        CommandsKeepTree(p, d, rep, w);
      }
      assert ApplyOne(p, o, d, rep, w).tree == w.tree;
      TreeStays(p, ds, w.tree);
    }
  }

  lemma ApplySatisfies(p: Platform, o: Options, ds: seq<Directive>, d: Directive, rep: Reply, w: Work)
    requires Stable(p, o, ds) && d in ds && FileKind(d) && w.err.None? && SoundEntries(d, w.vars)
    requires ApplyOne(p, o, d, rep, w).err.None?
    ensures Satisfied(p, d, ApplyOne(p, o, d, rep, w).tree)
  {
    var end := ApplyOne(p, o, d, rep, w);
    if d.kind.Append? || d.kind.EnvSet? {
      LinesDo(p, ds, d, rep, w);
      forall j: nat | j < |d.body|
        ensures d.kind.EnvSet? ==> EnvKeySet(end.tree, StatusKey(d.body[j]))
      {
        assert LineDone(d, end.tree, j);
      }
      assert d.kind.Append? ==> LineDone(d, end.tree, 0);
    } else if d.kind.Copy? {
      CopySatisfies(p, ds, d, rep, w);
    } else {
      MergeSatisfies(p, d, rep, w);
    }
  }

  lemma CommandsKeepTree(p: Platform, d: Directive, rep: Reply, w: Work)
    requires d.kind.RunCmd? && LineWise(d)
    ensures ApplyLines(p, d, 0, rep, w).tree == w.tree
  {
    var inv := (i: nat, v: Work) => v.tree == w.tree;
    forall j: nat, v: Work | j < |d.body| && v.err.None? && inv(j, v)
      ensures inv(j + 1, LineAt(p, d, j, rep, v))
    {
      assert CommandAt(p, d, j, rep, v).tree == v.tree;
    }
    var k := LinesInduction(inv, p, d, rep, w);
  }

  /** One step grows the files, and skips what is satisfied. */
  ghost predicate Steady(p: Platform, ds: seq<Directive>, d: Directive, st: State, r: Done) {
    && Grows(p, ds, st.tree, r.tree)
    && (FileKind(d) && Satisfied(p, d, st.tree) ==> r.verdict == Skipped && r.tree == st.tree)
  }

  /** It also satisfies a directive that it applies, or comes to without a guard and settles. */
  ghost predicate Good(p: Platform, ds: seq<Directive>, d: Directive, st: State, r: Done) {
    && Steady(p, ds, d, st, r)
    && (FileKind(d) && (r.verdict.Applied? || (d.attrs.guard.None? && !r.verdict.Deferred? && !r.verdict.Task?)) ==>
          Satisfied(p, d, r.tree))
  }

  lemma SatisfiedIsSkipped(p: Platform, o: Options, d: Directive, i: nat, rep: Reply, st: State)
    requires o.mode.Install? && FileKind(d) && Satisfied(p, d, st.tree)
    ensures Handle(p, o, d, i, rep, st) == Quiet(st, Skipped)
  {
  }

  lemma SettledIsSatisfied(p: Platform, o: Options, d: Directive, i: nat, rep: Reply, st: State, w: Work)
    requires o.mode.Install? && FileKind(d)
    ensures var r := HandleWith(p, o, d, i, rep, st, w);
            r.verdict.Applied? || (d.attrs.guard.None? && !r.verdict.Deferred? && !r.verdict.Task?) ==>
              || (Satisfied(p, d, st.tree) && r.tree == st.tree)
              || (w.err.None? && r.tree == w.tree)
  {
    hide SelfStatus;
  }

  lemma HandleSteady(p: Platform, o: Options, ds: seq<Directive>, d: Directive, i: nat, rep: Reply, st: State)
    requires Growing(p, o, ds) && d in ds
    ensures Steady(p, ds, d, st, Handle(p, o, d, i, rep, st))
  {
    ApplyGrows(p, o, ds, d, rep, WorkOf(st));
    HandleFiles(p, o, d, i, rep, st, ApplyOne(p, o, d, rep, WorkOf(st)));
    TreeStays(p, ds, st.tree);
    if FileKind(d) && Satisfied(p, d, st.tree) {
      SatisfiedIsSkipped(p, o, d, i, rep, st);
    }
  }

  lemma HandleGood(p: Platform, o: Options, ds: seq<Directive>, d: Directive, i: nat, rep: Reply, st: State)
    requires Stable(p, o, ds) && d in ds && SoundEntries(d, st.vars)
    ensures Good(p, ds, d, st, Handle(p, o, d, i, rep, st))
  {
    HandleSteady(p, o, ds, d, i, rep, st);
    if FileKind(d) {
      var w := ApplyOne(p, o, d, rep, WorkOf(st));
      SettledIsSatisfied(p, o, d, i, rep, st, w);
      if w.err.None? {
        ApplySatisfies(p, o, ds, d, rep, WorkOf(st));
      }
    }
  }

  /** Each env-set entry of the run would write a line its own key test accepts. */
  ghost predicate SoundRun(p: Platform, o: Options, ds: seq<Directive>, reps: seq<Reply>, t: Tree) {
    && |ds| == |reps| && Stable(p, o, ds)
    && forall i: nat | i < |ds| :: SoundEntries(ds[i], RunTo(p, o, ds, reps, t, i).vars)
  }

  /** One step of such a run, as the results below see it. */
  lemma StepGood(p: Platform, o: Options, ds: seq<Directive>, reps: seq<Reply>, t: Tree, i: nat, st: State, next: State)
    returns (r: Done)
    requires SoundRun(p, o, ds, reps, t) && i < |ds| && st == RunTo(p, o, ds, reps, t, i)
    requires next == Settle(st, i, Handle(p, o, ds[i], i, reps[i], st))
    ensures next == Settle(st, i, r) && Good(p, ds, ds[i], st, r)
  {
    r := Handle(p, o, ds[i], i, reps[i], st);
    assert SoundEntries(ds[i], RunTo(p, o, ds, reps, t, i).vars);
    HandleGood(p, o, ds, ds[i], i, reps[i], st);
  }

  // ----- The plan's skips hold -----

  ghost predicate Planned(p: Platform, ds: seq<Directive>, i: nat, n: nat, st: State)
    requires i < |ds|
  {
    Satisfied(p, ds[i], st.tree) && (i < n ==> i in st.ledger.skipped)
  }

  lemma StepPlanned(p: Platform, ds: seq<Directive>, i: nat, n: nat, st: State, r: Done, next: State)
    requires i < |ds| && n < |ds| && FileKind(ds[i]) && WellFormed(ds[i])
    requires Planned(p, ds, i, n, st) && Steady(p, ds, ds[n], st, r) && next == Settle(st, n, r)
    ensures Planned(p, ds, i, n + 1, next)
  {
    SatisfiedStays(p, ds, ds[i], st.tree, r.tree);
    PutKeeps(st.ledger, n, r.verdict, i);
  }

  lemma RunPlanned(p: Platform, o: Options, ds: seq<Directive>, reps: seq<Reply>, t: Tree, i: nat)
    requires Growing(p, o, ds) && i < |ds| == |reps| && FileKind(ds[i]) && Satisfied(p, ds[i], t)
    ensures Planned(p, ds, i, |ds|, RunAll(p, o, ds, reps, t))
  {
    var f := Stepping(p, o, ds, reps);
    var inv := (n: nat, st: State) => Planned(p, ds, i, n, st);
    assert WellFormed(ds[i]);
    forall n: nat | n < |ds| && inv(n, Drive(f, t, n))
      ensures inv(n + 1, Drive(f, t, n + 1))
    {
      var st := Drive(f, t, n);
      HandleSteady(p, o, ds, ds[n], n, reps[n], st);
      StepPlanned(p, ds, i, n, st, Handle(p, o, ds[n], n, reps[n], st), Drive(f, t, n + 1));
    }
    DriveInduction(inv, f, t, |ds|);
  }

  lemma SkippedNotApplied(l: Ledger, n: nat, i: nat)
    requires Accounted(l, n) && i < n && i in l.skipped
    ensures i !in l.applied
  {
    assert Places(l, i) == 1;
  }

  /** What the plan marks "skip" before an install run, that run does not apply. */
  lemma PlanSkipHolds(p: Platform, o: Options, ds: seq<Directive>, reps: seq<Reply>, t: Tree, i: nat)
    requires Growing(p, o, ds) && i < |ds| == |reps| && FileKind(ds[i]) && Satisfied(p, ds[i], t)
    ensures var l := RunAll(p, o, ds, reps, t).ledger; i in l.skipped && i !in l.applied
  {
    RunPlanned(p, o, ds, reps, t, i);
    EachDirectiveOnce(p, o, ds, reps, t, |ds|);
    SkippedNotApplied(RunAll(p, o, ds, reps, t).ledger, |ds|, i);
  }

  // ----- A second run -----

  /** A directive that was applied, or has no guard and was neither deferred nor bounced, is satisfied by now. */
  ghost predicate AccomplishedAt(p: Platform, d: Directive, j: nat, st: State) {
    FileKind(d)
    && (j in st.ledger.applied || (d.attrs.guard.None? && j !in st.ledger.deferred && j !in st.ledger.tasks)) ==>
      Satisfied(p, d, st.tree)
  }

  ghost predicate Accomplished(p: Platform, ds: seq<Directive>, n: nat, st: State)
    requires n <= |ds|
  {
    forall j: nat | j < n :: AccomplishedAt(p, ds[j], j, st)
  }

  lemma NowAccomplished(p: Platform, ds: seq<Directive>, d: Directive, n: nat, st: State, r: Done, next: State)
    requires Good(p, ds, d, st, r) && next == Settle(st, n, r) && UpTo(st.ledger.applied, n)
    ensures AccomplishedAt(p, d, n, next)
  {
    PutKeeps(st.ledger, n, r.verdict, n);
  }

  lemma StillAccomplished(p: Platform, ds: seq<Directive>, d: Directive, j: nat, n: nat, st: State, r: Done, next: State)
    requires d in ds && WellFormed(d) && AccomplishedAt(p, d, j, st) && j != n
    requires Grows(p, ds, st.tree, r.tree) && next == Settle(st, n, r)
    ensures AccomplishedAt(p, d, j, next)
  {
    PutKeeps(st.ledger, n, r.verdict, j);
    if FileKind(d) && Satisfied(p, d, st.tree) {
      SatisfiedStays(p, ds, d, st.tree, r.tree);
    }
  }

  lemma StepAccomplished(p: Platform, ds: seq<Directive>, n: nat, st: State, r: Done, next: State)
    requires n < |ds| && forall d <- ds :: WellFormed(d)
    requires Accomplished(p, ds, n, st) && Good(p, ds, ds[n], st, r) && next == Settle(st, n, r)
    requires UpTo(st.ledger.applied, n)
    ensures Accomplished(p, ds, n + 1, next)
  {
    forall j: nat | j < n + 1
      ensures AccomplishedAt(p, ds[j], j, next)
    {
      if j == n {
        NowAccomplished(p, ds, ds[n], n, st, r, next);
      } else {
        StillAccomplished(p, ds, ds[j], j, n, st, r, next);
      }
    }
  }

  lemma RunAccomplishes(p: Platform, o: Options, ds: seq<Directive>, reps: seq<Reply>, t: Tree)
    requires SoundRun(p, o, ds, reps, t)
    ensures Accomplished(p, ds, |ds|, RunAll(p, o, ds, reps, t))
  {
    var f := Stepping(p, o, ds, reps);
    var inv := (n: nat, st: State) => n <= |ds| && Accomplished(p, ds, n, st);
    forall n: nat | n < |ds| && inv(n, Drive(f, t, n))
      ensures inv(n + 1, Drive(f, t, n + 1))
    {
      var r := StepGood(p, o, ds, reps, t, n, Drive(f, t, n), Drive(f, t, n + 1));
      EachDirectiveOnce(p, o, ds, reps, t, n);
      StepAccomplished(p, ds, n, Drive(f, t, n), r, Drive(f, t, n + 1));
    }
    DriveInduction(inv, f, t, |ds|);
  }

  ghost predicate Idle(ds: seq<Directive>, t: Tree, n: nat, st: State)
    requires n <= |ds|
  {
    st.tree == t && forall j: nat | j < n && FileKind(ds[j]) :: j in st.ledger.skipped
  }

  lemma OtherKindsKeepTree(p: Platform, o: Options, d: Directive, i: nat, rep: Reply, st: State)
    requires !FileKind(d)
    ensures Handle(p, o, d, i, rep, st).tree == st.tree
  {
    if d.kind.RunCmd? && LineWise(d) {
      CommandsKeepTree(p, d, rep, WorkOf(st));
    }
    HandleFiles(p, o, d, i, rep, st, ApplyOne(p, o, d, rep, WorkOf(st)));
  }

  lemma StepIdle(p: Platform, o: Options, ds: seq<Directive>, t: Tree, n: nat, rep: Reply, st: State, next: State)
    requires n < |ds| && o.mode.Install? && Idle(ds, t, n, st)
    requires FileKind(ds[n]) ==> Satisfied(p, ds[n], t)
    requires next == Settle(st, n, Handle(p, o, ds[n], n, rep, st))
    ensures Idle(ds, t, n + 1, next)
  {
    var r := Handle(p, o, ds[n], n, rep, st);
    if FileKind(ds[n]) {
      SatisfiedIsSkipped(p, o, ds[n], n, rep, st);
    } else {
      OtherKindsKeepTree(p, o, ds[n], n, rep, st);
    }
    forall j: nat | j < n + 1 && FileKind(ds[j])
      ensures j in next.ledger.skipped
    {
      PutKeeps(st.ledger, n, r.verdict, j);
    }
  }

  /** Installing where everything is satisfied skips every file directive and changes no file. */
  lemma SatisfiedRunIsIdle(p: Platform, o: Options, ds: seq<Directive>, reps: seq<Reply>, t: Tree)
    requires |ds| == |reps| && o.mode.Install?
    requires forall j: nat | j < |ds| && FileKind(ds[j]) :: Satisfied(p, ds[j], t)
    ensures Idle(ds, t, |ds|, RunAll(p, o, ds, reps, t))
  {
    var f := Stepping(p, o, ds, reps);
    var inv := (n: nat, st: State) => n <= |ds| && Idle(ds, t, n, st);
    forall n: nat | n < |ds| && inv(n, Drive(f, t, n))
      ensures inv(n + 1, Drive(f, t, n + 1))
    {
      StepIdle(p, o, ds, t, n, reps[n], Drive(f, t, n), Drive(f, t, n + 1));
    }
    DriveInduction(inv, f, t, |ds|);
  }

  /**
   Idempotence: after an install run that fully applied a skill, and applied each of its file
   directives that has a guard, any second install run skips all file directives and leaves the
   files as they are.
   */
  lemma SecondRunChangesNothing(p: Platform, o: Options, o2: Options, ds: seq<Directive>, reps: seq<Reply>, reps2: seq<Reply>, t: Tree)
    requires SoundRun(p, o, ds, reps, t) && |reps2| == |ds| && o2.mode.Install?
    requires FullyApplied(RunAll(p, o, ds, reps, t))
    requires forall j: nat | j < |ds| && FileKind(ds[j]) ::
               ds[j].attrs.guard.None? || j in RunAll(p, o, ds, reps, t).ledger.applied
    ensures var first := RunAll(p, o, ds, reps, t);
            var second := RunAll(p, o2, ds, reps2, first.tree);
            && second.tree == first.tree
            && forall j: nat | j < |ds| && FileKind(ds[j]) :: j in second.ledger.skipped
  {
    var first := RunAll(p, o, ds, reps, t);
    RunAccomplishes(p, o, ds, reps, t);
    forall j: nat | j < |ds| && FileKind(ds[j])
      ensures Satisfied(p, ds[j], first.tree)
    {
      assert ds[j] in ds && AccomplishedAt(p, ds[j], j, first);
    }
    SatisfiedRunIsIdle(p, o2, ds, reps2, first.tree);
  }

  // ----- planSkill -----

  datatype PlanStatus = PlanSkip | PlanApply | PlanNeedsInput | PlanAgent

  function FromStatus(status: Status): PlanStatus {
    match status
    case Skip => PlanSkip
    case Apply => PlanApply
    case Agent => PlanAgent
  }

  predicate Consumes(ds: seq<Directive>, j: nat, v: string) {
    j < |ds| && v in ReferencedVars(ds[j])
  }

  /** A prompt is planned away when it has consumers and each of them is satisfied. */
  predicate ConsumersSatisfied(p: Platform, ds: seq<Directive>, t: Tree, v: string) {
    && (exists j :: 0 <= j < |ds| && Consumes(ds, j, v))
    && (forall j | 0 <= j < |ds| && Consumes(ds, j, v) :: Satisfied(p, ds[j], t))
  }

  predicate Consumer(m: map<string, seq<nat>>, v: string, j: nat) {
    v in m && j in m[v]
  }

  function WithConsumer(m: map<string, seq<nat>>, v: string, j: nat): map<string, seq<nat>> {
    m[v := (if v in m then m[v] else []) + [j]]
  }

  lemma ConsumerAdded(m: map<string, seq<nat>>, v: string, j: nat)
    ensures forall w, k: nat :: Consumer(WithConsumer(m, v, j), w, k) <==> Consumer(m, w, k) || (w == v && k == j)
    ensures (forall w <- m :: m[w] != []) ==> forall w <- WithConsumer(m, v, j) :: WithConsumer(m, v, j)[w] != []
  {
    var earlier := if v in m then m[v] else [];
    assert (earlier + [j])[|earlier|] == j;
  }

  /** Add directive j as a consumer of every name its body references. */
  method CollectConsumers(d: Directive, j: nat, m: map<string, seq<nat>>) returns (next: map<string, seq<nat>>)
    requires forall w <- m :: m[w] != []
    ensures forall w <- next :: next[w] != []
    ensures forall w, k: nat :: Consumer(next, w, k) <==> Consumer(m, w, k) || (k == j && w in ReferencedVars(d))
  {
    next := m;
    for a := 0 to |d.body|
      invariant forall w <- next :: next[w] != []
      invariant forall w, k: nat :: Consumer(next, w, k) <==>
                  Consumer(m, w, k) || (k == j && exists x :: 0 <= x < a && w in Names(d.body[x]))
    {
      ghost var before := next;
      var names := NamesIn(d.body[a]);
      for b := 0 to |names|
        invariant forall w <- next :: next[w] != []
        invariant forall w, k: nat :: Consumer(next, w, k) <==> Consumer(before, w, k) || (k == j && w in names[..b])
      {
        ConsumerAdded(next, names[b], j);
        next := WithConsumer(next, names[b], j);
        assert names[..b + 1] == names[..b] + [names[b]];
      }
      assert names[..|names|] == names;
    }
  }

  method MapConsumers(ds: seq<Directive>) returns (consumers: map<string, seq<nat>>)
    ensures forall w <- consumers :: consumers[w] != []
    ensures forall w, k: nat :: Consumer(consumers, w, k) <==> Consumes(ds, k, w)
  {
    consumers := map[];
    for i := 0 to |ds|
      invariant forall w <- consumers :: consumers[w] != []
      invariant forall w, k: nat :: Consumer(consumers, w, k) <==> k < i && Consumes(ds, k, w)
    {
      consumers := CollectConsumers(ds[i], i, consumers);
    }
  }

  method AllSkip(self: seq<Status>, users: seq<nat>) returns (satisfied: bool)
    requires forall a | 0 <= a < |users| :: users[a] < |self|
    ensures satisfied <==> forall a | 0 <= a < |users| :: self[users[a]].Skip?
  {
    satisfied := true;
    for k := 0 to |users|
      invariant satisfied <==> forall a | 0 <= a < k :: self[users[a]].Skip?
    {
      satisfied := satisfied && self[users[k]].Skip?;
    }
  }

  /** What the plan shows for directive i. */
  predicate PlannedAs(p: Platform, ds: seq<Directive>, t: Tree, i: nat, status: PlanStatus)
    requires i < |ds|
  {
    if !ds[i].kind.Prompt? then
      match SelfStatus(p, ds[i], t, Install)
      case Skip => status.PlanSkip?
      case Apply => status.PlanApply?
      case Agent => status.PlanAgent?
    else if PromptVar(ds[i].args).Some? && ConsumersSatisfied(p, ds, t, PromptVar(ds[i].args).value)
    then status == PlanSkip
    else status == PlanNeedsInput
  }

  /** selfStatus of every directive. */
  predicate Surveyed(p: Platform, ds: seq<Directive>, t: Tree, self: seq<Status>) {
    |self| == |ds| && forall i | 0 <= i < |ds| :: self[i] == SelfStatus(p, ds[i], t, Install)
  }

  method Survey(p: Platform, ds: seq<Directive>, t: Tree) returns (self: seq<Status>)
    ensures Surveyed(p, ds, t, self)
  {
    self := [];
    for i := 0 to |ds|
      invariant |self| == i && forall k | 0 <= k < i :: self[k] == SelfStatus(p, ds[k], t, Install)
    {
      self := self + [SelfStatus(p, ds[i], t, Install)];
    }
  }

  method PlanPrompt(p: Platform, ds: seq<Directive>, t: Tree, self: seq<Status>, consumers: map<string, seq<nat>>, i: nat)
    returns (status: PlanStatus)
    requires i < |ds| && ds[i].kind.Prompt? && Surveyed(p, ds, t, self)
    requires forall w <- consumers :: consumers[w] != []
    requires forall w, k: nat :: Consumer(consumers, w, k) <==> Consumes(ds, k, w)
    ensures PlannedAs(p, ds, t, i, status)
  {
    status := PlanNeedsInput;
    var name := PromptVar(ds[i].args);
    if name.Some? && name.value in consumers {
      var v := name.value;
      var users := consumers[v];
      forall a | 0 <= a < |users|
        ensures Consumes(ds, users[a], v)
      {
        assert Consumer(consumers, v, users[a]);
      }
      var satisfied := AllSkip(self, users);
      assert Consumes(ds, users[0], v);
      assert forall j: nat :: Consumes(ds, j, v) <==> j in users by {
        assert forall j: nat :: Consumer(consumers, v, j) <==> j in users;
      }
      if satisfied {
        status := PlanSkip;
      }
    } else if name.Some? {
      assert forall j: nat :: !Consumer(consumers, name.value, j);
    }
  }

  method PlanOne(p: Platform, ds: seq<Directive>, t: Tree, self: seq<Status>, consumers: map<string, seq<nat>>, i: nat)
    returns (status: PlanStatus)
    requires i < |ds| && Surveyed(p, ds, t, self)
    requires forall w <- consumers :: consumers[w] != []
    requires forall w, k: nat :: Consumer(consumers, w, k) <==> Consumes(ds, k, w)
    ensures PlannedAs(p, ds, t, i, status)
  {
    if ds[i].kind.Prompt? {
      status := PlanPrompt(p, ds, t, self, consumers, i);
    } else {
      status := FromStatus(self[i]);
    }
  }

  method PlanSkill(p: Platform, ds: seq<Directive>, t: Tree) returns (steps: seq<PlanStatus>)
    ensures |steps| == |ds|
    ensures forall i | 0 <= i < |ds| :: PlannedAs(p, ds, t, i, steps[i])
  {
    var self := Survey(p, ds, t);
    var consumers := MapConsumers(ds);
    steps := [];
    for i := 0 to |ds|
      invariant |steps| == i
      invariant forall k | 0 <= k < i :: PlannedAs(p, ds, t, k, steps[k])
    {
      var status := PlanOne(p, ds, t, self, consumers, i);
      steps := steps + [status];
    }
  }

  lemma PromptVerdict(p: Platform, o: Options, d: Directive, i: nat, rep: Reply, st: State)
    requires o.mode.Install? && d.kind.Prompt? && d.attrs.guard.None?
    ensures !Handle(p, o, d, i, rep, st).verdict.Skipped?
  {
  }

  /**
   The plan and the run part ways on prompts: a run never skips an unguarded prompt, not even
   one that the plan marks "skip" because its consumers are satisfied.
   */
  lemma PromptIsAskedAnyway(p: Platform, o: Options, ds: seq<Directive>, reps: seq<Reply>, t: Tree, i: nat)
    requires i < |ds| == |reps| && o.mode.Install? && ds[i].kind.Prompt? && ds[i].attrs.guard.None?
    ensures i !in RunAll(p, o, ds, reps, t).ledger.skipped
  {
    var f := Stepping(p, o, ds, reps);
    PromptVerdict(p, o, ds[i], i, reps[i], Drive(f, t, i));
    SkippedMeans(f, t, |ds|, i);
  }
}
