/**
 Removing a skill: the journal of an install run, played backwards, gives back the files as they
 were. Undoing works on each path by itself, so the proof follows one path through the run.
 */
module SkillUndo {
  import opened Wrappers
  import opened Text
  import opened Directives
  import opened SkillEngine
  import opened SkillRun

  // ----- One path -----

  type Content = Option<string>

  function At(t: Tree, f: Path): Content {
    if f in t then Some(t[f]) else None
  }

  function Body(c: Content): string {
    if c.Some? then c.value else ""
  }

  function ParseText(p: Platform, s: string): Option<Json> {
    p.parse(if s == "" then "[]" else s)
  }

  predicate Touches(e: Entry, f: Path) {
    match e
    case Wrote(path) => path == f
    case Appended(path, _) => path == f
    case SetEnv(_) => f == ENV_FILE
    case Merged(path, _, _, _) => path == f
    case Ran(_, _) => false
  }

  predicate Untouched(j: seq<Entry>, f: Path) {
    forall e <- j :: !Touches(e, f)
  }

  predicate TextEntry(e: Entry) {
    e.Appended? || e.SetEnv?
  }

  function Unmerged(elems: seq<Json>, key: string, value: Option<Json>, previous: Option<Json>): seq<Json> {
    var i := FindKey(elems, key, value);
    if i < 0 then elems
    else if previous.Some? then elems[i := previous.value]
    else elems[..i] + elems[i + 1..]
  }

  /** What undoing an entry makes of the content of its path; None when that throws. */
  function Undone(p: Platform, c: Content, e: Entry): Option<Content> {
    match e
    case Wrote(_) => Some(None)
    case Appended(_, _) => Some(Some(Join(Filter(Split(Body(c)), Spares(e)))))
    case SetEnv(_) => Some(Some(Join(Filter(Split(Body(c)), Spares(e)))))
    case Merged(_, key, value, previous) =>
      (match ParseText(p, Body(c))
       case None => None
       case Some(JArr(elems)) => Some(Some(p.show(JArr(Unmerged(elems, key, value, previous)))))
       case Some(_) => Some(c))
    case Ran(_, _) => Some(c)
  }

  /** The whole journal, on one path. */
  function UndoAt(p: Platform, c: Content, j: seq<Entry>, f: Path): Option<Content>
    decreases |j|
  {
    if j == [] then Some(c)
    else
      var rest, e := j[..|j| - 1], j[|j| - 1];
      if !Touches(e, f) then UndoAt(p, c, rest, f)
      else
        match Undone(p, c, e)
        case None => None
        case Some(u) => UndoAt(p, u, rest, f)
  }

  lemma UndoOneAt(p: Platform, t: Tree, e: Entry, f: Path)
    ensures Touches(e, f) ==>
              match UndoOne(p, t, e)
              case None => Undone(p, At(t, f), e).None?
              case Some(u) => Undone(p, At(t, f), e) == Some(At(u, f))
    ensures !Touches(e, f) && UndoOne(p, t, e).Some? ==> At(UndoOne(p, t, e).value, f) == At(t, f)
  {
    match e
    case Wrote(_) =>
    case Appended(path, _) => assert Read(t, path) == Body(At(t, path));
    case SetEnv(_) => assert Read(t, ENV_FILE) == Body(At(t, ENV_FILE));
    case Merged(path, key, value, previous) => assert ParseFile(p, t, path) == ParseText(p, Body(At(t, path)));
    case Ran(_, _) =>
  }

  /** Undo.remove path by path: it succeeds when it succeeds on every path. */
  lemma {:induction false} UndoPathwise(p: Platform, t: Tree, j: seq<Entry>)
    requires forall f :: UndoAt(p, At(t, f), j, f).Some?
    ensures Undo(p, t, j).Some?
    ensures forall f :: UndoAt(p, At(t, f), j, f) == Some(At(Undo(p, t, j).value, f))
    decreases |j|
  {
    if j != [] {
      var rest, e := j[..|j| - 1], j[|j| - 1];
      var owner := match e case Wrote(f) => f case Appended(f, _) => f case SetEnv(_) => ENV_FILE
                           case Merged(f, _, _, _) => f case Ran(_, _) => "";
      UndoOneAt(p, t, e, owner);
      assert UndoAt(p, At(t, owner), j, owner).Some?;
      assert UndoOne(p, t, e).Some?;
      var u := UndoOne(p, t, e).value;
      forall f
        ensures UndoAt(p, At(t, f), j, f) == UndoAt(p, At(u, f), rest, f)
      {
        UndoOneAt(p, t, e, f);
      }
      UndoPathwise(p, u, rest);
    }
  }

  lemma {:induction false} UndoUntouched(p: Platform, c: Content, j: seq<Entry>, f: Path)
    requires Untouched(j, f)
    ensures UndoAt(p, c, j, f) == Some(c)
    decreases |j|
  {
    if j != [] {
      assert j[|j| - 1] in j;
      UndoUntouched(p, c, j[..|j| - 1], f);
    }
  }

  lemma UndoSnoc(p: Platform, c: Content, j: seq<Entry>, e: Entry, f: Path)
    ensures UndoAt(p, c, j + [e], f) ==
            if !Touches(e, f) then UndoAt(p, c, j, f)
            else if Undone(p, c, e).None? then None
            else UndoAt(p, Undone(p, c, e).value, j, f)
  {
    assert (j + [e])[..|j + [e]| - 1] == j;
  }

  // ----- Text files -----

  predicate Kept(j: seq<Entry>, f: Path, l: string) {
    forall e <- j :: Touches(e, f) ==> !Drops(e, l)
  }

  function Keeps(j: seq<Entry>, f: Path): string -> bool {
    l => Kept(j, f, l)
  }

  /** Only line edits, none of which drops an empty line. */
  predicate OnlyText(j: seq<Entry>, f: Path) {
    forall e <- j :: Touches(e, f) ==> TextEntry(e) && !Drops(e, "")
  }

  lemma KeptSnoc(j: seq<Entry>, e: Entry, f: Path, l: string)
    ensures Kept(j + [e], f, l) <==> Kept(j, f, l) && (Touches(e, f) ==> !Drops(e, l))
  {
    assert e in j + [e];
    assert forall x <- j :: x in j + [e];
    assert forall x <- j + [e] :: x in j || x == e;
  }

  lemma SplitFiltered(s: string, keep: string -> bool)
    ensures var kept := Filter(Split(s), keep);
            Split(Join(kept)) == if kept == [] then [""] else kept
  {
    var kept := Filter(Split(s), keep);
    if kept != [] {
      SplitOneLine(s);
      FilterMembers(Split(s), keep);
      SplitJoin(kept);
    }
  }

  /** Undoing line edits one after the other leaves the lines that no entry drops. */
  lemma {:induction false} UndoText(p: Platform, s: string, j: seq<Entry>, f: Path)
    requires OnlyText(j, f)
    ensures UndoAt(p, Some(s), j, f) == Some(Some(Join(Filter(Split(s), Keeps(j, f)))))
    decreases |j|
  {
    if j == [] {
      FilterLength(Split(s), Keeps(j, f));
      JoinSplit(s);
    } else {
      var rest, e := j[..|j| - 1], j[|j| - 1];
      assert j == rest + [e];
      assert forall l :: Kept(j, f, l) <==> Kept(rest, f, l) && (Touches(e, f) ==> !Drops(e, l)) by {
        forall l
          ensures Kept(j, f, l) <==> Kept(rest, f, l) && (Touches(e, f) ==> !Drops(e, l))
        {
          KeptSnoc(rest, e, f, l);
        }
      }
      if Touches(e, f) {
        assert e in j;
        var kept := Filter(Split(s), Spares(e));
        UndoText(p, Join(kept), rest, f);
        SplitFiltered(s, Spares(e));
        FilterTwice(Split(s), Spares(e), Keeps(rest, f), Keeps(j, f));
        if kept == [] {
          assert Filter([""], Keeps(rest, f)) == [""] by {
            assert Kept(rest, f, "");
            assert [""][1..] == [];
          }
        }
      } else {
        UndoText(p, s, rest, f);
        FilterSame(Split(s), Keeps(rest, f), Keeps(j, f));
      }
    }
  }

  /** The text differs from the original only in lines that the journal drops. */
  predicate TextInv(original: string, t: Tree, j: seq<Entry>, f: Path) {
    && f in t && Closed(t[f]) && OnlyText(j, f)
    && Filter(Split(t[f]), Keeps(j, f)) == Filter(Split(original), Keeps(j, f))
  }

  /** A new line that its own entry drops. */
  lemma TextGrows(original: string, t: Tree, j: seq<Entry>, f: Path, s: string, e: Entry,
                  before: seq<string>, line: string, after: seq<string>)
    requires TextInv(original, t, j, f) && Closed(s)
    requires Split(t[f]) == before + after && Split(s) == before + [line] + after
    requires Touches(e, f) && TextEntry(e) && !Drops(e, "") && Drops(e, line)
    ensures TextInv(original, t[f := s], j + [e], f)
  {
    var next := j + [e];
    forall l
      ensures Keeps(next, f)(l) <==> Keeps(j, f)(l) && Spares(e)(l)
    {
      KeptSnoc(j, e, f, l);
    }
    FilterTwice(Split(t[f]), Keeps(j, f), Spares(e), Keeps(next, f));
    FilterTwice(Split(original), Keeps(j, f), Spares(e), Keeps(next, f));
    FilterInsert(before, after, line, Keeps(next, f));
    forall x <- next
      ensures Touches(x, f) ==> TextEntry(x) && !Drops(x, "")
    {
    }
  }

  // ----- JSON files -----

  /** What the removal relies on in the JSON library. */
  ghost predicate RoundTrips(p: Platform) {
    forall v: Json :: p.show(v) != "" && p.parse(p.show(v)) == Some(v)
  }

  predicate OnlyMerges(j: seq<Entry>, f: Path) {
    forall e <- j :: Touches(e, f) ==> e.Merged? && e.previous.None?
  }

  /** Any text for this array is undone to a text for the original value. */
  ghost predicate Stacked(p: Platform, original: string, j: seq<Entry>, f: Path, elems: seq<Json>) {
    forall s :: ParseText(p, s) == Some(JArr(elems)) ==> Restores(p, original, UndoAt(p, Some(s), j, f))
  }

  predicate Restores(p: Platform, original: string, c: Option<Content>) {
    c.Some? && c.value.Some? && ParseText(p, c.value.value) == ParseText(p, original)
  }

  ghost predicate JsonInv(p: Platform, original: string, t: Tree, j: seq<Entry>, f: Path) {
    && f in t && OnlyMerges(j, f)
    && (Untouched(j, f) ==> t[f] == original)
    && match ParseText(p, t[f])
       case Some(JArr(elems)) => Stacked(p, original, j, f, elems)
       case _ => Untouched(j, f)
  }

  lemma JsonUndone(p: Platform, original: string, t: Tree, j: seq<Entry>, f: Path)
    requires JsonInv(p, original, t, j, f)
    ensures Restores(p, original, UndoAt(p, At(t, f), j, f))
  {
    if Untouched(j, f) {
      UndoUntouched(p, At(t, f), j, f);
    }
  }

  /** The element pushed last is the only one with its key, so undoing the push finds it. */
  lemma PushedIsFound(elems: seq<Json>, obj: Json, key: string, value: Option<Json>)
    requires FindKey(elems, key, value) < 0 && KeyMatches(obj, key, value)
    ensures Unmerged(elems + [obj], key, value, None) == elems
  {
    var longer := elems + [obj];
    var i := FindKey(longer, key, value);
    assert forall k | 0 <= k < |elems| :: longer[k] == elems[k];
    assert longer[|elems|] == obj;
    assert i == |elems|;
    assert longer[..i] == elems && longer[i + 1..] == [];
  }

  lemma JsonGrows(p: Platform, original: string, t: Tree, j: seq<Entry>, f: Path, elems: seq<Json>,
                  obj: Json, key: string, value: Option<Json>)
    requires RoundTrips(p) && JsonInv(p, original, t, j, f)
    requires ParseText(p, t[f]) == Some(JArr(elems))
    requires FindKey(elems, key, value) < 0 && KeyMatches(obj, key, value)
    ensures JsonInv(p, original, t[f := p.show(JArr(elems + [obj]))], j + [Merged(f, key, value, None)], f)
  {
    var e := Merged(f, key, value, None);
    var next := j + [e];
    assert e in next;
    PushedIsFound(elems, obj, key, value);
    forall s | ParseText(p, s) == Some(JArr(elems + [obj]))
      ensures Restores(p, original, UndoAt(p, Some(s), next, f))
    {
      UndoSnoc(p, Some(s), j, e, f);
      var u := p.show(JArr(elems));
      assert Undone(p, Some(s), e) == Some(Some(u));
      assert ParseText(p, u) == Some(JArr(elems));
      assert Restores(p, original, UndoAt(p, Some(u), j, f));
    }
    assert Stacked(p, original, next, f, elems + [obj]);
  }

  // ----- Files a copy may have created -----

  predicate OnlyWrites(j: seq<Entry>, f: Path) {
    forall e <- j :: Touches(e, f) ==> e.Wrote?
  }

  predicate CopyInv(original: Content, t: Tree, j: seq<Entry>, f: Path) {
    && OnlyWrites(j, f)
    && if Untouched(j, f) then At(t, f) == original else original.None?
  }

  lemma {:induction false} UndoWrites(p: Platform, c: Content, j: seq<Entry>, f: Path)
    requires OnlyWrites(j, f)
    ensures UndoAt(p, c, j, f) == Some(if Untouched(j, f) then c else None)
    decreases |j|
  {
    if j != [] {
      var rest, e := j[..|j| - 1], j[|j| - 1];
      assert j == rest + [e] && e in j;
      UndoWrites(p, if Touches(e, f) then None else c, rest, f);
    }
  }

  // ----- All paths -----

  predicate TextTarget(ds: seq<Directive>, f: Path) {
    exists d <- ds :: (d.kind.Append? && OrUndefined(d.attrs.to) == f) || (d.kind.EnvSet? && f == ENV_FILE)
  }

  predicate JsonTarget(ds: seq<Directive>, f: Path) {
    exists d <- ds :: d.kind.JsonMerge? && OrUndefined(d.attrs.into) == f
  }

  /** The journal so far undoes what happened to path f. */
  ghost predicate Undoable(p: Platform, ds: seq<Directive>, origin: Tree, f: Path, t: Tree, j: seq<Entry>) {
    if TextTarget(ds, f) then f in origin && TextInv(origin[f], t, j, f)
    else if JsonTarget(ds, f) then f in origin && JsonInv(p, origin[f], t, j, f)
    else CopyInv(At(origin, f), t, j, f)
  }

  ghost predicate AllUndoable(p: Platform, ds: seq<Directive>, origin: Tree, t: Tree, j: seq<Entry>) {
    forall f :: Undoable(p, ds, origin, f, t, j)
  }

  lemma KeptUntouched(j: seq<Entry>, e: Entry, f: Path, s: string)
    requires !Touches(e, f)
    ensures Filter(Split(s), Keeps(j + [e], f)) == Filter(Split(s), Keeps(j, f))
  {
    forall l
      ensures Keeps(j + [e], f)(l) <==> Keeps(j, f)(l)
    {
      KeptSnoc(j, e, f, l);
    }
    FilterSame(Split(s), Keeps(j + [e], f), Keeps(j, f));
  }

  /** An entry about another path, with this path's content as it was. */
  lemma OtherPathKeeps(p: Platform, ds: seq<Directive>, origin: Tree, f: Path, t: Tree, u: Tree, j: seq<Entry>, e: Entry)
    requires Undoable(p, ds, origin, f, t, j) && At(u, f) == At(t, f) && !Touches(e, f)
    ensures Undoable(p, ds, origin, f, u, j + [e])
  {
    var next := j + [e];
    assert forall x <- next :: x in j || x == e;
    assert Untouched(next, f) <==> Untouched(j, f) by {
      assert forall x <- j :: x in next;
    }
    if TextTarget(ds, f) {
      KeptUntouched(j, e, f, t[f]);
      KeptUntouched(j, e, f, origin[f]);
    } else if JsonTarget(ds, f) {
      if ParseText(p, t[f]).Some? && ParseText(p, t[f]).value.JArr? {
        var elems := ParseText(p, t[f]).value.elems;
        forall s | ParseText(p, s) == Some(JArr(elems))
          ensures Restores(p, origin[f], UndoAt(p, Some(s), next, f))
        {
          UndoSnoc(p, Some(s), j, e, f);
          assert Restores(p, origin[f], UndoAt(p, Some(s), j, f));
        }
        assert Stacked(p, origin[f], next, f, elems);
      }
    }
  }

  lemma NoPathKeeps(p: Platform, ds: seq<Directive>, origin: Tree, t: Tree, j: seq<Entry>, e: Entry)
    requires AllUndoable(p, ds, origin, t, j) && e.Ran?
    ensures AllUndoable(p, ds, origin, t, j + [e])
  {
    forall f
      ensures Undoable(p, ds, origin, f, t, j + [e])
    {
      OtherPathKeeps(p, ds, origin, f, t, t, j, e);
    }
  }

  // ----- Line edits -----

  predicate PlainLine(s: string) {
    OneLine(s) && Trim(s) != ""
  }

  lemma IndentedIsSame(indented: string, line: string)
    ensures SameLine(Indent(indented) + line, line)
  {
    IndentIsBlank(indented);
    TrimLeftBlanks(Indent(indented), line);
  }

  lemma AppendLineSplits(s: string, line: string)
    requires Closed(s) && OneLine(line)
    ensures Closed(AppendLine(s, line))
    ensures Split(s) == Lines(s) + [""] && Split(AppendLine(s, line)) == Lines(s) + [line] + [""]
  {
    SplitClosed(s);
    SplitAppendLine(s, line);
    SplitPlain(line);
  }

  lemma LastOfClosed(s: string)
    requires Closed(s)
    ensures Split(s)[|Split(s)| - 1] == ""
  {
    SplitClosed(s);
  }

  lemma {:induction false} JoinClosed(ls: seq<string>)
    requires ls != [] && ls[|ls| - 1] == ""
    ensures Closed(Join(ls))
  {
    if |ls| > 1 {
      JoinClosed(ls[1..]);
      assert ls[1..][|ls| - 2] == "";
    }
  }

  lemma IndentOneLine(l: string)
    requires OneLine(l)
    ensures OneLine(Indent(l))
  {
  }

  predicate AllOneLine(ls: seq<string>) {
    forall k | 0 <= k < |ls| :: OneLine(ls[k])
  }

  lemma JoinedLines(before: seq<string>, line: string, after: seq<string>)
    requires AllOneLine(before) && OneLine(line) && AllOneLine(after)
    ensures Split(Join(before + [line] + after)) == before + [line] + after
  {
    SplitJoin(before + [line] + after);
  }

  lemma JoinedClosed(before: seq<string>, after: seq<string>)
    requires after != [] && after[|after| - 1] == ""
    ensures Closed(Join(before + after))
  {
    JoinClosed(before + after);
  }

  lemma InsertClosed(s: string, i: nat, line: string)
    requires i < |Split(s)| && Closed(s)
    ensures Closed(InsertAt(s, i, line))
  {
    LastOfClosed(s);
    JoinedClosed(Split(s)[..i] + [Indent(Split(s)[i]) + line], Split(s)[i..]);
  }

  lemma InsertSplits(s: string, i: nat, line: string)
    requires i < |Split(s)| && OneLine(line) && Closed(s)
    ensures Closed(InsertAt(s, i, line))
    ensures var ls := Split(s);
            && ls == ls[..i] + ls[i..]
            && Split(InsertAt(s, i, line)) == ls[..i] + [Indent(ls[i]) + line] + ls[i..]
  {
    InsertedLines(s, i, line);
    InsertClosed(s, i, line);
  }

  lemma InsertedLines(s: string, i: nat, line: string)
    requires i < |Split(s)| && OneLine(line)
    ensures var ls := Split(s); Split(InsertAt(s, i, line)) == ls[..i] + [Indent(ls[i]) + line] + ls[i..]
  {
    var ls := Split(s);
    SplitOneLine(s);
    IndentOneLine(ls[i]);
    JoinedLines(ls[..i], Indent(ls[i]) + line, ls[i..]);
  }

  lemma AppendKeeps(p: Platform, ds: seq<Directive>, origin: Tree, d: Directive, i: nat, rep: Reply, w: Work)
    requires AllUndoable(p, ds, origin, w.tree, w.journal)
    requires d in ds && d.kind.Append? && i < |d.body| && PlainLine(d.body[i])
    ensures var next := AppendAt(d, i, rep, w); AllUndoable(p, ds, origin, next.tree, next.journal)
  {
    var line, to := d.body[i], OrUndefined(d.attrs.to);
    var next := AppendAt(d, i, rep, w);
    if next.journal != w.journal {
      var e := Appended(to, line);
      assert TextTarget(ds, to) && Undoable(p, ds, origin, to, w.tree, w.journal);
      var s := w.tree[to];
      if OrEmpty(d.attrs.at) == "" {
        AppendLineSplits(s, line);
        TextGrows(origin[to], w.tree, w.journal, to, AppendLine(s, line), e, Lines(s), line, [""]);
      } else {
        var k := FindMarker(Split(s), "<<< " + d.attrs.at.value);
        InsertSplits(s, k, line);
        IndentedIsSame(Split(s)[k], line);
        TextGrows(origin[to], w.tree, w.journal, to, InsertAt(s, k, line), e, Split(s)[..k], Indent(Split(s)[k]) + line, Split(s)[k..]);
      }
      forall f
        ensures Undoable(p, ds, origin, f, next.tree, next.journal)
      {
        if f != to {
          OtherPathKeeps(p, ds, origin, f, w.tree, next.tree, w.journal, e);
        }
      }
    }
  }

  lemma EnvKeeps(p: Platform, ds: seq<Directive>, origin: Tree, d: Directive, i: nat, rep: Reply, w: Work)
    requires AllUndoable(p, ds, origin, w.tree, w.journal)
    requires d in ds && d.kind.EnvSet? && i < |d.body| && OneLine(EnvKey(d.body[i]))
    requires var value := Substitute(EnvValue(d.body[i]), w.vars); value.Ok? ==> OneLine(value.value)
    ensures var next := EnvAt(d, i, rep, w); AllUndoable(p, ds, origin, next.tree, next.journal)
  {
    var key := EnvKey(d.body[i]);
    var next := EnvAt(d, i, rep, w);
    if next.journal != w.journal {
      var value := Substitute(EnvValue(d.body[i]), w.vars).value;
      var e, line := SetEnv(key), key + "=" + value;
      assert TextTarget(ds, ENV_FILE) && Undoable(p, ds, origin, ENV_FILE, w.tree, w.journal);
      var s := w.tree[ENV_FILE];
      AppendLineSplits(s, line);
      TextGrows(origin[ENV_FILE], w.tree, w.journal, ENV_FILE, AppendLine(s, line), e, Lines(s), line, [""]);
      forall f
        ensures Undoable(p, ds, origin, f, next.tree, next.journal)
      {
        if f != ENV_FILE {
          OtherPathKeeps(p, ds, origin, f, w.tree, next.tree, w.journal, e);
        }
      }
    }
  }

  // ----- Copies and merges -----

  lemma {:induction false} WroteAt(t: Tree, dests: seq<Path>, rep: Reply, i: nat, f: Path)
    requires i <= |dests|
    ensures var u := WriteAll(t, dests, rep, i, |dests|);
            if f in dests[i..] then f in u else At(u, f) == At(t, f)
    decreases |dests| - i
  {
    if i < |dests| {
      WroteAt(t[dests[i] := ContentAt(rep, i)], dests, rep, i + 1, f);
      assert dests[i..] == [dests[i]] + dests[i + 1..];
      if f in dests[i..] && f !in dests[i + 1..] {
        assert f == dests[i];
      }
    }
  }

  lemma {:induction false} CopiesOnlyAbsent(body: seq<string>, t: Tree)
    ensures forall dest <- ToCopy(body, t, Install) :: dest !in t
  {
    if body != [] {
      CopiesOnlyAbsent(body[1..], t);
    }
  }

  lemma {:induction false} OtherPathsKeep(p: Platform, ds: seq<Directive>, origin: Tree, f: Path,
                                          t: Tree, u: Tree, j: seq<Entry>, es: seq<Entry>)
    requires Undoable(p, ds, origin, f, t, j) && At(u, f) == At(t, f) && Untouched(es, f)
    ensures Undoable(p, ds, origin, f, u, j + es)
    decreases |es|
  {
    if es == [] {
      assert j + es == j;
    } else {
      var rest, e := es[..|es| - 1], es[|es| - 1];
      assert e in es && j + es == (j + rest) + [e];
      OtherPathsKeep(p, ds, origin, f, t, t, j, rest);
      OtherPathKeeps(p, ds, origin, f, t, u, j + rest, e);
    }
  }

  lemma CreatedKeeps(p: Platform, ds: seq<Directive>, origin: Tree, f: Path, t: Tree, u: Tree, j: seq<Entry>, dests: seq<Path>)
    requires Undoable(p, ds, origin, f, t, j) && f !in t && f in dests
    ensures Undoable(p, ds, origin, f, u, j + WroteEntries(dests))
  {
    var es := WroteEntries(dests);
    var k :| 0 <= k < |dests| && dests[k] == f;
    assert es[k] in j + es && Touches(es[k], f);
    assert forall e <- es :: e.Wrote?;
  }

  lemma CopyKeeps(p: Platform, ds: seq<Directive>, origin: Tree, d: Directive, rep: Reply, w: Work)
    requires AllUndoable(p, ds, origin, w.tree, w.journal)
    requires rep.ioFails == None || rep.ioFails == Some(0)
    ensures var next := ApplyCopy(d, Install, rep, w); AllUndoable(p, ds, origin, next.tree, next.journal)
  {
    var dests := ToCopy(d.body, w.tree, Install);
    var next := ApplyCopy(d, Install, rep, w);
    CopiesOnlyAbsent(d.body, w.tree);
    if next.journal == w.journal + WroteEntries(dests) && next.err == w.err {
      forall f
        ensures Undoable(p, ds, origin, f, next.tree, next.journal)
      {
        assert Undoable(p, ds, origin, f, w.tree, w.journal);
        WroteAt(w.tree, dests, rep, 0, f);
        assert dests[0..] == dests;
        if f in dests {
          CreatedKeeps(p, ds, origin, f, w.tree, next.tree, w.journal, dests);
        } else {
          OtherPathsKeep(p, ds, origin, f, w.tree, next.tree, w.journal, WroteEntries(dests));
        }
      }
    }
  }

  /** The merged element can be found again by its key. */
  predicate Findable(p: Platform, d: Directive) {
    var key := OrUndefined(d.attrs.key);
    match MergeBody(p, d)
    case Some(obj) => KeyMatches(obj, key, Field(obj, key))
    case None => true
  }

  predicate Separate(ds: seq<Directive>) {
    forall d <- ds :: d.kind.JsonMerge? ==> !TextTarget(ds, OrUndefined(d.attrs.into))
  }

  lemma MergeKeeps(p: Platform, ds: seq<Directive>, origin: Tree, d: Directive, rep: Reply, w: Work)
    requires AllUndoable(p, ds, origin, w.tree, w.journal)
    requires d in ds && d.kind.JsonMerge? && Findable(p, d) && Separate(ds) && RoundTrips(p)
    ensures var next := ApplyMerge(p, d, Install, rep, w); AllUndoable(p, ds, origin, next.tree, next.journal)
  {
    var into, key := OrUndefined(d.attrs.into), OrUndefined(d.attrs.key);
    var next := ApplyMerge(p, d, Install, rep, w);
    if next.journal != w.journal {
      assert JsonTarget(ds, into) && Undoable(p, ds, origin, into, w.tree, w.journal);
      var obj := MergeBody(p, d).value;
      var value := MergeValue(p, d, key).value;
      var e := Merged(into, key, value, None);
      assert next.journal == w.journal + [e];
      JsonGrows(p, origin[into], w.tree, w.journal, into, ParseFile(p, w.tree, into).value.elems, obj, key, value);
      forall f
        ensures Undoable(p, ds, origin, f, next.tree, next.journal)
      {
        if f != into {
          OtherPathKeeps(p, ds, origin, f, w.tree, next.tree, w.journal, e);
        }
      }
    }
  }

  // ----- Directives and runs -----

  /** Values that env-set lines would write, with these variables, are single lines. */
  predicate OneLineValues(d: Directive, vars: Vars) {
    d.kind.EnvSet? ==>
      forall line <- d.body ::
        OneLine(EnvKey(line)) && (Substitute(EnvValue(line), vars).Ok? ==> OneLine(Substitute(EnvValue(line), vars).value))
  }

  /** What the removal needs of a directive, whatever the run. */
  predicate Removable(p: Platform, d: Directive) {
    && (d.kind.Append? ==> forall line <- d.body :: PlainLine(line))
    && (d.kind.JsonMerge? ==> Findable(p, d))
  }

  /** A copy block fails before its first write or not at all. */
  predicate WholeCopies(d: Directive, rep: Reply) {
    d.kind.Copy? ==> rep.ioFails == None || rep.ioFails == Some(0)
  }

  lemma CommandKeeps(p: Platform, ds: seq<Directive>, origin: Tree, d: Directive, i: nat, rep: Reply, w: Work)
    requires AllUndoable(p, ds, origin, w.tree, w.journal) && i < |d.body|
    ensures var next := CommandAt(p, d, i, rep, w); AllUndoable(p, ds, origin, next.tree, next.journal)
  {
    var next := CommandAt(p, d, i, rep, w);
    if next.journal != w.journal {
      NoPathKeeps(p, ds, origin, w.tree, w.journal, next.journal[|w.journal|]);
    }
  }

  lemma LineKeeps(p: Platform, ds: seq<Directive>, origin: Tree, d: Directive, i: nat, rep: Reply, w: Work)
    requires AllUndoable(p, ds, origin, w.tree, w.journal)
    requires d in ds && LineWise(d) && i < |d.body| && Removable(p, d) && OneLineValues(d, w.vars)
    ensures var next := LineAt(p, d, i, rep, w); AllUndoable(p, ds, origin, next.tree, next.journal)
  {
    assert d.body[i] in d.body;
    match d.kind
    case Append => AppendKeeps(p, ds, origin, d, i, rep, w);
    case EnvSet => EnvKeeps(p, ds, origin, d, i, rep, w);
    case RunCmd => CommandKeeps(p, ds, origin, d, i, rep, w);
  }

  lemma EnvKeepsVars(p: Platform, d: Directive, i: nat, rep: Reply, w: Work)
    requires LineWise(d) && i < |d.body| && OneLineValues(d, w.vars)
    ensures OneLineValues(d, LineAt(p, d, i, rep, w).vars)
  {
    if d.kind.EnvSet? {
      EnvAtKeepsVars(d, i, rep, w);
      assert LineAt(p, d, i, rep, w).vars == w.vars;
    }
  }

  lemma LinesKeep(p: Platform, ds: seq<Directive>, origin: Tree, d: Directive, rep: Reply, w: Work)
    requires AllUndoable(p, ds, origin, w.tree, w.journal)
    requires d in ds && LineWise(d) && Removable(p, d) && OneLineValues(d, w.vars)
    ensures var end := ApplyLines(p, d, 0, rep, w); AllUndoable(p, ds, origin, end.tree, end.journal)
  {
    var inv := (i: nat, v: Work) => AllUndoable(p, ds, origin, v.tree, v.journal) && OneLineValues(d, v.vars);
    forall j: nat, v: Work | j < |d.body| && v.err.None? && inv(j, v)
      ensures inv(j + 1, LineAt(p, d, j, rep, v))
    {
      LineKeeps(p, ds, origin, d, j, rep, v);
      EnvKeepsVars(p, d, j, rep, v);
    }
    var k := LinesInduction(inv, p, d, rep, w);
  }

  lemma ApplyKeeps(p: Platform, o: Options, ds: seq<Directive>, origin: Tree, d: Directive, rep: Reply, w: Work)
    requires AllUndoable(p, ds, origin, w.tree, w.journal)
    requires o.mode.Install? && RoundTrips(p) && Separate(ds) && d in ds
    requires Removable(p, d) && WholeCopies(d, rep) && OneLineValues(d, w.vars)
    ensures var end := ApplyOne(p, o, d, rep, w); AllUndoable(p, ds, origin, end.tree, end.journal)
  {
    if LineWise(d) {
      LinesKeep(p, ds, origin, d, rep, w);
    } else if d.kind.Copy? {
      CopyKeeps(p, ds, origin, d, rep, w);
    } else if d.kind.JsonMerge? {
      MergeKeeps(p, ds, origin, d, rep, w);
    } else {
      var end := ApplyOne(p, o, d, rep, w);
      if end.journal != w.journal {
        NoPathKeeps(p, ds, origin, w.tree, w.journal, end.journal[|w.journal|]);
      }
    }
  }

  lemma HandleKeeps(p: Platform, o: Options, ds: seq<Directive>, origin: Tree, d: Directive, i: nat, rep: Reply, st: State)
    requires AllUndoable(p, ds, origin, st.tree, st.journal)
    requires o.mode.Install? && RoundTrips(p) && Separate(ds) && d in ds
    requires Removable(p, d) && WholeCopies(d, rep) && OneLineValues(d, st.vars)
    ensures var r := Handle(p, o, d, i, rep, st); AllUndoable(p, ds, origin, r.tree, r.journal)
  {
    ApplyKeeps(p, o, ds, origin, d, rep, WorkOf(st));
    HandleFiles(p, o, d, i, rep, st, ApplyOne(p, o, d, rep, WorkOf(st)));
  }

  /** Every file a line edit or a merge goes to is there, and text files end their last line. */
  predicate TargetsReady(ds: seq<Directive>, t: Tree) {
    forall d <- ds ::
      && (d.kind.Append? ==> OrUndefined(d.attrs.to) in t && Closed(t[OrUndefined(d.attrs.to)]))
      && (d.kind.EnvSet? ==> ENV_FILE in t && Closed(t[ENV_FILE]))
      && (d.kind.JsonMerge? ==> OrUndefined(d.attrs.into) in t)
  }

  ghost predicate Removal(p: Platform, o: Options, ds: seq<Directive>, reps: seq<Reply>, t: Tree) {
    && |ds| == |reps| && o.mode.Install? && RoundTrips(p) && Separate(ds) && TargetsReady(ds, t)
    && forall i: nat | i < |ds| ::
         Removable(p, ds[i]) && WholeCopies(ds[i], reps[i]) && OneLineValues(ds[i], RunTo(p, o, ds, reps, t, i).vars)
  }

  lemma NothingDone(p: Platform, ds: seq<Directive>, t: Tree)
    requires TargetsReady(ds, t)
    ensures AllUndoable(p, ds, t, t, [])
  {
    forall f
      ensures Undoable(p, ds, t, f, t, [])
    {
      if TextTarget(ds, f) {
        FilterLength(Split(t[f]), Keeps([], f));
      } else if JsonTarget(ds, f) && ParseText(p, t[f]).Some? && ParseText(p, t[f]).value.JArr? {
        var elems := ParseText(p, t[f]).value.elems;
        forall s | ParseText(p, s) == Some(JArr(elems))
          ensures Restores(p, t[f], UndoAt(p, Some(s), [], f))
        {
        }
        assert Stacked(p, t[f], [], f, elems);
      }
    }
  }

  lemma StepKeeps(p: Platform, o: Options, ds: seq<Directive>, reps: seq<Reply>, origin: Tree, i: nat, st: State, next: State)
    requires Removal(p, o, ds, reps, origin) && i < |ds| && st == RunTo(p, o, ds, reps, origin, i)
    requires AllUndoable(p, ds, origin, st.tree, st.journal)
    requires next == Settle(st, i, Handle(p, o, ds[i], i, reps[i], st))
    ensures AllUndoable(p, ds, origin, next.tree, next.journal)
  {
    assert Removable(p, ds[i]);
    HandleKeeps(p, o, ds, origin, ds[i], i, reps[i], st);
  }

  lemma RunUndoable(p: Platform, o: Options, ds: seq<Directive>, reps: seq<Reply>, t: Tree)
    requires Removal(p, o, ds, reps, t)
    ensures var st := RunAll(p, o, ds, reps, t); AllUndoable(p, ds, t, st.tree, st.journal)
  {
    var f := Stepping(p, o, ds, reps);
    var inv := (i: nat, st: State) => AllUndoable(p, ds, t, st.tree, st.journal);
    NothingDone(p, ds, t);
    forall i: nat | i < |ds| && inv(i, Drive(f, t, i))
      ensures inv(i + 1, Drive(f, t, i + 1))
    {
      StepKeeps(p, o, ds, reps, t, i, Drive(f, t, i), Drive(f, t, i + 1));
    }
    DriveInduction(inv, f, t, |ds|);
  }

  /** No line of the original file is one that a journal entry for that file drops. */
  predicate NothingDropped(original: string, j: seq<Entry>, f: Path) {
    forall l <- Split(original) :: Kept(j, f, l)
  }

  lemma TextRestored(p: Platform, original: string, t: Tree, j: seq<Entry>, f: Path)
    requires TextInv(original, t, j, f)
    ensures UndoAt(p, At(t, f), j, f).Some?
    ensures UndoAt(p, At(t, f), j, f) == Some(Some(original)) <==> NothingDropped(original, j, f)
  {
    UndoText(p, t[f], j, f);
    var keep := Keeps(j, f);
    var kept := Filter(Split(original), keep);
    FilterLength(Split(original), keep);
    JoinSplit(original);
    if NothingDropped(original, j, f) {
      assert forall i | 0 <= i < |Split(original)| :: Split(original)[i] in Split(original);
      assert kept == Split(original);
    }
    SplitFiltered(original, keep);
  }

  /** The same file, or for a JSON target the same parsed value. */
  predicate SameFile(p: Platform, ds: seq<Directive>, f: Path, before: Content, after: Content) {
    if JsonTarget(ds, f) then before.Some? && after.Some? && ParseText(p, before.value) == ParseText(p, after.value)
    else before == after
  }

  lemma PathUndone(p: Platform, ds: seq<Directive>, origin: Tree, f: Path, t: Tree, j: seq<Entry>)
    requires Undoable(p, ds, origin, f, t, j)
    ensures var c := UndoAt(p, At(t, f), j, f);
            && c.Some?
            && (TextTarget(ds, f) ==> (c == Some(At(origin, f)) <==> NothingDropped(origin[f], j, f)))
            && (!TextTarget(ds, f) ==> SameFile(p, ds, f, At(origin, f), c.value))
  {
    if TextTarget(ds, f) {
      TextRestored(p, origin[f], t, j, f);
    } else if JsonTarget(ds, f) {
      JsonUndone(p, origin[f], t, j, f);
    } else {
      UndoWrites(p, At(t, f), j, f);
    }
  }

  /**
   Undo after an install run. It never throws; every path outside the line-edited files is given
   back (JSON targets as parsed values); and a line-edited file is given back exactly when none of
   its original lines is one that the journal drops.
   */
  lemma RemoveUndoesApply(p: Platform, o: Options, ds: seq<Directive>, reps: seq<Reply>, t: Tree)
    returns (after: Tree)
    requires Removal(p, o, ds, reps, t)
    ensures var st := RunAll(p, o, ds, reps, t);
            && Undo(p, st.tree, st.journal) == Some(after)
            && forall f ::
                 if TextTarget(ds, f)
                 then At(after, f) == At(t, f) <==> f in t && NothingDropped(t[f], st.journal, f)
                 else SameFile(p, ds, f, At(t, f), At(after, f))
  {
    var st := RunAll(p, o, ds, reps, t);
    RunUndoable(p, o, ds, reps, t);
    forall f
      ensures UndoAt(p, At(st.tree, f), st.journal, f).Some?
    {
      assert Undoable(p, ds, t, f, st.tree, st.journal);
      PathUndone(p, ds, t, f, st.tree, st.journal);
    }
    UndoPathwise(p, st.tree, st.journal);
    after := Undo(p, st.tree, st.journal).value;
    forall f
      ensures if TextTarget(ds, f)
              then At(after, f) == At(t, f) <==> f in t && NothingDropped(t[f], st.journal, f)
              else SameFile(p, ds, f, At(t, f), At(after, f))
    {
      assert Undoable(p, ds, t, f, st.tree, st.journal);
      PathUndone(p, ds, t, f, st.tree, st.journal);
      assert UndoAt(p, At(st.tree, f), st.journal, f) == Some(At(after, f));
    }
  }

  // ----- What a journal can hold -----

  predicate Appends(d: Directive, path: Path, line: string) {
    d.kind.Append? && OrUndefined(d.attrs.to) == path && line in d.body
  }

  predicate SetsKey(d: Directive, key: string) {
    d.kind.EnvSet? && exists i :: 0 <= i < |d.body| && EnvKey(d.body[i]) == key
  }

  predicate IsDest(body: seq<string>, path: Path) {
    exists i :: 0 <= i < |body| && DestOf(body[i]) == path
  }

  predicate Copies(d: Directive, path: Path) {
    d.kind.Copy? && IsDest(d.body, path)
  }

  /** The entry is one that this directive can cause. */
  predicate CausedBy(d: Directive, e: Entry) {
    match e
    case Wrote(path) => Copies(d, path)
    case Appended(path, line) => Appends(d, path, line)
    case SetEnv(key) => SetsKey(d, key)
    case Merged(path, key, _, _) => d.kind.JsonMerge? && OrUndefined(d.attrs.into) == path && OrUndefined(d.attrs.key) == key
    case Ran(_, _) => d.kind.RunCmd? || d.kind.Dep?
  }

  predicate Caused(ds: seq<Directive>, e: Entry) {
    exists d <- ds :: CausedBy(d, e)
  }

  predicate AllCaused(ds: seq<Directive>, j: seq<Entry>) {
    forall e <- j :: Caused(ds, e)
  }

  lemma CausedToo(ds: seq<Directive>, d: Directive, j: seq<Entry>, more: seq<Entry>)
    requires AllCaused(ds, j) && d in ds && forall e <- more :: CausedBy(d, e)
    ensures AllCaused(ds, j + more)
  {
    forall e <- j + more
      ensures Caused(ds, e)
    {
      if e in more {
        assert CausedBy(d, e);
      }
    }
  }

  lemma LineCauses(p: Platform, ds: seq<Directive>, d: Directive, i: nat, rep: Reply, w: Work)
    requires d in ds && LineWise(d) && i < |d.body| && AllCaused(ds, w.journal)
    ensures AllCaused(ds, LineAt(p, d, i, rep, w).journal)
  {
    var next := LineAt(p, d, i, rep, w).journal;
    if next != w.journal {
      var e := next[|w.journal|];
      assert next == w.journal + [e] && d.body[i] in d.body;
      assert CausedBy(d, e);
      CausedToo(ds, d, w.journal, [e]);
    }
  }

  lemma LinesCause(p: Platform, ds: seq<Directive>, d: Directive, rep: Reply, w: Work)
    requires d in ds && LineWise(d) && AllCaused(ds, w.journal)
    ensures AllCaused(ds, ApplyLines(p, d, 0, rep, w).journal)
  {
    var inv := (i: nat, v: Work) => AllCaused(ds, v.journal);
    forall j: nat, v: Work | j < |d.body| && v.err.None? && inv(j, v)
      ensures inv(j + 1, LineAt(p, d, j, rep, v))
    {
      LineCauses(p, ds, d, j, rep, v);
    }
    var k := LinesInduction(inv, p, d, rep, w);
  }

  lemma DestOfRest(body: seq<string>, path: Path)
    requires body != [] && IsDest(body[1..], path)
    ensures IsDest(body, path)
  {
    var i :| 0 <= i < |body[1..]| && DestOf(body[1..][i]) == path;
    assert body[1..][i] == body[i + 1];
  }

  lemma {:induction false} CopyTargets(body: seq<string>, t: Tree, mode: Mode, path: Path)
    requires path in ToCopy(body, t, mode)
    ensures IsDest(body, path)
  {
    if path == DestOf(body[0]) {
      assert IsDest(body, path);
    } else {
      CopyTargets(body[1..], t, mode, path);
      DestOfRest(body, path);
    }
  }

  lemma CopyCauses(ds: seq<Directive>, d: Directive, mode: Mode, rep: Reply, w: Work)
    requires d in ds && d.kind.Copy? && AllCaused(ds, w.journal)
    ensures AllCaused(ds, ApplyCopy(d, mode, rep, w).journal)
  {
    var dests := ToCopy(d.body, w.tree, mode);
    forall e <- WroteEntries(dests)
      ensures CausedBy(d, e)
    {
      CopyTargets(d.body, w.tree, mode, e.path);
    }
    CausedToo(ds, d, w.journal, WroteEntries(dests));
  }

  lemma ApplyCauses(p: Platform, o: Options, ds: seq<Directive>, d: Directive, rep: Reply, w: Work)
    requires d in ds && AllCaused(ds, w.journal)
    ensures AllCaused(ds, ApplyOne(p, o, d, rep, w).journal)
  {
    if LineWise(d) {
      LinesCause(p, ds, d, rep, w);
    } else if d.kind.Copy? {
      CopyCauses(ds, d, o.mode, rep, w);
    } else {
      var next := ApplyOne(p, o, d, rep, w).journal;
      if next != w.journal {
        assert next == w.journal + [next[|w.journal|]];
        CausedToo(ds, d, w.journal, [next[|w.journal|]]);
      }
    }
  }

  /** Every journal entry of a run, in any mode, stands for a line or the target of one of its directives. */
  lemma JournalIsCaused(p: Platform, o: Options, ds: seq<Directive>, reps: seq<Reply>, t: Tree)
    requires |ds| == |reps|
    ensures AllCaused(ds, RunAll(p, o, ds, reps, t).journal)
  {
    var f := Stepping(p, o, ds, reps);
    var inv := (i: nat, st: State) => AllCaused(ds, st.journal);
    forall i: nat | i < |ds| && inv(i, Drive(f, t, i))
      ensures inv(i + 1, Drive(f, t, i + 1))
    {
      var st := Drive(f, t, i);
      assert ds[i] in ds;
      ApplyCauses(p, o, ds, ds[i], reps[i], WorkOf(st));
      HandleFiles(p, o, ds[i], i, reps[i], st, ApplyOne(p, o, ds[i], reps[i], WorkOf(st)));
    }
    DriveInduction(inv, f, t, |ds|);
  }

  /** The files hold no line that equals one to append to them, and `.env` none that sets a key to set. */
  predicate Fresh(ds: seq<Directive>, t: Tree) {
    forall d <- ds ::
      && (d.kind.Append? ==>
            forall l <- Split(Read(t, OrUndefined(d.attrs.to))), line <- d.body :: !SameLine(l, line))
      && (d.kind.EnvSet? ==>
            forall l <- Split(Read(t, ENV_FILE)), entry <- d.body :: !StartsWith(l, EnvKey(entry) + "="))
  }

  lemma FreshDropsNothing(ds: seq<Directive>, t: Tree, j: seq<Entry>, f: Path)
    requires Fresh(ds, t) && AllCaused(ds, j) && f in t
    ensures NothingDropped(t[f], j, f)
  {
    forall l <- Split(t[f])
      ensures Kept(j, f, l)
    {
      forall e <- j | Touches(e, f)
        ensures !Drops(e, l)
      {
        FreshKeeps(ds, t, e, f, l);
      }
    }
  }

  lemma FreshKeeps(ds: seq<Directive>, t: Tree, e: Entry, f: Path, l: string)
    requires Fresh(ds, t) && Caused(ds, e) && f in t && Touches(e, f) && l in Split(t[f])
    ensures !Drops(e, l)
  {
    var d :| d in ds && CausedBy(d, e);
    match e
    case Appended(path, line) => assert line in d.body && Read(t, path) == t[f];
    case SetEnv(key) =>
      var i :| 0 <= i < |d.body| && EnvKey(d.body[i]) == key;
      assert d.body[i] in d.body && Read(t, ENV_FILE) == t[f];
    case _ =>
  }

  /**
   Apply, then remove, is the identity on every file, for a skill whose lines and keys are not there
   yet: all that is asked of the files can be told from the skill and the tree before the run.
   */
  lemma RemoveRestoresFresh(p: Platform, o: Options, ds: seq<Directive>, reps: seq<Reply>, t: Tree)
    returns (after: Tree)
    requires Removal(p, o, ds, reps, t) && Fresh(ds, t)
    ensures var st := RunAll(p, o, ds, reps, t);
            && Undo(p, st.tree, st.journal) == Some(after)
            && forall f :: SameFile(p, ds, f, At(t, f), At(after, f))
  {
    var st := RunAll(p, o, ds, reps, t);
    after := RemoveUndoesApply(p, o, ds, reps, t);
    JournalIsCaused(p, o, ds, reps, t);
    forall f
      ensures SameFile(p, ds, f, At(t, f), At(after, f))
    {
      if TextTarget(ds, f) {
        TargetIsThere(ds, t, f);
        FreshDropsNothing(ds, t, st.journal, f);
        assert At(after, f) == At(t, f);
        SeparateTarget(ds, f);
      }
    }
  }

  lemma TargetIsThere(ds: seq<Directive>, t: Tree, f: Path)
    requires TargetsReady(ds, t) && TextTarget(ds, f)
    ensures f in t
  {
  }

  lemma SeparateTarget(ds: seq<Directive>, f: Path)
    requires Separate(ds) && TextTarget(ds, f)
    ensures !JsonTarget(ds, f)
  {
  }

  // ----- What each edit needs to be undone -----

  lemma FilterAppended(s: string, line: string, keep: string -> bool)
    requires OneLine(line) && keep("") && !keep(line)
    ensures Filter(Split(AppendLine(s, line)), keep)
            == Filter(if Closed(s) then Lines(s) else Split(s), keep) + [""]
  {
    var head := if Closed(s) then Lines(s) else Split(s);
    SplitAppendLine(s, line);
    SplitPlain(line);
    FilterInsert(head, [""], line, keep);
    FilterAppend(head, [""], keep);
    assert [""][1..] == [] && Filter([""], keep) == [""];
  }

  /** Filtering gives the text back exactly when every line is kept. */
  lemma JoinedBack(s: string, keep: string -> bool)
    requires keep("")
    ensures Join(Filter(Split(s), keep)) == s <==> forall l <- Split(s) :: keep(l)
  {
    SplitFiltered(s, keep);
    FilterLength(Split(s), keep);
    JoinSplit(s);
    assert (forall l <- Split(s) :: keep(l)) <==> forall i | 0 <= i < |Split(s)| :: keep(Split(s)[i]);
  }

  /**
   A line added at the end of a file is undone exactly when the file was there, ended its last
   line, and held no line that the entry drops.
   */
  lemma LineUndoneExactly(p: Platform, c: Content, f: Path, e: Entry, line: string)
    requires Touches(e, f) && TextEntry(e) && OneLine(line) && Drops(e, line) && !Drops(e, "")
    ensures UndoAt(p, Some(AppendLine(Body(c), line)), [e], f) == Some(c)
            <==> c.Some? && Closed(c.value) && forall l <- Split(c.value) :: !Drops(e, l)
  {
    var s, keep := Body(c), Spares(e);
    assert UndoAt(p, Some(AppendLine(s, line)), [e], f) == Some(Some(Join(Filter(Split(AppendLine(s, line)), keep)))) by {
      assert [e] == [] + [e];
      UndoSnoc(p, Some(AppendLine(s, line)), [], e, f);
    }
    FilterAppended(s, line, keep);
    if Closed(s) {
      SplitClosed(s);
      FilterAppend(Lines(s), [""], keep);
      assert [""][1..] == [] && Filter([""], keep) == [""];
      JoinedBack(s, keep);
    } else {
      JoinClosed(Filter(Split(s), keep) + [""]);
    }
  }

  /** A pushed element is taken out again exactly when its own key value can match itself. */
  lemma MergeUndoneExactly(elems: seq<Json>, obj: Json, key: string, value: Option<Json>)
    requires FindKey(elems, key, value) < 0
    ensures Unmerged(elems + [obj], key, value, None) == elems <==> KeyMatches(obj, key, value)
  {
    if KeyMatches(obj, key, value) {
      PushedIsFound(elems, obj, key, value);
    } else {
      assert forall k | 0 <= k < |elems| :: (elems + [obj])[k] == elems[k];
      assert (elems + [obj])[|elems|] == obj;
      assert FindKey(elems + [obj], key, value) < 0;
    }
  }

  /** An element that a refresh replaced comes back when the new one is the first with its key value. */
  lemma ReplacedElementRestored(elems: seq<Json>, obj: Json, key: string, value: Option<Json>, k: nat)
    requires FindKey(elems, key, value) == k && KeyMatches(obj, key, value)
    ensures Unmerged(elems[k := obj], key, value, Some(elems[k])) == elems
  {
    var replaced := elems[k := obj];
    var i := FindKey(replaced, key, value);
    assert forall j | 0 <= j < k :: replaced[j] == elems[j];
    assert KeyMatches(replaced[k], key, value);
    assert i == k;
    assert replaced[k := elems[k]] == elems;
  }

  lemma {:induction false} WritesStay(t: Tree, dests: seq<Path>, rep: Reply, i: nat, stop: nat, f: Path)
    requires i <= |dests| && f in t
    ensures f in WriteAll(t, dests, rep, i, stop)
    decreases |dests| - i
  {
    if i < |dests| && i != stop {
      WritesStay(t[dests[i] := ContentAt(rep, i)], dests, rep, i + 1, stop, f);
    }
  }

  /** A copy block that fails after its first file leaves that file behind, and no journal entry for it. */
  lemma PartialCopyIsNotUndone(d: Directive, rep: Reply, w: Work)
    requires var dests := ToCopy(d.body, w.tree, Install);
             rep.ioFails.Some? && 0 < rep.ioFails.value < |dests|
    ensures var dests, next := ToCopy(d.body, w.tree, Install), ApplyCopy(d, Install, rep, w);
            dests[0] !in w.tree && dests[0] in next.tree && next.journal == w.journal
  {
    var dests := ToCopy(d.body, w.tree, Install);
    CopiesOnlyAbsent(d.body, w.tree);
    assert dests[0] in dests;
    WritesStay(w.tree[dests[0] := ContentAt(rep, 0)], dests, rep, 1, rep.ioFails.value, dests[0]);
  }
}
