/**
 nanoclaw/setup/set-env.ts: rewriting the `.env` file. Lines keep their line break here, as the
 rewriter splits after each one.
 */
module EnvFile {
  import opened Wrappers
  import opened Text

  datatype Setting = Setting(key: string, value: string)

  // ----- Lines with their line breaks -----

  /** content.split(/(?<=\n)/), with no lines for the empty text. */
  function SplitAfter(s: string): (ls: seq<string>)
    ensures s == "" <==> ls == []
  {
    if s == "" then []
    else
      var rest := SplitAfter(s[1..]);
      if s[0] == '\n' || rest == [] then [[s[0]]] + rest else [[s[0]] + rest[0]] + rest[1..]
  }

  function Concat(ls: seq<string>): string {
    if ls == [] then "" else ls[0] + Concat(ls[1..])
  }

  /** One line: a line break, if any, stands at its end. */
  predicate IsLine(l: string) {
    l != "" && '\n' !in l[..|l| - 1]
  }

  predicate IsFull(l: string) {
    IsLine(l) && l[|l| - 1] == '\n'
  }

  predicate AllFull(ls: seq<string>) {
    forall i | 0 <= i < |ls| :: IsFull(ls[i])
  }

  lemma {:induction false} ConcatSplit(s: string)
    ensures Concat(SplitAfter(s)) == s
  {
    if s != "" {
      ConcatSplit(s[1..]);
    }
  }

  lemma {:induction false} ConcatAppend(ls: seq<string>, ms: seq<string>)
    ensures Concat(ls + ms) == Concat(ls) + Concat(ms)
  {
    if ls == [] {
      assert ls + ms == ms;
    } else {
      ConcatAppend(ls[1..], ms);
      Uncons(ls, ms);
      Assoc(ls[0], Concat(ls[1..]), Concat(ms));
    }
  }

  lemma RestOfLine(l: string)
    requires IsFull(l) && |l| > 1
    ensures IsFull(l[1..]) && l[0] != '\n'
  {
    assert l[..|l| - 1][0] == l[0];
    assert l[1..][..|l| - 2] == l[..|l| - 1][1..];
  }

  lemma {:induction false} SplitFirst(l: string, t: string)
    requires IsFull(l)
    ensures SplitAfter(l + t) == [l] + SplitAfter(t)
  {
    if |l| == 1 {
      assert l == "\n" && (l + t)[1..] == t;
    } else {
      RestOfLine(l);
      SplitFirst(l[1..], t);
      assert (l + t)[1..] == l[1..] + t;
      assert [l[0]] + l[1..] == l;
    }
  }

  lemma {:induction false} SplitConcat(ls: seq<string>)
    requires AllFull(ls)
    ensures SplitAfter(Concat(ls)) == ls
  {
    if ls != [] {
      SplitConcat(ls[1..]);
      SplitFirst(ls[0], Concat(ls[1..]));
    }
  }

  lemma SplitChar(c: char)
    ensures SplitAfter([c]) == [[c]]
  {
    assert [c][1..] == "";
  }

  lemma LongerLine(c: char, l: string)
    requires c != '\n' && IsFull(l)
    ensures IsFull([c] + l)
  {
    assert ([c] + l)[..|l|] == [c] + l[..|l| - 1];
  }

  lemma {:induction false} SplitFull(s: string)
    requires Closed(s)
    ensures AllFull(SplitAfter(s))
  {
    if |s| > 1 {
      assert s[1..][|s| - 2] == s[|s| - 1];
      SplitFull(s[1..]);
      if s[0] != '\n' {
        LongerLine(s[0], SplitAfter(s[1..])[0]);
      }
    } else if s != "" {
      assert s == ['\n'];
      SplitChar('\n');
    }
  }

  // ----- What a line sets -----

  /** The key of a line that the reader takes for an assignment. */
  function LineKey(line: string): Option<string> {
    var trimmed := Trim(line);
    var eq := IndexOf(trimmed, '=');
    if eq < 0 || trimmed[0] == '#' then None else Some(Trim(trimmed[..eq]))
  }

  predicate Sets(line: string, key: string) {
    LineKey(line) == Some(key)
  }

  predicate ValidKey(key: string) {
    key != "" && 'A' <= key[0] <= 'Z' && forall c <- key :: 'A' <= c <= 'Z' || '0' <= c <= '9' || c == '_'
  }

  predicate ValidValue(value: string) {
    forall c <- value :: c != '\r' && c != '\n' && c != '\0'
  }

  /** An object literal of settings: valid, and no key twice. */
  predicate ValidSettings(vs: seq<Setting>) {
    && (forall i | 0 <= i < |vs| :: ValidKey(vs[i].key) && ValidValue(vs[i].value))
    && Distinct(vs)
  }

  predicate Distinct(vs: seq<Setting>) {
    forall i, j | 0 <= i < j < |vs| :: vs[i].key != vs[j].key
  }

  function Keys(vs: seq<Setting>): set<string> {
    set i | 0 <= i < |vs| :: vs[i].key
  }

  function ValueOf(vs: seq<Setting>, key: string): string {
    if vs == [] then "" else if vs[0].key == key then vs[0].value else ValueOf(vs[1..], key)
  }

  function Written(key: string, value: string): string {
    key + "=" + value + "\n"
  }

  function WrittenFor(vs: seq<Setting>, key: string): string {
    Written(key, ValueOf(vs, key))
  }

  // ----- The rewrite, on lines -----

  predicate Given(line: string, vs: seq<Setting>) {
    LineKey(line).Some? && LineKey(line).value in Keys(vs)
  }

  /** What a line becomes: itself, the new assignment of its key, or nothing if the key was seen. */
  function Edited(line: string, vs: seq<Setting>, seen: set<string>): seq<string> {
    if !Given(line, vs) then [line]
    else if LineKey(line).value in seen then []
    else [WrittenFor(vs, LineKey(line).value)]
  }

  function SeenWith(line: string, vs: seq<Setting>, seen: set<string>): set<string> {
    if Given(line, vs) then seen + {LineKey(line).value} else seen
  }

  function Seen(ls: seq<string>, vs: seq<Setting>, seen: set<string>): set<string> {
    if ls == [] then seen else Seen(ls[1..], vs, SeenWith(ls[0], vs, seen))
  }

  function Rewritten(ls: seq<string>, vs: seq<Setting>, seen: set<string>): seq<string> {
    if ls == [] then []
    else Edited(ls[0], vs, seen) + Rewritten(ls[1..], vs, SeenWith(ls[0], vs, seen))
  }

  /** Lines for the settings whose key was not there. */
  function Missing(vs: seq<Setting>, seen: set<string>): seq<string> {
    if vs == [] then []
    else (if vs[0].key in seen then [] else [Written(vs[0].key, vs[0].value)]) + Missing(vs[1..], seen)
  }

  function Close(s: string): string {
    if Closed(s) then s else s + "\n"
  }

  /** The new content. */
  function Upserted(s: string, vs: seq<Setting>): string {
    var ls := SplitAfter(s);
    Close(Concat(Rewritten(ls, vs, {}))) + Concat(Missing(vs, Seen(ls, vs, {})))
  }

  lemma {:induction false} RewrittenAppend(ls: seq<string>, ms: seq<string>, vs: seq<Setting>, seen: set<string>)
    ensures Rewritten(ls + ms, vs, seen) == Rewritten(ls, vs, seen) + Rewritten(ms, vs, Seen(ls, vs, seen))
    ensures Seen(ls + ms, vs, seen) == Seen(ms, vs, Seen(ls, vs, seen))
  {
    if ls == [] {
      assert ls + ms == ms;
    } else {
      var next := SeenWith(ls[0], vs, seen);
      RewrittenAppend(ls[1..], ms, vs, next);
      Uncons(ls, ms);
      Assoc(Edited(ls[0], vs, seen), Rewritten(ls[1..], vs, next), Rewritten(ms, vs, Seen(ls[1..], vs, next)));
    }
  }

  lemma RewrittenOne(line: string, vs: seq<Setting>, seen: set<string>)
    ensures Rewritten([line], vs, seen) == Edited(line, vs, seen)
    ensures Seen([line], vs, seen) == SeenWith(line, vs, seen)
  {
    assert [line][1..] == [];
  }

  // ----- The lines that are written -----

  lemma {:induction false} ValueIsGiven(vs: seq<Setting>, i: nat)
    requires i < |vs| && Distinct(vs)
    ensures ValueOf(vs, vs[i].key) == vs[i].value
  {
    if i > 0 {
      ValueIsGiven(vs[1..], i - 1);
    }
  }

  lemma ValidKeyIsPlain(key: string)
    requires ValidKey(key)
    ensures Trimmed(key) && '=' !in key && '\n' !in key && key[0] != '#'
  {
    assert key[0] in key && key[|key| - 1] in key;
  }

  /** Trimming the end stops at the last non-blank character in front. */
  lemma TrimmedKeeps(front: string, rest: string)
    requires front != "" && !IsBlank(front[|front| - 1])
    ensures front <= TrimRight(front + rest)
  {
    if AllBlank(rest) {
      TrimRightBlanks(front, rest);
    } else {
      TrimRightKeeps(front, rest);
    }
  }

  lemma KeyIsRead(key: string, trimmed: string)
    requires ValidKey(key) && key + "=" <= trimmed
    ensures IndexOf(trimmed, '=') == |key| && trimmed[..|key|] == key && trimmed[0] == key[0]
  {
    ValidKeyIsPlain(key);
    assert (key + "=")[|key|] == '=' && trimmed[|key|] == '=';
    assert trimmed[..|key|] == key;
  }

  lemma WrittenLine(key: string, value: string)
    requires ValidKey(key) && ValidValue(value)
    ensures IsFull(Written(key, value)) && Sets(Written(key, value), key)
  {
    var l := Written(key, value);
    ValidKeyIsPlain(key);
    assert l[..|l| - 1] == key + "=" + value;
    var front := key + "=";
    assert l == front + (value + "\n") && TrimLeft(l) == l;
    TrimmedKeeps(front, value + "\n");
    KeyIsRead(key, Trim(l));
    TrimOfTrimmed(key);
  }

  lemma WrittenIsFull(vs: seq<Setting>, key: string)
    requires ValidSettings(vs) && key in Keys(vs)
    ensures IsFull(WrittenFor(vs, key)) && Sets(WrittenFor(vs, key), key)
  {
    var i :| 0 <= i < |vs| && vs[i].key == key;
    ValueIsGiven(vs, i);
    WrittenLine(key, vs[i].value);
  }

  lemma EditedFull(line: string, vs: seq<Setting>, seen: set<string>)
    requires ValidSettings(vs) && IsFull(line)
    ensures AllFull(Edited(line, vs, seen))
  {
    if Given(line, vs) {
      WrittenIsFull(vs, LineKey(line).value);
    }
  }

  lemma {:induction false} RewrittenFull(ls: seq<string>, vs: seq<Setting>, seen: set<string>)
    requires ValidSettings(vs) && AllFull(ls)
    ensures AllFull(Rewritten(ls, vs, seen))
  {
    if ls != [] {
      EditedFull(ls[0], vs, seen);
      RewrittenFull(ls[1..], vs, SeenWith(ls[0], vs, seen));
    }
  }

  lemma {:induction false} MissingFull(vs: seq<Setting>, seen: set<string>)
    requires ValidSettings(vs)
    ensures AllFull(Missing(vs, seen))
  {
    if vs != [] {
      WrittenLine(vs[0].key, vs[0].value);
      MissingFull(vs[1..], seen);
    }
  }

  // ----- A missing line break at the end -----

  /** Everything up to the last line break. */
  function HeadOf(s: string): (h: string)
    ensures h <= s && Closed(h)
  {
    if Closed(s) then s else HeadOf(s[..|s| - 1])
  }

  lemma {:induction false} TailIsPlain(s: string)
    ensures '\n' !in s[|HeadOf(s)|..]
  {
    if !Closed(s) {
      var t := s[..|s| - 1];
      TailIsPlain(t);
      assert s[|HeadOf(s)|..] == t[|HeadOf(s)|..] + [s[|s| - 1]];
    }
  }

  lemma {:induction false} SplitPlain(l: string)
    requires l != "" && '\n' !in l
    ensures SplitAfter(l) == [l]
  {
    if |l| == 1 {
      assert l == [l[0]];
      SplitChar(l[0]);
    } else {
      assert l[0] in l && forall c <- l[1..] :: c in l;
      SplitPlain(l[1..]);
      assert [l[0]] + l[1..] == l;
    }
  }

  lemma {:induction false} SplitBehind(ls: seq<string>, t: string)
    requires AllFull(ls)
    ensures SplitAfter(Concat(ls) + t) == ls + SplitAfter(t)
  {
    if ls == [] {
      assert Concat(ls) + t == t;
    } else {
      SplitBehind(ls[1..], t);
      SplitFirst(ls[0], Concat(ls[1..]) + t);
      Assoc(ls[0], Concat(ls[1..]), t);
      Assoc([ls[0]], ls[1..], SplitAfter(t));
      assert [ls[0]] + ls[1..] == ls;
    }
  }

  /** An unclosed text differs from the closed one in its last line only. */
  lemma SplitOpen(s: string) returns (front: seq<string>, last: string)
    requires !Closed(s)
    ensures AllFull(front) && last != "" && '\n' !in last
    ensures SplitAfter(s) == front + [last] && SplitAfter(s + "\n") == front + [last + "\n"]
  {
    var head := HeadOf(s);
    front, last := SplitAfter(head), s[|head|..];
    TailIsPlain(s);
    SplitFull(head);
    ConcatSplit(head);
    assert s == head + last && s + "\n" == head + (last + "\n");
    SplitBehind(front, last);
    SplitBehind(front, last + "\n");
    SplitPlain(last);
    LastLineFull(last);
    SplitFirst(last + "\n", "");
    assert last + "\n" + "" == last + "\n";
  }

  lemma LastLineFull(last: string)
    requires '\n' !in last
    ensures IsFull(last + "\n")
  {
    assert (last + "\n")[..|last|] == last;
  }

  lemma BreakIsTrimmed(l: string)
    ensures LineKey(l + "\n") == LineKey(l)
  {
    if AllBlank(l) {
      TrimLeftBlanks(l, "\n");
      TrimLeftBlanks(l, "");
      assert l + "" == l;
    } else {
      TrimLeftKeeps(l, "\n");
      TrimRightBlanks(TrimLeft(l), "\n");
    }
  }

  lemma {:induction false} FullIsClosed(ls: seq<string>)
    requires AllFull(ls)
    ensures Closed(Concat(ls))
  {
    if ls != [] {
      FullIsClosed(ls[1..]);
    }
  }

  lemma CloseLast(ls: seq<string>, last: string)
    requires AllFull(ls) && last != "" && '\n' !in last
    ensures Close(Concat(ls + [last])) == Concat(ls + [last + "\n"])
  {
    ConcatAppend(ls, [last]);
    ConcatAppend(ls, [last + "\n"]);
    assert Concat([last]) == last && Concat([last + "\n"]) == last + "\n";
    assert last[|last| - 1] in last;
  }

  /** Whether the last line has its break makes no difference to the result. */
  lemma UpsertedClosed(s: string, vs: seq<Setting>)
    requires ValidSettings(vs)
    ensures Upserted(s, vs) == Upserted(Close(s), vs)
  {
    if !Closed(s) {
      var front, last := SplitOpen(s);
      var seen := Seen(front, vs, {});
      BreakIsTrimmed(last);
      RewrittenAppend(front, [last], vs, {});
      RewrittenAppend(front, [last + "\n"], vs, {});
      RewrittenOne(last, vs, seen);
      RewrittenOne(last + "\n", vs, seen);
      RewrittenFull(front, vs, {});
      LastLineFull(last);
      var done := Rewritten(front, vs, {});
      if Given(last, vs) {
        EditedFull(last + "\n", vs, seen);
        FullIsClosed(done + Edited(last, vs, seen));
      } else {
        CloseLast(done, last);
        FullIsClosed(done + [last + "\n"]);
      }
    }
  }

  /** The lines of the new content. */
  lemma UpsertedLines(s: string, vs: seq<Setting>)
    requires ValidSettings(vs)
    ensures var ls := SplitAfter(Close(s));
            SplitAfter(Upserted(s, vs)) == Rewritten(ls, vs, {}) + Missing(vs, Seen(ls, vs, {}))
  {
    UpsertedClosed(s, vs);
    var ls := SplitAfter(Close(s));
    SplitFull(Close(s));
    RewrittenFull(ls, vs, {});
    MissingFull(vs, Seen(ls, vs, {}));
    var all := Rewritten(ls, vs, {}) + Missing(vs, Seen(ls, vs, {}));
    FullIsClosed(Rewritten(ls, vs, {}));
    ConcatAppend(Rewritten(ls, vs, {}), Missing(vs, Seen(ls, vs, {})));
    SplitConcat(all);
  }

  // ----- What the rewrite leaves, and what it sets -----

  function Other(vs: seq<Setting>): string -> bool {
    line => !Given(line, vs)
  }

  function Setter(key: string): string -> bool {
    line => Sets(line, key)
  }

  lemma FilterOne(line: string, keep: string -> bool)
    ensures Filter([line], keep) == if keep(line) then [line] else []
  {
    assert [line][1..] == [];
  }

  lemma FilterNone(keep: string -> bool)
    ensures Filter([], keep) == []
  {
  }

  /** A line that is not for the given keys stays; one that is leaves no other line. */
  lemma EditedOther(line: string, vs: seq<Setting>, seen: set<string>)
    requires ValidSettings(vs)
    ensures Filter(Edited(line, vs, seen), Other(vs)) == Filter([line], Other(vs))
  {
    FilterOne(line, Other(vs));
    if Given(line, vs) {
      WrittenIsFull(vs, LineKey(line).value);
      FilterOne(WrittenFor(vs, LineKey(line).value), Other(vs));
      FilterNone(Other(vs));
    }
  }

  lemma {:induction false} RewrittenOther(ls: seq<string>, vs: seq<Setting>, seen: set<string>)
    requires ValidSettings(vs)
    ensures Filter(Rewritten(ls, vs, seen), Other(vs)) == Filter(ls, Other(vs))
  {
    if ls != [] {
      var next := SeenWith(ls[0], vs, seen);
      RewrittenOther(ls[1..], vs, next);
      EditedOther(ls[0], vs, seen);
      FilterAppend(Edited(ls[0], vs, seen), Rewritten(ls[1..], vs, next), Other(vs));
      FilterAppend([ls[0]], ls[1..], Other(vs));
      assert [ls[0]] + ls[1..] == ls;
    }
  }

  lemma {:induction false} MissingOther(vs: seq<Setting>, all: seq<Setting>, seen: set<string>)
    requires ValidSettings(vs) && ValidSettings(all) && Keys(vs) <= Keys(all)
    ensures Filter(Missing(vs, seen), Other(all)) == []
  {
    if vs != [] {
      WrittenLine(vs[0].key, vs[0].value);
      assert vs[0].key in Keys(vs);
      assert Keys(vs[1..]) <= Keys(vs) by {
        assert forall i | 0 <= i < |vs| - 1 :: vs[1..][i] == vs[i + 1];
      }
      MissingOther(vs[1..], all, seen);
      var first := if vs[0].key in seen then [] else [Written(vs[0].key, vs[0].value)];
      FilterAppend(first, Missing(vs[1..], seen), Other(all));
      FilterOne(Written(vs[0].key, vs[0].value), Other(all));
    }
  }

  /** The assignments of one key left by the rewrite. */
  lemma {:induction false} RewrittenSets(ls: seq<string>, vs: seq<Setting>, seen: set<string>, key: string)
    requires ValidSettings(vs) && key in Keys(vs)
    ensures Filter(Rewritten(ls, vs, seen), Setter(key)) ==
            if key !in seen && key in Seen(ls, vs, seen) then [WrittenFor(vs, key)] else []
    ensures seen <= Seen(ls, vs, seen)
  {
    if ls != [] {
      var next := SeenWith(ls[0], vs, seen);
      RewrittenSets(ls[1..], vs, next, key);
      EditedSets(ls[0], vs, seen, key);
      FilterAppend(Edited(ls[0], vs, seen), Rewritten(ls[1..], vs, next), Setter(key));
    }
  }

  lemma EditedSets(line: string, vs: seq<Setting>, seen: set<string>, key: string)
    requires ValidSettings(vs) && key in Keys(vs)
    ensures Filter(Edited(line, vs, seen), Setter(key)) ==
            if key !in seen && key in SeenWith(line, vs, seen) then [WrittenFor(vs, key)] else []
  {
    FilterOne(line, Setter(key));
    if Given(line, vs) {
      WrittenIsFull(vs, LineKey(line).value);
      FilterOne(WrittenFor(vs, LineKey(line).value), Setter(key));
    }
  }

  lemma {:induction false} MissingSets(vs: seq<Setting>, seen: set<string>, key: string)
    requires ValidSettings(vs)
    ensures Filter(Missing(vs, seen), Setter(key)) ==
            if key in Keys(vs) && key !in seen then [Written(key, ValueOf(vs, key))] else []
  {
    if vs != [] {
      WrittenLine(vs[0].key, vs[0].value);
      MissingSets(vs[1..], seen, key);
      KeysSplit(vs, key);
      var first := if vs[0].key in seen then [] else [Written(vs[0].key, vs[0].value)];
      FilterAppend(first, Missing(vs[1..], seen), Setter(key));
      FilterOne(Written(vs[0].key, vs[0].value), Setter(key));
    }
  }

  lemma KeysSplit(vs: seq<Setting>, key: string)
    requires vs != [] && Distinct(vs)
    ensures key in Keys(vs) <==> key == vs[0].key || key in Keys(vs[1..])
    ensures vs[0].key !in Keys(vs[1..])
  {
    assert forall i | 1 <= i < |vs| :: vs[1..][i - 1] == vs[i];
    if key in Keys(vs) && key != vs[0].key {
      var i :| 0 <= i < |vs| && vs[i].key == key;
      assert vs[1..][i - 1].key == key;
    }
  }

  // ----- The results -----

  /** Each given key ends with exactly one accepted assignment, of the given value. */
  lemma OneAssignmentEach(s: string, vs: seq<Setting>, key: string)
    requires ValidSettings(vs) && key in Keys(vs)
    ensures Filter(SplitAfter(Upserted(s, vs)), Setter(key)) == [WrittenFor(vs, key)]
  {
    var ls := SplitAfter(Close(s));
    UpsertedLines(s, vs);
    RewrittenSets(ls, vs, {}, key);
    MissingSets(vs, Seen(ls, vs, {}), key);
    FilterAppend(Rewritten(ls, vs, {}), Missing(vs, Seen(ls, vs, {})), Setter(key));
  }

  /** All other lines stay, in order; only a missing last line break is added. */
  lemma OtherLinesStay(s: string, vs: seq<Setting>)
    requires ValidSettings(vs)
    ensures Filter(SplitAfter(Upserted(s, vs)), Other(vs)) == Filter(SplitAfter(Close(s)), Other(vs))
  {
    var ls := SplitAfter(Close(s));
    UpsertedLines(s, vs);
    RewrittenOther(ls, vs, {});
    MissingOther(vs, vs, Seen(ls, vs, {}));
    FilterAppend(Rewritten(ls, vs, {}), Missing(vs, Seen(ls, vs, {})), Other(vs));
  }

  /** Each key at most once among the lines, and then as it would be written. */
  predicate Settled(ls: seq<string>, vs: seq<Setting>, seen: set<string>) {
    forall key <- Keys(vs) :: Filter(ls, Setter(key)) == [] || (key !in seen && Filter(ls, Setter(key)) == [WrittenFor(vs, key)])
  }

  lemma FilterHead(ls: seq<string>, keep: string -> bool)
    requires ls != []
    ensures Filter(ls, keep) == (if keep(ls[0]) then [ls[0]] else []) + Filter(ls[1..], keep)
  {
  }

  lemma HeadIsSettled(ls: seq<string>, vs: seq<Setting>, seen: set<string>)
    requires ls != [] && Settled(ls, vs, seen)
    ensures Edited(ls[0], vs, seen) == [ls[0]]
    ensures Given(ls[0], vs) ==> Filter(ls[1..], Setter(LineKey(ls[0]).value)) == []
  {
    if Given(ls[0], vs) {
      var key := LineKey(ls[0]).value;
      FilterHead(ls, Setter(key));
      assert |Filter(ls, Setter(key))| == 1 + |Filter(ls[1..], Setter(key))|;
      assert Filter(ls, Setter(key))[0] == ls[0];
    }
  }

  lemma RestIsSettled(ls: seq<string>, vs: seq<Setting>, seen: set<string>)
    requires ls != [] && Settled(ls, vs, seen)
    ensures Settled(ls[1..], vs, SeenWith(ls[0], vs, seen))
  {
    HeadIsSettled(ls, vs, seen);
    forall key <- Keys(vs)
      ensures var rest := Filter(ls[1..], Setter(key));
              rest == [] || (key !in SeenWith(ls[0], vs, seen) && rest == [WrittenFor(vs, key)])
    {
      FilterHead(ls, Setter(key));
    }
  }

  lemma {:induction false} SettledStays(ls: seq<string>, vs: seq<Setting>, seen: set<string>)
    requires Settled(ls, vs, seen)
    ensures Rewritten(ls, vs, seen) == ls
  {
    if ls != [] {
      HeadIsSettled(ls, vs, seen);
      RestIsSettled(ls, vs, seen);
      SettledStays(ls[1..], vs, SeenWith(ls[0], vs, seen));
      assert [ls[0]] + ls[1..] == ls;
    }
  }

  lemma {:induction false} SeenMeans(ls: seq<string>, vs: seq<Setting>, seen: set<string>, key: string)
    requires key in Keys(vs)
    ensures key in Seen(ls, vs, seen) <==> key in seen || Filter(ls, Setter(key)) != []
  {
    if ls != [] {
      SeenMeans(ls[1..], vs, SeenWith(ls[0], vs, seen), key);
      assert [ls[0]] + ls[1..] == ls;
      FilterAppend([ls[0]], ls[1..], Setter(key));
      FilterOne(ls[0], Setter(key));
    }
  }

  lemma {:induction false} SeenIsGiven(ls: seq<string>, vs: seq<Setting>, seen: set<string>)
    requires seen <= Keys(vs)
    ensures Seen(ls, vs, seen) <= Keys(vs)
  {
    if ls != [] {
      SeenIsGiven(ls[1..], vs, SeenWith(ls[0], vs, seen));
    }
  }

  lemma {:induction false} FilterFinds(ls: seq<string>, keep: string -> bool, i: nat)
    requires i < |ls| && keep(ls[i])
    ensures |Filter(ls, keep)| > 0
  {
    if i > 0 {
      FilterFinds(ls[1..], keep, i - 1);
    }
  }

  /** The set that is returned: the given keys for which the old content had an assignment. */
  lemma ReturnedKeys(s: string, vs: seq<Setting>, key: string)
    ensures key in Seen(SplitAfter(s), vs, {}) <==>
            key in Keys(vs) && exists i :: 0 <= i < |SplitAfter(s)| && Sets(SplitAfter(s)[i], key)
  {
    var ls := SplitAfter(s);
    SeenIsGiven(ls, vs, {});
    if key in Keys(vs) {
      SeenMeans(ls, vs, {}, key);
      FilterMembers(ls, Setter(key));
      if Filter(ls, Setter(key)) != [] {
        var l := Filter(ls, Setter(key))[0];
        var i :| 0 <= i < |ls| && ls[i] == l;
        assert Sets(ls[i], key);
      }
      if i :| 0 <= i < |ls| && Sets(ls[i], key) {
        FilterFinds(ls, Setter(key), i);
      }
    }
  }

  lemma {:induction false} NothingMissing(vs: seq<Setting>, seen: set<string>)
    requires Keys(vs) <= seen
    ensures Missing(vs, seen) == []
  {
    if vs != [] {
      assert vs[0].key in Keys(vs);
      assert Keys(vs[1..]) <= Keys(vs) by {
        assert forall i | 0 <= i < |vs| - 1 :: vs[1..][i] == vs[i + 1];
      }
      NothingMissing(vs[1..], seen);
    }
  }

  /** Updating twice is updating once. */
  lemma UpsertIsFixed(s: string, vs: seq<Setting>)
    requires ValidSettings(vs)
    ensures Upserted(Upserted(s, vs), vs) == Upserted(s, vs)
  {
    var next := Upserted(s, vs);
    var ls := SplitAfter(next);
    forall key <- Keys(vs)
      ensures Filter(ls, Setter(key)) == [WrittenFor(vs, key)] && key in Seen(ls, vs, {})
    {
      OneAssignmentEach(s, vs, key);
      SeenMeans(ls, vs, {}, key);
    }
    SettledStays(ls, vs, {});
    NothingMissing(vs, Seen(ls, vs, {}));
    ConcatSplit(next);
    UpsertedIsClosed(s, vs);
  }

  lemma UpsertedIsClosed(s: string, vs: seq<Setting>)
    requires ValidSettings(vs)
    ensures Closed(Upserted(s, vs))
  {
    MissingFull(vs, Seen(SplitAfter(s), vs, {}));
    FullIsClosed(Missing(vs, Seen(SplitAfter(s), vs, {})));
  }

  // ----- What counts as an assignment -----

  /** The key between blanks in front of the first '='. */
  predicate AssignedAt(line: string, n: nat, key: string) {
    n < |line| && line[n] == '=' && '=' !in line[..n] && Trim(line[..n]) == key
  }

  /** The parts of a line around the first '=' of its trimmed text. */
  lemma TrimmedParts(line: string, n: nat)
    requires n < |line| && line[n] == '=' && '=' !in line[..n]
    ensures IndexOf(Trim(line), '=') >= 0 && Trim(line) != ""
    ensures Trim(Trim(line)[..IndexOf(Trim(line), '=')]) == Trim(line[..n])
    ensures Trim(line[..n]) != "" ==> Trim(line)[0] == Trim(line[..n])[0]
  {
    hide TrimLeft, TrimRight, IsBlank;
    var a, rest := line[..n], line[n + 1..];
    assert line == a + ("=" + rest);
    var u := TrimLeft(a);
    KeyOfTrimmed(a, rest, u);
    assert Trim(line)[..|u|] == u;
    FirstIndexOf(Trim(line), '=', |u|);
    if u != "" {
      TrimRightFirst(u);
    }
  }

  /** Trimming leaves the trimmed front of the key, and the '=' behind it. */
  lemma KeyOfTrimmed(a: string, rest: string, u: string)
    requires '=' !in a && u == TrimLeft(a)
    ensures u + "=" <= Trim(a + ("=" + rest)) && '=' !in u && TrimLeft(u) == u
    ensures Trim(a + ("=" + rest))[|u|] == '='
  {
    hide TrimRight;
    var front, s := u + "=", a + ("=" + rest);
    FrontOfTrimmed(a, rest, u);
    TrimmedKeeps(front, rest);
    NoEqInside(a, u);
    assert front <= Trim(s) && Trim(s)[|u|] == front[|u|];
  }

  lemma FrontOfTrimmed(a: string, rest: string, u: string)
    requires u == TrimLeft(a)
    ensures TrimLeft(a + ("=" + rest)) == (u + "=") + rest
  {
    var s := "=" + rest;
    assert (u + "=") + rest == u + s && a + "" == a;
    if AllBlank(a) {
      TrimLeftBlanks(a, s);
      TrimLeftBlanks(a, "");
      assert "" + s == s;
    } else {
      TrimLeftKeeps(a, s);
    }
  }

  lemma NoEqInside(a: string, u: string)
    requires '=' !in a && u == TrimLeft(a)
    ensures '=' !in u
  {
    TrimLeftIsEnd(a);
    forall c | c in u
      ensures c in a
    {
      var i :| 0 <= i < |u| && u[i] == c;
      assert a[|a| - |u| + i] == c;
    }
  }

  lemma {:induction false} TrimRightFirst(u: string)
    requires u != "" && !IsBlank(u[0])
    ensures TrimRight(u) != "" && TrimRight(u)[0] == u[0]
  {
    if IsBlank(u[|u| - 1]) {
      assert u[..|u| - 1][0] == u[0];
      TrimRightFirst(u[..|u| - 1]);
    }
  }

  /** A line sets a valid key exactly when that key, between blanks, is what stands in front of its first '='. */
  lemma SetsMeans(line: string, key: string)
    requires ValidKey(key)
    ensures Sets(line, key) <==> exists n: nat :: AssignedAt(line, n, key)
  {
    if n: nat :| AssignedAt(line, n, key) {
      TrimmedParts(line, n);
    }
    if Sets(line, key) {
      var t := Trim(line);
      var eq := IndexOf(t, '=');
      TrimLeftIsEnd(line);
      var u := TrimLeft(line);
      assert u[eq] == t[eq] == '=' && '=' in line by {
        assert line[|line| - |u| + eq] == u[eq];
      }
      var n := IndexOf(line, '=');
      assert line[n] == '=' && '=' !in line[..n];
      TrimmedParts(line, n);
      assert AssignedAt(line, n, key);
    }
  }

  // ----- Removing a key -----

  predicate LineStart(s: string, p: nat)
    requires p <= |s|
  {
    p == 0 || IsTerminator(s[p - 1])
  }

  /** No character of the key has a meaning of its own in a regular expression. */
  predicate MeansItself(key: string) {
    forall c <- key :: c !in "\\^$.*+?()[]{}|"
  }

  /** The multiline pattern ^KEY= matches at p. */
  predicate MatchAt(s: string, p: nat, key: string) {
    p + |key| + 1 <= |s| && LineStart(s, p) && s[p..p + |key| + 1] == key + "="
  }

  function FirstMatch(s: string, key: string, p: nat): (q: Option<nat>)
    requires p <= |s|
    ensures q.Some? ==> p <= q.value && MatchAt(s, q.value, key)
    decreases |s| - p
  {
    if MatchAt(s, p, key) then Some(p) else if p == |s| then None else FirstMatch(s, key, p + 1)
  }

  /** Where .* stops. */
  function RestOfMatch(s: string, p: nat): (e: nat)
    requires p <= |s|
    ensures p <= e <= |s|
    decreases |s| - p
  {
    if p == |s| || IsTerminator(s[p]) then p else RestOfMatch(s, p + 1)
  }

  function MatchEnd(s: string, p: nat, key: string): (e: nat)
    requires MatchAt(s, p, key)
    ensures p < e <= |s|
  {
    var e := RestOfMatch(s, p + |key| + 1);
    if e < |s| && s[e] == '\n' then e + 1 else e
  }

  function Removed(s: string, key: string): string {
    match FirstMatch(s, key, 0)
    case None => s
    case Some(p) => s[..p] + s[MatchEnd(s, p, key)..]
  }

  // ----- The file -----

  method CheckSettings(values: seq<Setting>) returns (refused: Option<string>)
    requires Distinct(values)
    ensures refused.None? <==> ValidSettings(values)
    ensures refused.Some? <==>
              exists i :: 0 <= i < |values| &&
                var Setting(key, value) := values[i];
                || key == "" || !('A' <= key[0] <= 'Z')
                || (exists c :: c in key && !('A' <= c <= 'Z') && !('0' <= c <= '9') && c != '_')
                || '\r' in value || '\n' in value || '\0' in value
  {
    for i := 0 to |values|
      invariant forall k | 0 <= k < i :: ValidKey(values[k].key) && ValidValue(values[k].value)
    {
      if !ValidKey(values[i].key) {
        return Some("Invalid env key");
      }
      if !ValidValue(values[i].value) {
        return Some("Invalid multiline env value");
      }
    }
    refused := None;
  }

  method EditLine(line: string, values: seq<Setting>, existed: set<string>) returns (piece: string)
    ensures piece == Concat(Edited(line, values, existed))
  {
    var key := LineKey(line);
    if key.None? || key.value !in Keys(values) {
      return line;
    }
    if key.value in existed {
      return "";
    }
    piece := key.value + "=" + ValueOf(values, key.value) + "\n";
  }

  lemma NextLine(lines: seq<string>, i: nat, values: seq<Setting>, existed: set<string>, next: string)
    requires i < |lines|
    ensures var after := SeenWith(lines[i], values, existed);
            && next + Concat(Rewritten(lines[i..], values, existed))
               == next + Concat(Edited(lines[i], values, existed)) + Concat(Rewritten(lines[i + 1..], values, after))
            && Seen(lines[i..], values, existed) == Seen(lines[i + 1..], values, after)
  {
    var rest := Rewritten(lines[i + 1..], values, SeenWith(lines[i], values, existed));
    assert lines[i..][0] == lines[i] && lines[i..][1..] == lines[i + 1..];
    ConcatAppend(Edited(lines[i], values, existed), rest);
    Assoc(next, Concat(Edited(lines[i], values, existed)), Concat(rest));
  }

  method RewriteLines(lines: seq<string>, values: seq<Setting>) returns (next: string, existed: set<string>)
    ensures next == Concat(Rewritten(lines, values, {})) && existed == Seen(lines, values, {})
  {
    next, existed := "", {};
    var i := 0;
    assert lines[0..] == lines;
    while i < |lines|
      invariant 0 <= i <= |lines|
      invariant next + Concat(Rewritten(lines[i..], values, existed)) == Concat(Rewritten(lines, values, {}))
      invariant Seen(lines[i..], values, existed) == Seen(lines, values, {})
    {
      NextLine(lines, i, values, existed, next);
      var piece := EditLine(lines[i], values, existed);
      next := next + piece;
      existed := SeenWith(lines[i], values, existed);
      i := i + 1;
    }
  }

  lemma NextMissing(values: seq<Setting>, i: nat, existed: set<string>, added: string)
    requires i < |values|
    ensures added + Concat(Missing(values[i..], existed)) ==
            added + (if values[i].key in existed then "" else Written(values[i].key, values[i].value))
            + Concat(Missing(values[i + 1..], existed))
  {
    var rest := Missing(values[i + 1..], existed);
    var line := Written(values[i].key, values[i].value);
    assert values[i..][0] == values[i] && values[i..][1..] == values[i + 1..];
    if values[i].key in existed {
      assert [] + rest == rest;
      assert added + "" == added;
    } else {
      ConcatAppend([line], rest);
      assert Concat([line]) == line;
      Assoc(added, line, Concat(rest));
    }
  }

  method AddMissing(values: seq<Setting>, existed: set<string>) returns (added: string)
    ensures added == Concat(Missing(values, existed))
  {
    added := "";
    var i := 0;
    assert values[0..] == values;
    while i < |values|
      invariant 0 <= i <= |values|
      invariant added + Concat(Missing(values[i..], existed)) == Concat(Missing(values, existed))
    {
      NextMissing(values, i, existed, added);
      if values[i].key !in existed {
        added := added + (values[i].key + "=" + values[i].value + "\n");
      }
      i := i + 1;
    }
  }

  class EnvStore {
    /** None: there is no file. */
    var content: Option<string>

    function Text(): string
      reads this
    {
      if content.Some? then content.value else ""
    }

    /** The rewrite; a failed write or rename leaves the file as it was. */
    method UpsertEnvVars(values: seq<Setting>, fails: bool) returns (result: Result<set<string>, string>)
      requires Distinct(values)
      modifies this
      ensures result.Ok? <==> ValidSettings(values) && !fails
      ensures result.Err? ==> content == old(content)
      ensures result.Ok? ==> content == Some(Upserted(old(Text()), values))
      ensures result.Ok? ==> result.value == Seen(SplitAfter(old(Text())), values, {})
    {
      var refused := CheckSettings(values);
      if refused.Some? {
        return Err(refused.value);
      }
      var next, existed := RewriteLines(SplitAfter(Text()), values);
      if next != "" && next[|next| - 1] != '\n' {
        next := next + "\n";
      }
      var added := AddMissing(values, existed);
      if fails {
        return Err("write failed");
      }
      content := Some(next + added);
      result := Ok(existed);
    }

    /** The key means itself: the source puts it into a regular expression as it is. */
    method RemoveEnvVar(key: string) returns (existed: bool)
      requires MeansItself(key)
      modifies this
      ensures existed <==> old(content).Some? && FirstMatch(old(Text()), key, 0).Some?
      ensures content == if old(content).Some? then Some(Removed(old(Text()), key)) else None
    {
      if content.None? {
        return false;
      }
      var at := FirstMatch(content.value, key, 0);
      if at.None? {
        return false;
      }
      content := Some(content.value[..at.value] + content.value[MatchEnd(content.value, at.value, key)..]);
      existed := true;
    }
  }
}
