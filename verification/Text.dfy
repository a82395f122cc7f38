/** Lines and blanks: the string operations the text rewriters share. */
module Text {

  predicate IsBlank(c: char) {
    || c in {' ', '\t', '\n', '\r', '\U{0B}', '\U{0C}', '\U{A0}', '\U{FEFF}', '\U{2028}', '\U{2029}'}
    || c in {'\U{1680}', '\U{202F}', '\U{205F}', '\U{3000}'} || '\U{2000}' <= c <= '\U{200A}'
  }

  /** What `.` and `$` of a regular expression stop at. */
  predicate IsTerminator(c: char) {
    c in {'\n', '\r', '\U{2028}', '\U{2029}'}
  }

  predicate IsIdentStart(c: char) {
    'a' <= c <= 'z' || 'A' <= c <= 'Z' || c == '_'
  }

  predicate IsIdentPart(c: char) {
    IsIdentStart(c) || '0' <= c <= '9'
  }

  predicate IsIdent(s: string) {
    s != "" && IsIdentStart(s[0]) && forall i | 0 <= i < |s| :: IsIdentPart(s[i])
  }

  /** Where a run of identifier characters ends. */
  function IdentEnd(r: string, i: nat): (k: nat)
    requires i <= |r|
    ensures i <= k <= |r|
    decreases |r| - i
  {
    if i < |r| && IsIdentPart(r[i]) then IdentEnd(r, i + 1) else i
  }

  lemma {:induction false} IdentEndMeans(r: string, i: nat)
    requires i <= |r|
    ensures forall q | i <= q < IdentEnd(r, i) :: IsIdentPart(r[q])
    ensures IdentEnd(r, i) < |r| ==> !IsIdentPart(r[IdentEnd(r, i)])
    decreases |r| - i
  {
    if i < |r| && IsIdentPart(r[i]) {
      IdentEndMeans(r, i + 1);
    }
  }

  function TrimLeft(s: string): (t: string)
    ensures t == "" || !IsBlank(t[0])
    ensures |t| <= |s|
  {
    if s != "" && IsBlank(s[0]) then TrimLeft(s[1..]) else s
  }

  function TrimRight(s: string): (t: string)
    ensures t == "" || !IsBlank(t[|t| - 1])
    ensures t <= s
  {
    if s != "" && IsBlank(s[|s| - 1]) then TrimRight(s[..|s| - 1]) else s
  }

  function Trim(s: string): string {
    TrimRight(TrimLeft(s))
  }

  lemma {:induction false} TrimLeftIsEnd(s: string)
    ensures TrimLeft(s) == s[|s| - |TrimLeft(s)|..]
  {
    if s != "" && IsBlank(s[0]) {
      TrimLeftIsEnd(s[1..]);
    }
  }

  lemma Assoc<T>(a: seq<T>, b: seq<T>, c: seq<T>)
    ensures a + (b + c) == a + b + c
  {
  }

  lemma Uncons<T>(a: seq<T>, b: seq<T>)
    requires a != []
    ensures (a + b)[0] == a[0] && (a + b)[1..] == a[1..] + b
  {
  }

  predicate Trimmed(s: string) {
    s == "" || (!IsBlank(s[0]) && !IsBlank(s[|s| - 1]))
  }

  lemma TrimOfTrimmed(s: string)
    requires Trimmed(s)
    ensures Trim(s) == s
  {
  }

  /** s.split('\n') */
  function Split(s: string): (ls: seq<string>)
    ensures |ls| >= 1
  {
    if s == "" then [""]
    else
      var rest := Split(s[1..]);
      if s[0] == '\n' then [""] + rest else Prefixed(s[0], rest)
  }

  function Prefixed(c: char, ls: seq<string>): seq<string>
    requires ls != []
  {
    [[c] + ls[0]] + ls[1..]
  }

  predicate OneLine(s: string) {
    '\n' !in s
  }

  lemma {:induction false} SplitOneLine(s: string)
    ensures forall i | 0 <= i < |Split(s)| :: OneLine(Split(s)[i])
  {
    if s != "" {
      SplitOneLine(s[1..]);
      var rest := Split(s[1..]);
      if s[0] == '\n' {
        assert forall i | 0 < i < |Split(s)| :: Split(s)[i] == rest[i - 1];
      } else {
        assert Split(s)[0] == [s[0]] + rest[0];
        assert forall i | 0 < i < |Split(s)| :: Split(s)[i] == rest[i];
      }
    }
  }

  lemma PrefixedConcat(c: char, ls: seq<string>, ms: seq<string>)
    requires ls != []
    ensures Prefixed(c, ls + ms) == Prefixed(c, ls) + ms
  {
    assert (ls + ms)[1..] == ls[1..] + ms;
  }

  /** ls.join('\n') */
  function Join(ls: seq<string>): string {
    if ls == [] then ""
    else if |ls| == 1 then ls[0]
    else ls[0] + "\n" + Join(ls[1..])
  }

  lemma {:induction false} JoinSplit(s: string)
    ensures Join(Split(s)) == s
  {
    if s != "" {
      JoinSplit(s[1..]);
      var rest := Split(s[1..]);
      if s[0] != '\n' {
        assert Split(s)[1..] == rest[1..];
        if |rest| > 1 {
          assert Join(Split(s)) == [s[0]] + (rest[0] + "\n" + Join(rest[1..]));
        }
      } else {
        assert Split(s)[1..] == rest;
      }
    }
  }

  lemma {:induction false} SplitPlain(s: string)
    requires '\n' !in s
    ensures Split(s) == [s]
  {
    if s != "" {
      assert s[0] in s && forall c <- s[1..] :: c in s;
      SplitPlain(s[1..]);
      assert [s[0]] + s[1..] == s;
    }
  }

  lemma {:induction false} SplitAt(s: string, t: string)
    ensures Split(s + "\n" + t) == Split(s) + Split(t)
  {
    var whole := s + "\n" + t;
    if s == "" {
      assert whole[1..] == t && whole[0] == '\n';
    } else {
      SplitAt(s[1..], t);
      assert whole[1..] == s[1..] + "\n" + t && whole[0] == s[0];
      if s[0] == '\n' {
        assert [""] + (Split(s[1..]) + Split(t)) == ([""] + Split(s[1..])) + Split(t);
      } else {
        PrefixedConcat(s[0], Split(s[1..]), Split(t));
      }
    }
  }

  lemma {:induction false} SplitJoin(ls: seq<string>)
    requires ls != [] && forall i | 0 <= i < |ls| :: OneLine(ls[i])
    ensures Split(Join(ls)) == ls
  {
    SplitPlain(ls[0]);
    if |ls| > 1 {
      SplitJoin(ls[1..]);
      SplitAt(ls[0], Join(ls[1..]));
      assert [ls[0]] + ls[1..] == ls;
    }
  }

  lemma {:induction false} JoinAppend(ls: seq<string>, ms: seq<string>)
    requires ls != [] && ms != []
    ensures Join(ls + ms) == Join(ls) + "\n" + Join(ms)
  {
    if |ls| == 1 {
      assert (ls + ms)[1..] == ms;
    } else {
      JoinAppend(ls[1..], ms);
      assert (ls + ms)[1..] == ls[1..] + ms;
      assert ls[0] + "\n" + (Join(ls[1..]) + "\n" + Join(ms)) == (ls[0] + "\n" + Join(ls[1..])) + "\n" + Join(ms);
    }
  }

  predicate EndsWithNewline(s: string) {
    s != "" && s[|s| - 1] == '\n'
  }

  /** Content that appends may extend without adding a line break first. */
  predicate Closed(s: string) {
    s == "" || EndsWithNewline(s)
  }

  /** appendFileSync of one more line, after a line break if the last line lacks one. */
  function AppendLine(s: string, line: string): string {
    s + (if Closed(s) then "" else "\n") + line + "\n"
  }

  /** The lines of a closed text, without the empty rest after the last line break. */
  function Lines(s: string): seq<string>
    requires Closed(s)
  {
    if s == "" then [] else Split(s[..|s| - 1])
  }

  lemma SplitClosed(s: string)
    requires Closed(s)
    ensures Split(s) == Lines(s) + [""]
  {
    if s != "" {
      assert s == s[..|s| - 1] + "\n" + "";
      SplitAt(s[..|s| - 1], "");
    }
  }

  lemma SplitAppendLine(s: string, line: string)
    ensures Split(AppendLine(s, line)) == (if Closed(s) then Lines(s) else Split(s)) + Split(line) + [""]
  {
    var head := if Closed(s) then s else s + "\n";
    if head == "" {
      assert AppendLine(s, line) == line + "\n" + "";
      SplitAt(line, "");
    } else {
      var u := head[..|head| - 1];
      assert AppendLine(s, line) == u + "\n" + (line + "\n" + "");
      SplitAt(u, line + "\n" + "");
      SplitAt(line, "");
    }
  }

  function Filter(ls: seq<string>, keep: string -> bool): seq<string> {
    if ls == [] then []
    else (if keep(ls[0]) then [ls[0]] else []) + Filter(ls[1..], keep)
  }

  lemma {:induction false} FilterMembers(ls: seq<string>, keep: string -> bool)
    ensures forall i | 0 <= i < |Filter(ls, keep)| :: Filter(ls, keep)[i] in ls && keep(Filter(ls, keep)[i])
  {
    if ls != [] {
      FilterMembers(ls[1..], keep);
      assert ls[0] in ls && forall l <- ls[1..] :: l in ls;
    }
  }

  lemma {:induction false} FilterAppend(ls: seq<string>, ms: seq<string>, keep: string -> bool)
    ensures Filter(ls + ms, keep) == Filter(ls, keep) + Filter(ms, keep)
  {
    if ls == [] {
      assert ls + ms == ms;
    } else {
      FilterAppend(ls[1..], ms, keep);
      assert (ls + ms)[1..] == ls[1..] + ms && (ls + ms)[0] == ls[0];
      var first := if keep(ls[0]) then [ls[0]] else [];
      assert first + (Filter(ls[1..], keep) + Filter(ms, keep)) == (first + Filter(ls[1..], keep)) + Filter(ms, keep);
    }
  }

  lemma {:induction false} FilterLength(ls: seq<string>, keep: string -> bool)
    ensures |Filter(ls, keep)| <= |ls|
    ensures |Filter(ls, keep)| == |ls| <==> forall i | 0 <= i < |ls| :: keep(ls[i])
    ensures (forall i | 0 <= i < |ls| :: keep(ls[i])) ==> Filter(ls, keep) == ls
  {
    if ls != [] {
      FilterLength(ls[1..], keep);
      assert forall i | 1 <= i < |ls| :: ls[i] == ls[1..][i - 1];
      assert forall i | 0 <= i < |ls| - 1 :: ls[1..][i] == ls[i + 1];
    }
  }

  lemma {:induction false} FilterSame(ls: seq<string>, one: string -> bool, other: string -> bool)
    requires forall l <- ls :: one(l) <==> other(l)
    ensures Filter(ls, one) == Filter(ls, other)
  {
    if ls != [] {
      assert ls[0] in ls && forall l <- ls[1..] :: l in ls;
      FilterSame(ls[1..], one, other);
    }
  }

  lemma {:induction false} FilterTwice(ls: seq<string>, first: string -> bool, second: string -> bool, both: string -> bool)
    requires forall l: string :: both(l) <==> first(l) && second(l)
    ensures Filter(Filter(ls, first), second) == Filter(ls, both)
  {
    if ls != [] {
      FilterTwice(ls[1..], first, second, both);
      var head := if first(ls[0]) then [ls[0]] else [];
      FilterAppend(head, Filter(ls[1..], first), second);
      assert head != [] ==> head[1..] == [];
    }
  }

  /** Where a line is put does not matter to a filter that drops it. */
  lemma FilterInsert(ls: seq<string>, ms: seq<string>, line: string, keep: string -> bool)
    requires !keep(line)
    ensures Filter(ls + [line] + ms, keep) == Filter(ls + ms, keep)
  {
    FilterAppend(ls + [line], ms, keep);
    FilterAppend(ls, [line], keep);
    FilterAppend(ls, ms, keep);
    assert [line][1..] == [];
  }

  /** Blanks in front of a line do not change its trimmed text. */
  lemma {:induction false} TrimLeftBlanks(w: string, s: string)
    requires forall c <- w :: IsBlank(c)
    ensures TrimLeft(w + s) == TrimLeft(s)
  {
    if w == "" {
      assert w + s == s;
    } else {
      assert w[0] in w && forall c <- w[1..] :: c in w;
      TrimLeftBlanks(w[1..], s);
      assert (w + s)[1..] == w[1..] + s;
    }
  }

  predicate AllBlank(s: string) {
    forall c <- s :: IsBlank(c)
  }

  lemma {:induction false} TrimLeftKeeps(s: string, t: string)
    requires !AllBlank(s)
    ensures TrimLeft(s) != "" && TrimLeft(s + t) == TrimLeft(s) + t
  {
    if IsBlank(s[0]) {
      assert !AllBlank(s[1..]) by {
        assert s == [s[0]] + s[1..];
      }
      TrimLeftKeeps(s[1..], t);
      assert (s + t)[1..] == s[1..] + t;
    }
  }

  lemma {:induction false} TrimRightBlanks(s: string, w: string)
    requires AllBlank(w)
    ensures TrimRight(s + w) == TrimRight(s)
  {
    if w == "" {
      assert s + w == s;
    } else {
      var n := |w| - 1;
      assert w[n] in w && forall c <- w[..n] :: c in w;
      TrimRightBlanks(s, w[..n]);
      assert (s + w)[..|s + w| - 1] == s + w[..n];
    }
  }

  lemma {:induction false} TrimRightKeeps(s: string, t: string)
    requires !AllBlank(t)
    ensures TrimRight(s + t) == s + TrimRight(t)
  {
    var n := |t| - 1;
    if IsBlank(t[n]) {
      assert !AllBlank(t[..n]) by {
        assert t == t[..n] + [t[n]];
      }
      TrimRightKeeps(s, t[..n]);
      assert (s + t)[..|s + t| - 1] == s + t[..n];
    }
  }

  /** What stands before the first non-blank character. */
  function Indent(l: string): string {
    l[..|l| - |TrimLeft(l)|]
  }

  lemma {:induction false} IndentIsBlank(l: string)
    ensures forall c <- Indent(l) :: IsBlank(c)
  {
    if l != "" && IsBlank(l[0]) {
      IndentIsBlank(l[1..]);
      assert Indent(l) == [l[0]] + Indent(l[1..]);
    }
  }

  function IndexOf(s: string, c: char): (i: int)
    ensures -1 <= i < |s|
    ensures i >= 0 ==> s[i] == c && c !in s[..i]
    ensures i < 0 ==> c !in s
  {
    if s == "" then -1
    else if s[0] == c then 0
    else
      var i := IndexOf(s[1..], c);
      if i < 0 then -1 else i + 1
  }

  lemma {:induction false} FirstIndexOf(s: string, c: char, n: nat)
    requires n < |s| && s[n] == c && c !in s[..n]
    ensures IndexOf(s, c) == n
  {
    if n > 0 {
      assert s[..n][0] == s[0] && s[0] in s[..n];
      assert s[..n] == [s[0]] + s[1..][..n - 1];
      FirstIndexOf(s[1..], c, n - 1);
    }
  }

  /** The text t stands in s at position p. */
  predicate StandsAt(s: string, p: nat, t: string) {
    p + |t| <= |s| && s[p..p + |t|] == t
  }

  predicate StartsWith(s: string, t: string) {
    t <= s
  }

  /** s[..i] for the first i where `t` occurs, and what follows that occurrence. */
  function Cut(s: string, t: string): (r: (string, bool, string))
    requires t != ""
    ensures r.1 ==> s == r.0 + t + r.2
    ensures !r.1 ==> r.0 == s
  {
    if |s| < |t| then (s, false, "")
    else if t <= s then ("", true, s[|t|..])
    else
      var r := Cut(s[1..], t);
      ([s[0]] + r.0, r.1, r.2)
  }

  predicate Contains(s: string, t: string) {
    t == "" || Cut(s, t).1
  }
}
