/**
 removeEnvVar of nanoclaw/setup/set-env.ts after an update. Its multiline pattern takes carriage
 returns and Unicode line ends for line ends, which the reader of the file does not; so what it
 takes out is the first match, in whichever line, and not always the assignment.
 */
module EnvRemoval {
  import opened Wrappers
  import opened Text
  import opened EnvFile

  lemma StartsWithKey(line: string, key: string)
    requires ValidKey(key) && key + "=" <= line
    ensures Sets(line, key)
  {
    ValidKeyIsPlain(key);
    var front := key + "=";
    assert line == front + line[|front|..] && line[0] == front[0] == key[0];
    assert TrimLeft(line) == line;
    TrimmedKeeps(front, line[|front|..]);
    KeyIsRead(key, Trim(line));
    TrimOfTrimmed(key);
  }

  // ----- The first match -----

  lemma {:induction false} FirstMatchIs(s: string, key: string, i: nat, p: nat)
    requires i <= p <= |s| && MatchAt(s, p, key) && forall q: nat | i <= q < p :: !MatchAt(s, q, key)
    ensures FirstMatch(s, key, i) == Some(p)
    decreases p - i
  {
    if i < p {
      FirstMatchIs(s, key, i + 1, p);
    }
  }

  lemma {:induction false} NoneBeforeFirst(s: string, key: string, i: nat, k: nat)
    requires i <= k <= |s| && (FirstMatch(s, key, i).Some? ==> k < FirstMatch(s, key, i).value)
    ensures !MatchAt(s, k, key)
    decreases k - i
  {
    if i < k {
      NoneBeforeFirst(s, key, i + 1, k);
    }
  }

  lemma RemovedIs(s: string, key: string, p: nat, e: nat)
    requires FirstMatch(s, key, 0) == Some(p) && MatchEnd(s, p, key) == e
    ensures Removed(s, key) == s[..p] + s[e..]
  {
  }

  // ----- What a removal cuts out of any text -----

  /** The four characters that end a line for a pattern. */
  predicate EndsLine(c: char) {
    c == '\n' || c == '\r' || c == '\U{2028}' || c == '\U{2029}'
  }

  /** The key and its `=` stand at p, in front of the text or behind a line end. */
  predicate FoundAt(s: string, p: nat, key: string) {
    StandsAt(s, p, key + "=") && (p == 0 || EndsLine(s[p - 1]))
  }

  lemma FoundIsMatch(s: string, p: nat, key: string)
    ensures FoundAt(s, p, key) <==> MatchAt(s, p, key)
  {
  }

  /** The first place where the key is found is cut out up to its line end, and a line feed with it. */
  lemma CutOut(s: string, key: string, p: nat, e: nat)
    requires FoundAt(s, p, key) && forall q: nat | q < p :: !FoundAt(s, q, key)
    requires p + |key| < e <= |s| && (forall q | p + |key| < q < e :: !EndsLine(s[q])) && (e < |s| ==> EndsLine(s[e]))
    ensures Removed(s, key) == s[..p] + if e < |s| && s[e] == '\n' then s[e + 1..] else s[e..]
  {
    hide FoundAt, MatchAt, IsTerminator, RestOfMatch, FirstMatch, Removed, MatchEnd;
    FoundIsMatch(s, p, key);
    forall q: nat | q < p
      ensures !MatchAt(s, q, key)
    {
      FoundIsMatch(s, q, key);
    }
    FirstMatchIs(s, key, 0, p);
    EndOfMatch(s, key, p, e);
    RemovedIs(s, key, p, MatchEnd(s, p, key));
  }

  lemma EndOfMatch(s: string, key: string, p: nat, e: nat)
    requires MatchAt(s, p, key)
    requires p + |key| < e <= |s| && (forall q | p + |key| < q < e :: !EndsLine(s[q])) && (e < |s| ==> EndsLine(s[e]))
    ensures MatchEnd(s, p, key) == if e < |s| && s[e] == '\n' then e + 1 else e
  {
    RestSkips(s, p + |key| + 1, e);
  }

  /** A text in which the key is found nowhere stays as it is. */
  lemma NothingCut(s: string, key: string)
    requires forall p: nat | p <= |s| :: !FoundAt(s, p, key)
    ensures Removed(s, key) == s
  {
    if FirstMatch(s, key, 0).Some? {
      FoundIsMatch(s, FirstMatch(s, key, 0).value, key);
    }
  }

  // ----- One line -----

  /** The pattern matches somewhere in a line. */
  predicate Matches(l: string, key: string) {
    FirstMatch(l, key, 0).Some?
  }

  /** It matches, though not at the front. */
  predicate Hides(l: string, key: string) {
    exists k :: 0 < k <= |l| && MatchAt(l, k, key)
  }

  lemma KeyHasNoBreak(key: string)
    requires ValidKey(key)
    ensures '\n' !in key + "=" && !IsTerminator('=')
  {
    ValidKeyIsPlain(key);
  }

  /** What a match needs does not reach over the end of its line. */
  lemma MatchInLine(head: string, l: string, tail: string, k: nat, key: string)
    requires Closed(head) && IsFull(l) && k < |l| && ValidKey(key)
    ensures MatchAt(head + l + tail, |head| + k, key) <==> MatchAt(l, k, key)
  {
    var s, n := head + l + tail, |key| + 1;
    KeyHasNoBreak(key);
    assert k > 0 ==> s[|head| + k - 1] == l[k - 1];
    assert k == 0 && head != "" ==> s[|head| - 1] == head[|head| - 1] == '\n';
    if k + n <= |l| {
      assert s[|head| + k..|head| + k + n] == l[k..k + n];
    } else if |head| + k + n <= |s| {
      var text := s[|head| + k..|head| + k + n];
      assert text[|l| - 1 - k] == s[|head| + |l| - 1] == '\n';
      assert '\n' in text;
    }
  }

  lemma {:induction false} RestInLine(head: string, l: string, tail: string, k: nat)
    requires IsFull(l) && k < |l|
    ensures RestOfMatch(l, k) < |l|
    ensures RestOfMatch(head + l + tail, |head| + k) == |head| + RestOfMatch(l, k)
    decreases |l| - k
  {
    assert (head + l + tail)[|head| + k] == l[k];
    if !IsTerminator(l[k]) {
      RestInLine(head, l, tail, k + 1);
    }
  }

  lemma EndInLine(head: string, l: string, tail: string, k: nat, key: string)
    requires Closed(head) && IsFull(l) && k < |l| && ValidKey(key) && MatchAt(l, k, key)
    ensures MatchAt(head + l + tail, |head| + k, key)
    ensures MatchEnd(head + l + tail, |head| + k, key) == |head| + MatchEnd(l, k, key)
  {
    MatchInLine(head, l, tail, k, key);
    FitsBeforeBreak(l, k, key);
    RestInLine(head, l, tail, k + |key| + 1);
    var e := RestOfMatch(l, k + |key| + 1);
    assert (head + l + tail)[|head| + e] == l[e];
  }

  lemma FitsBeforeBreak(l: string, k: nat, key: string)
    requires IsFull(l) && ValidKey(key) && MatchAt(l, k, key)
    ensures k + |key| + 1 < |l|
  {
    KeyHasNoBreak(key);
    var text := l[k..k + |key| + 1];
    assert text == key + "=" && text[|key|] == '=';
    assert l[k + |key|] == text[|key|];
  }

  // ----- The first line with a match -----

  lemma {:induction false} NoMatchBefore(before: seq<string>, rest: string, key: string, q: nat)
    requires AllFull(before) && ValidKey(key) && (forall l <- before :: !Matches(l, key)) && q < |Concat(before)|
    ensures !MatchAt(Concat(before) + rest, q, key)
  {
    var l, tail := before[0], Concat(before[1..]) + rest;
    Assoc(l, Concat(before[1..]), rest);
    assert Concat(before) + rest == "" + l + tail;
    assert l in before && forall x <- before[1..] :: x in before;
    if q < |l| {
      NoneBeforeFirst(l, key, 0, q);
      MatchInLine("", l, tail, q, key);
    } else {
      NoMatchBefore(before[1..], rest, key, q - |l|);
      ShiftedMatch(l, tail, q - |l|, key);
    }
  }

  lemma ShiftedMatch(l: string, tail: string, q: nat, key: string)
    requires IsFull(l) && q < |tail|
    ensures MatchAt(l + tail, |l| + q, key) <==> MatchAt(tail, q, key)
  {
    var s, n := l + tail, |key| + 1;
    assert s[|l| + q - 1] == if q > 0 then tail[q - 1] else '\n';
    if |l| + q + n <= |s| {
      assert s[|l| + q..|l| + q + n] == tail[q..q + n];
    }
  }

  lemma FirstMatchInLines(before: seq<string>, hit: string, tail: string, key: string, k: nat)
    requires AllFull(before) && IsFull(hit) && ValidKey(key) && (forall l <- before :: !Matches(l, key))
    requires FirstMatch(hit, key, 0) == Some(k) && k < |hit|
    ensures FirstMatch(Concat(before) + hit + tail, key, 0) == Some(|Concat(before)| + k)
  {
    var head := Concat(before);
    var s := head + hit + tail;
    FullIsClosed(before);
    MatchInLine(head, hit, tail, k, key);
    forall q: nat | q < |head| + k
      ensures !MatchAt(s, q, key)
    {
      NoMatchInFront(before, hit, tail, key, k, q, s);
    }
    FirstMatchIs(s, key, 0, |head| + k);
  }

  lemma NoMatchInFront(before: seq<string>, hit: string, tail: string, key: string, k: nat, q: nat, s: string)
    requires AllFull(before) && IsFull(hit) && ValidKey(key) && (forall l <- before :: !Matches(l, key))
    requires FirstMatch(hit, key, 0) == Some(k) && k < |hit| && s == Concat(before) + hit + tail && q < |Concat(before)| + k
    ensures !MatchAt(s, q, key)
  {
    hide MatchAt, FirstMatch, Concat, AllFull, IsFull, Closed;
    if q < |Concat(before)| {
      Assoc(Concat(before), hit, tail);
      NoMatchBefore(before, hit + tail, key, q);
    } else {
      FullIsClosed(before);
      NoMatchInHit(Concat(before), hit, tail, key, k, q - |Concat(before)|);
    }
  }

  lemma NoMatchInHit(head: string, hit: string, tail: string, key: string, k: nat, q: nat)
    requires Closed(head) && IsFull(hit) && ValidKey(key) && FirstMatch(hit, key, 0) == Some(k) && q < k < |hit|
    ensures !MatchAt(head + hit + tail, |head| + q, key)
  {
    hide MatchAt, FirstMatch;
    NoneBeforeFirst(hit, key, 0, q);
    MatchInLine(head, hit, tail, q, key);
  }

  /** The removal takes place in the first line that has a match, and is the removal from that line. */
  lemma RemovedInLine(before: seq<string>, hit: string, tail: string, key: string, s: string)
    requires AllFull(before) && IsFull(hit) && ValidKey(key) && s == Concat(before) + hit + tail
    requires (forall l <- before :: !Matches(l, key)) && Matches(hit, key)
    ensures Removed(s, key) == Concat(before) + Removed(hit, key) + tail
  {
    var k := FirstMatch(hit, key, 0).value;
    FullIsClosed(before);
    FitsBeforeBreak(hit, k, key);
    FirstMatchInLines(before, hit, tail, key, k);
    RemovedBetween(Concat(before), hit, tail, key, k, s);
  }

  lemma RemovedBetween(head: string, hit: string, tail: string, key: string, k: nat, s: string)
    requires Closed(head) && IsFull(hit) && ValidKey(key) && s == head + hit + tail && k < |hit|
    requires FirstMatch(hit, key, 0) == Some(k) && FirstMatch(s, key, 0) == Some(|head| + k)
    ensures Removed(s, key) == head + Removed(hit, key) + tail
  {
    var e := MatchEnd(hit, k, key);
    EndInLine(head, hit, tail, k, key);
    RemovedIs(hit, key, k, e);
    RemovedIs(s, key, |head| + k, |head| + e);
    CutInside(head, hit, tail, k, e, s);
  }

  lemma CutInside(head: string, l: string, tail: string, k: nat, e: nat, s: string)
    requires k <= e <= |l| && s == head + l + tail
    ensures s[..|head| + k] + s[|head| + e..] == head + (l[..k] + l[e..]) + tail
  {
  }

  /** The lines up to the first one with a match, that line, and the rest. */
  lemma {:induction false} FirstHit(ls: seq<string>, key: string) returns (before: seq<string>, hit: string, rest: seq<string>)
    requires exists l <- ls :: Matches(l, key)
    ensures ls == before + [hit] + rest && (forall l <- before :: !Matches(l, key)) && Matches(hit, key)
  {
    if Matches(ls[0], key) {
      before, hit, rest := [], ls[0], ls[1..];
      assert [] + [ls[0]] + ls[1..] == ls;
    } else {
      var l :| l in ls && Matches(l, key);
      assert l in ls[1..];
      var more;
      more, hit, rest := FirstHit(ls[1..], key);
      before := [ls[0]] + more;
      assert ls == [ls[0]] + (more + [hit] + rest) == before + [hit] + rest;
      assert forall x <- before :: x == ls[0] || x in more;
    }
  }

  // ----- The lines that are left -----

  /** What the removal leaves of a line: what stands before the match, and what stands behind it. */
  lemma LeftOfLine(l: string, key: string) returns (k: nat, e: nat)
    requires IsFull(l) && ValidKey(key) && Matches(l, key)
    ensures k < e <= |l| && MatchAt(l, k, key) && Removed(l, key) == l[..k] + l[e..]
    ensures k == 0 <==> key + "=" <= l
  {
    k := FirstMatch(l, key, 0).value;
    e := MatchEnd(l, k, key);
    assert MatchAt(l, k, key) && l[k..k + |key| + 1] == key + "=";
    if key + "=" <= l {
      assert l[0..0 + |key| + 1] == l[..|key| + 1] == key + "=";
      FirstMatchIs(l, key, 0, 0);
    }
    RemovedIs(l, key, k, e);
  }

  /** A full line, nothing, or a part without its line break. */
  lemma CutLine(l: string, k: nat, e: nat)
    requires IsFull(l) && k <= e <= |l| && k < |l|
    ensures var r := l[..k] + l[e..]; if e < |l| then IsFull(r) else r == l[..k] && '\n' !in r
  {
    var r := l[..k] + l[e..];
    assert forall q | 0 <= q < |l| - 1 :: l[..|l| - 1][q] == l[q];
    if e < |l| {
      assert r[|r| - 1] == '\n';
      assert forall q | 0 <= q < |r| - 1 :: r[q] != '\n';
      assert forall q | 0 <= q < |r| - 1 :: r[..|r| - 1][q] == r[q];
    } else {
      assert r == l[..k];
    }
  }

  /** Nothing, or a full line, in its place. */
  lemma WholeLeft(before: seq<string>, r: string, rest: seq<string>)
    requires AllFull(before) && AllFull(rest) && (r == "" || IsFull(r))
    ensures SplitAfter(Concat(before) + r + Concat(rest)) == before + (if r == "" then [] else [r]) + rest
  {
    if r == "" {
      NothingLeft(before, rest);
    } else {
      ConcatAppend(before + [r], rest);
      ConcatAppend(before, [r]);
      assert Concat([r]) == r;
      SplitConcat(before + [r] + rest);
    }
  }

  lemma NothingLeft(before: seq<string>, rest: seq<string>)
    requires AllFull(before) && AllFull(rest)
    ensures SplitAfter(Concat(before) + "" + Concat(rest)) == before + [] + rest
  {
    assert Concat(before) + "" == Concat(before) && before + [] == before;
    ConcatAppend(before, rest);
    SplitConcat(before + rest);
  }

  lemma JoinedIsFull(r: string, l: string)
    requires IsFull(l) && '\n' !in r
    ensures IsFull(r + l)
  {
    assert (r + l)[..|r + l| - 1] == r + l[..|l| - 1];
  }

  /** A part without its line break runs into the next line. */
  lemma OpenLeft(before: seq<string>, r: string, next: string, rest: seq<string>)
    requires AllFull(before) && IsFull(next) && AllFull(rest) && '\n' !in r
    ensures SplitAfter(Concat(before) + r + Concat([next] + rest)) == before + [r + next] + rest
  {
    JoinedIsFull(r, next);
    WholeLeft(before, r + next, rest);
    assert ([next] + rest)[1..] == rest && Concat([next] + rest) == next + Concat(rest);
    Regroup(Concat(before), r, next, Concat(rest));
  }

  lemma Regroup(a: string, b: string, c: string, d: string)
    ensures a + b + (c + d) == a + (b + c) + d
  {
  }

  // ----- Whether the key is gone -----

  ghost predicate NoneSets(ls: seq<string>, key: string) {
    forall l <- ls :: !Sets(l, key)
  }

  lemma NoneOfAll(before: seq<string>, mid: seq<string>, after: seq<string>, key: string)
    ensures NoneSets(before + mid + after, key) <==> NoneSets(before, key) && NoneSets(mid, key) && NoneSets(after, key)
  {
    assert forall l <- before :: l in before + mid + after;
    assert forall l <- mid :: l in before + mid + after;
    assert forall l <- after :: l in before + mid + after;
  }

  lemma NoneOfBoth(before: seq<string>, after: seq<string>, key: string)
    requires NoneSets(before, key) && NoneSets(after, key)
    ensures NoneSets(before + after, key)
  {
  }

  /** An assignment with something in front of it sets its key only if that is blank. */
  lemma PrefixedAssignment(r: string, l: string, key: string, value: string)
    requires ValidKey(key) && ValidValue(value) && r <= l && !Sets(l, key) && key + "=" <= l[|r|..]
    ensures Sets(r + Written(key, value), key) <==> AllBlank(r)
  {
    WrittenLine(key, value);
    if AllBlank(r) {
      TrimLeftBlanks(r, Written(key, value));
    } else {
      var rest := l[|r| + |key| + 1..];
      assert l[|r|..] == key + "=" + rest && l == r + (key + "=" + rest);
      BehindText(r, key, value + "\n", rest);
      assert key + "=" + (value + "\n") == Written(key, value);
    }
  }

  lemma SetsTrimmed(x: string, key: string)
    requires Trimmed(Trim(x))
    ensures Sets(Trim(x), key) <==> Sets(x, key)
  {
    TrimOfTrimmed(Trim(x));
  }

  /** Behind other text, the same key is read whatever follows the '='. */
  lemma BehindText(r: string, key: string, one: string, other: string)
    requires ValidKey(key) && !AllBlank(r)
    ensures Sets(r + (key + "=" + one), key) ==> Sets(r + (key + "=" + other), key)
  {
    var a, b := r + (key + "=" + one), r + (key + "=" + other);
    TrimmedFront(r, key, one);
    TrimmedFront(r, key, other);
    SetsTrimmed(a, key);
    SetsTrimmed(b, key);
    TrimLeftKeeps(r, "");
    SameKeyRead(TrimLeft(r), key, Trim(a), Trim(b));
  }

  lemma TrimmedFront(r: string, key: string, rest: string)
    requires ValidKey(key) && !AllBlank(r)
    ensures TrimLeft(r) + key + "=" <= Trim(r + (key + "=" + rest)) && Trimmed(Trim(r + (key + "=" + rest)))
  {
    var u := TrimLeft(r);
    TrimLeftKeeps(r, key + "=" + rest);
    EndKept(u, key, rest);
  }

  lemma EndKept(u: string, key: string, rest: string)
    requires u != "" && !IsBlank(u[0])
    ensures u + key + "=" <= TrimRight(u + (key + "=" + rest)) && Trimmed(TrimRight(u + (key + "=" + rest)))
  {
    var front := u + key + "=";
    assert u + (key + "=" + rest) == front + rest && front[|front| - 1] == '=';
    TrimmedKeeps(front, rest);
    assert front[0] == u[0] && TrimRight(front + rest)[..|front|][0] == front[0];
  }

  /** Two trimmed lines that begin alike, as far as an '=', are read alike. */
  lemma SameKeyRead(u: string, key: string, one: string, other: string)
    requires u != "" && u + key + "=" <= one && u + key + "=" <= other && Trimmed(one) && Trimmed(other)
    ensures Sets(one, key) ==> Sets(other, key)
  {
    var front := u + key + "=";
    TrimOfTrimmed(one);
    TrimOfTrimmed(other);
    assert one[..|front|] == front == other[..|front|] && front[|front| - 1] == '=';
    FirstIndex(one, other, '=', |front|);
    var eq := IndexOf(one, '=');
    assert one[..eq] == one[..|front|][..eq] == other[..|front|][..eq] == other[..eq];
    assert one[0] == one[..|front|][0] == other[0];
  }

  lemma {:induction false} FirstIndex(one: string, other: string, c: char, n: nat)
    requires n <= |one| && n <= |other| && one[..n] == other[..n] && c in one[..n]
    ensures IndexOf(one, c) == IndexOf(other, c) && 0 <= IndexOf(one, c) < n
  {
    assert one[0] == one[..n][0] == other[0];
    if one[0] != c {
      assert one[..n] == [one[0]] + one[1..][..n - 1];
      assert one[1..][..n - 1] == one[..n][1..] == other[..n][1..] == other[1..][..n - 1];
      FirstIndex(one[1..], other[1..], c, n - 1);
    }
  }

  /** The one assignment of a key, and the lines around it. */
  lemma UpsertedAround(s: string, vs: seq<Setting>, key: string) returns (before: seq<string>, after: seq<string>)
    requires ValidSettings(vs) && key in Keys(vs)
    ensures SplitAfter(Upserted(s, vs)) == before + [WrittenFor(vs, key)] + after
    ensures Filter(before, Setter(key)) == [] && Filter(after, Setter(key)) == []
  {
    var ls := SplitAfter(Upserted(s, vs));
    OneAssignmentEach(s, vs, key);
    before, after := AroundTheOnly(ls, Setter(key));
  }

  lemma {:induction false} AroundTheOnly(ls: seq<string>, keep: string -> bool) returns (before: seq<string>, after: seq<string>)
    requires |Filter(ls, keep)| == 1
    ensures ls == before + [Filter(ls, keep)[0]] + after
    ensures Filter(before, keep) == [] && Filter(after, keep) == []
  {
    FilterHead(ls, keep);
    var only := Filter(ls, keep)[0];
    if keep(ls[0]) {
      before, after := [], ls[1..];
      assert [] + [ls[0]] + ls[1..] == ls;
    } else {
      var rest;
      rest, after := AroundTheOnly(ls[1..], keep);
      before := [ls[0]] + rest;
      FilterHead(before, keep);
      assert before[1..] == rest;
      Assoc([ls[0]], rest, [only]);
      Assoc([ls[0]], rest + [only], after);
      assert [ls[0]] + ls[1..] == ls;
    }
  }

  // ----- A removal after an update -----

  lemma AssignmentMatches(key: string, value: string)
    requires ValidKey(key) && ValidValue(value)
    ensures Matches(Written(key, value), key) && key + "=" <= Written(key, value)
  {
    var l := Written(key, value);
    assert l[0..0 + |key| + 1] == key + "=" && l[..|key| + 1] == key + "=";
    FirstMatchIs(l, key, 0, 0);
  }

  /** A line that does not set the key matches behind its front only. */
  lemma HiddenMatch(l: string, key: string)
    requires IsFull(l) && ValidKey(key) && !Sets(l, key)
    ensures Matches(l, key) <==> Hides(l, key)
    ensures !(key + "=" <= l)
  {
    if key + "=" <= l {
      StartsWithKey(l, key);
    }
    if Matches(l, key) {
      var k, e := LeftOfLine(l, key);
    }
    if Hides(l, key) {
      var k :| 0 < k <= |l| && MatchAt(l, k, key);
      if !Matches(l, key) {
        NoneBeforeFirst(l, key, 0, k);
      }
    }
  }

  /** Whether the key is gone after the cut in `hit`, the first line with a match. */
  ghost predicate Gone(hit: string, rest: seq<string>, key: string) {
    var r := Removed(hit, key);
    if Sets(hit, key) then !Sets(r, key)
    else rest != [] && Sets(rest[0], key) && '\n' !in r && !AllBlank(r)
  }

  /** The cut in the assignment itself: what follows the match on its line is a line of its own. */
  lemma CutAssignment(before: seq<string>, rest: seq<string>, key: string, r: string, left: string)
    requires AllFull(before) && AllFull(rest) && (r == "" || IsFull(r))
    requires NoneSets(before, key) && NoneSets(rest, key) && left == Concat(before) + r + Concat(rest)
    ensures NoneSets(SplitAfter(left), key) <==> !Sets(r, key)
    ensures r == "" ==> SplitAfter(left) == before + rest
  {
    WholeLeft(before, r, rest);
    if r == "" {
      assert before + [] + rest == before + rest;
      NoneOfBoth(before, rest, key);
      EmptySetsNothing(key);
    } else {
      NoneAround(before, r, rest, key);
    }
  }

  lemma NoneAround(before: seq<string>, r: string, rest: seq<string>, key: string)
    requires NoneSets(before, key) && NoneSets(rest, key)
    ensures NoneSets(before + [r] + rest, key) <==> !Sets(r, key)
  {
    NoneOfAll(before, [r], rest, key);
  }

  lemma EmptySetsNothing(key: string)
    ensures !Sets("", key)
  {
  }

  lemma AssignmentLeft(hit: string, key: string)
    requires IsFull(hit) && ValidKey(key) && Matches(hit, key) && key + "=" <= hit
    ensures Removed(hit, key) == "" || IsFull(Removed(hit, key))
  {
    var k, e := LeftOfLine(hit, key);
    CutLine(hit, k, e);
  }

  /** The cut in another line: a full line is left of it, or a part in front of the next line. */
  lemma CutOther(before: seq<string>, hit: string, rest: seq<string>, key: string, left: string)
    returns (k: nat, e: nat)
    requires AllFull(before) && IsFull(hit) && AllFull(rest) && rest != []
    requires ValidKey(key) && Matches(hit, key) && !Sets(hit, key)
    requires left == Concat(before) + Removed(hit, key) + Concat(rest)
    ensures 0 < k < e <= |hit| && MatchAt(hit, k, key) && Removed(hit, key) == hit[..k] + hit[e..]
    ensures var r := Removed(hit, key);
            if '\n' in r then e < |hit| && SplitAfter(left) == before + [r] + rest
            else r == hit[..k] && SplitAfter(left) == before + [r + rest[0]] + rest[1..]
  {
    HiddenMatch(hit, key);
    k, e := LeftOfLine(hit, key);
    CutLine(hit, k, e);
    if e < |hit| {
      WholeLeft(before, Removed(hit, key), rest);
    } else {
      assert rest == [rest[0]] + rest[1..];
      OpenLeft(before, Removed(hit, key), rest[0], rest[1..]);
    }
  }

  /** The line that a hidden match leaves, joined to the assignment. */
  lemma JoinedGone(before: seq<string>, r: string, hit: string, rest: seq<string>, key: string, value: string)
    requires ValidKey(key) && ValidValue(value) && !Sets(hit, key) && NoneSets(before, key)
    requires r <= hit && key + "=" <= hit[|r|..]
    requires rest != [] && rest[0] == Written(key, value) && NoneSets(rest[1..], key)
    ensures NoneSets(before + [r + rest[0]] + rest[1..], key) <==> !AllBlank(r)
  {
    NoneOfAll(before, [r + rest[0]], rest[1..], key);
    PrefixedAssignment(r, hit, key, value);
  }

  lemma LaterStays(before: seq<string>, mid: string, rest: seq<string>, key: string)
    requires !NoneSets(rest, key)
    ensures !NoneSets(before + [mid] + rest, key)
  {
    NoneOfAll(before, [mid], rest, key);
  }

  /** What stands around the cut in a hidden match, when the assignment comes later. */
  lemma HiddenGone(before: seq<string>, hit: string, rest: seq<string>, key: string, value: string, left: string)
    requires AllFull(before) && IsFull(hit) && AllFull(rest) && ValidKey(key) && ValidValue(value)
    requires Matches(hit, key) && !Sets(hit, key) && NoneSets(before, key)
    requires rest != [] && (if Sets(rest[0], key) then rest[0] == Written(key, value) && NoneSets(rest[1..], key)
                            else !NoneSets(rest[1..], key))
    requires left == Concat(before) + Removed(hit, key) + Concat(rest)
    ensures NoneSets(SplitAfter(left), key) <==> Gone(hit, rest, key)
  {
    var r := Removed(hit, key);
    var k, e := CutOther(before, hit, rest, key, left);
    if '\n' in r {
      assert Sets(rest[0], key) ==> rest[0] in rest;
      assert forall l <- rest[1..] :: l in rest;
      LaterStays(before, r, rest, key);
    } else if Sets(rest[0], key) {
      assert hit[k..][..|key| + 1] == hit[k..k + |key| + 1] == key + "=";
      JoinedGone(before, r, hit, rest, key, value);
    } else {
      LaterStays(before, r + rest[0], rest[1..], key);
    }
  }

  lemma SplitsAlike(a: seq<string>, x: string, b: seq<string>, c: seq<string>, y: string, d: seq<string>)
    requires a + [x] + b == c + [y] + d && |a| == |c|
    ensures a == c && x == y && b == d
  {
    var ls := a + [x] + b;
    assert a == ls[..|a|] == c && x == ls[|a|] == y;
    assert b == ls[|a| + 1..] == d;
  }

  /** A line in front of another one: what stands between them, and behind both. */
  lemma SplitsEarlier(a: seq<string>, x: string, b: seq<string>, c: seq<string>, y: string, d: seq<string>)
    returns (mid: seq<string>)
    requires a + [x] + b == c + [y] + d && |a| < |c|
    ensures c == a + [x] + mid && b == mid + [y] + d && x in c
  {
    mid := c[|a| + 1..];
    var ls := a + [x] + b;
    assert c == ls[..|c|] && a == c[..|a|] && x == c[|a|];
    assert b == ls[|a| + 1..] == mid + [y] + d;
  }

  /** The one assignment stands in the first line with a match, or behind it. */
  lemma WhereAssigned(before: seq<string>, hit: string, rest: seq<string>, lead: seq<string>, line: string, trail: seq<string>, key: string)
    requires before + [hit] + rest == lead + [line] + trail && Matches(line, key)
    requires forall l <- before :: !Matches(l, key)
    ensures |before| <= |lead|
  {
    if |before| > |lead| {
      var mid := SplitsEarlier(lead, line, trail, before, hit, rest);
    }
  }

  lemma AssignedLater(before: seq<string>, hit: string, rest: seq<string>, lead: seq<string>, line: string, trail: seq<string>, key: string)
    requires before + [hit] + rest == lead + [line] + trail && |before| < |lead|
    requires Sets(line, key) && NoneSets(lead, key) && NoneSets(trail, key)
    ensures NoneSets(before, key) && !Sets(hit, key) && rest != []
    ensures if Sets(rest[0], key) then rest[0] == line && NoneSets(rest[1..], key) else !NoneSets(rest[1..], key)
  {
    var mid := SplitsEarlier(before, hit, rest, lead, line, trail);
    NoneOfAll(before, [hit], mid, key);
    assert hit in [hit];
    if mid == [] {
      assert rest == [line] + trail && rest[1..] == trail;
    } else {
      assert rest[0] == mid[0] && mid[0] in mid;
      assert rest[1..] == mid[1..] + [line] + trail;
      assert line in rest[1..];
    }
  }

  /**
   After an update, a removal of one of its keys cuts in the first line that has a match of the
   pattern. No assignment of the key is left exactly when that line is the assignment and what is
   left of it sets nothing, or when the cut joins the line before the assignment to it and so
   disguises it.
   */
  lemma RemovalExact(s: string, vs: seq<Setting>, key: string) returns (before: seq<string>, hit: string, rest: seq<string>)
    requires ValidSettings(vs) && key in Keys(vs)
    ensures SplitAfter(Upserted(s, vs)) == before + [hit] + rest
    ensures (forall l <- before :: !Matches(l, key)) && Matches(hit, key)
    ensures NoneSets(SplitAfter(Removed(Upserted(s, vs), key)), key) <==> Gone(hit, rest, key)
    ensures Sets(hit, key) ==> hit == WrittenFor(vs, key) && NoneSets(before, key) && NoneSets(rest, key)
    ensures Sets(hit, key) && Removed(hit, key) == "" ==> SplitAfter(Removed(Upserted(s, vs), key)) == before + rest
  {
    var next := Upserted(s, vs);
    var i :| 0 <= i < |vs| && vs[i].key == key;
    var value := vs[i].value;
    ValueIsGiven(vs, i);
    var lead, trail := UpsertedAround(s, vs, key);
    AssignmentMatches(key, value);
    WrittenLine(key, value);
    var ls := lead + [Written(key, value)] + trail;
    assert Written(key, value) in ls;
    before, hit, rest := FirstHit(ls, key);
    NothingFiltered(lead, key);
    NothingFiltered(trail, key);
    WhereAssigned(before, hit, rest, lead, Written(key, value), trail, key);
    UpsertedText(s, vs, before, hit, rest);
    RemovedInLine(before, hit, Concat(rest), key, next);
    if |before| == |lead| {
      SplitsAlike(before, hit, rest, lead, Written(key, value), trail);
      AssignmentLeft(hit, key);
      CutAssignment(before, rest, key, Removed(hit, key), Removed(next, key));
    } else {
      AssignedLater(before, hit, rest, lead, Written(key, value), trail, key);
      HiddenGone(before, hit, rest, key, value, Removed(next, key));
    }
  }

  lemma {:induction false} NothingFiltered(ls: seq<string>, key: string)
    requires Filter(ls, Setter(key)) == []
    ensures NoneSets(ls, key)
  {
    forall l | l in ls
      ensures !Sets(l, key)
    {
      var i :| 0 <= i < |ls| && ls[i] == l;
      if Sets(l, key) {
        FilterFinds(ls, Setter(key), i);
      }
    }
  }

  lemma AroundText(before: seq<string>, line: string, after: seq<string>)
    requires AllFull(before + [line] + after)
    ensures Concat(before + [line] + after) == Concat(before) + line + Concat(after)
    ensures AllFull(before) && IsFull(line) && AllFull(after)
  {
    ConcatAppend(before + [line], after);
    ConcatAppend(before, [line]);
    assert Concat([line]) == line;
    var all := before + [line] + after;
    assert forall i | 0 <= i < |before| :: before[i] == all[i];
    assert forall i | 0 <= i < |after| :: after[i] == all[|before| + 1 + i];
    assert all[|before|] == line;
  }

  lemma UpsertedText(s: string, vs: seq<Setting>, before: seq<string>, hit: string, rest: seq<string>)
    requires ValidSettings(vs) && SplitAfter(Upserted(s, vs)) == before + [hit] + rest
    ensures AllFull(before) && IsFull(hit) && AllFull(rest)
    ensures Upserted(s, vs) == Concat(before) + hit + Concat(rest)
  {
    UpsertedIsClosed(s, vs);
    SplitFull(Upserted(s, vs));
    ConcatSplit(Upserted(s, vs));
    AroundText(before, hit, rest);
  }

  // ----- When the removal does what it is for -----

  lemma {:induction false} RewrittenFrom(ls: seq<string>, vs: seq<Setting>, seen: set<string>, l: string)
    requires ValidSettings(vs) && l in Rewritten(ls, vs, seen)
    ensures l in ls || exists i :: 0 <= i < |vs| && l == Written(vs[i].key, vs[i].value)
  {
    var first, rest := Edited(ls[0], vs, seen), Rewritten(ls[1..], vs, SeenWith(ls[0], vs, seen));
    assert l in first || l in rest;
    if l in rest {
      RewrittenFrom(ls[1..], vs, SeenWith(ls[0], vs, seen), l);
    } else if l != ls[0] {
      var i :| 0 <= i < |vs| && vs[i].key == LineKey(ls[0]).value;
      ValueIsGiven(vs, i);
    }
  }

  lemma {:induction false} MissingFrom(vs: seq<Setting>, seen: set<string>, l: string)
    requires l in Missing(vs, seen)
    ensures exists i :: 0 <= i < |vs| && l == Written(vs[i].key, vs[i].value)
  {
    if l in Missing(vs[1..], seen) {
      MissingFrom(vs[1..], seen, l);
      var i :| 0 <= i < |vs[1..]| && l == Written(vs[1..][i].key, vs[1..][i].value);
      assert vs[1..][i] == vs[i + 1];
    } else {
      assert l == Written(vs[0].key, vs[0].value);
    }
  }

  /** Every line after an update was there before, or is one of the given settings. */
  lemma LinesComeFrom(s: string, vs: seq<Setting>, l: string)
    requires ValidSettings(vs) && l in SplitAfter(Upserted(s, vs))
    ensures l in SplitAfter(Close(s)) || exists i :: 0 <= i < |vs| && l == Written(vs[i].key, vs[i].value)
  {
    var ls := SplitAfter(Close(s));
    UpsertedLines(s, vs);
    if l in Rewritten(ls, vs, {}) {
      RewrittenFrom(ls, vs, {}, l);
    } else {
      MissingFrom(vs, Seen(ls, vs, {}), l);
    }
  }

  lemma {:induction false} RestSkips(l: string, k: nat, e: nat)
    requires k <= e <= |l| && (e < |l| ==> IsTerminator(l[e])) && forall q | k <= q < e :: !IsTerminator(l[q])
    ensures RestOfMatch(l, k) == e
    decreases e - k
  {
    if k < e {
      RestSkips(l, k + 1, e);
    }
  }

  /** What a removal leaves of an assignment: its value from the first line end on. */
  function LeftOfValue(value: string): string {
    var n := RestOfMatch(value, 0);
    if n == |value| then "" else value[n..] + "\n"
  }

  lemma {:induction false} RestStops(value: string, k: nat)
    requires k <= |value|
    ensures forall q | k <= q < RestOfMatch(value, k) :: !IsTerminator(value[q])
    ensures RestOfMatch(value, k) < |value| ==> IsTerminator(value[RestOfMatch(value, k)])
    decreases |value| - k
  {
    if k < |value| && !IsTerminator(value[k]) {
      RestStops(value, k + 1);
    }
  }

  lemma RestOfWritten(key: string, value: string)
    ensures RestOfMatch(Written(key, value), |key| + 1) == |key| + 1 + RestOfMatch(value, 0)
  {
    var l, k, n := Written(key, value), |key| + 1, RestOfMatch(value, 0);
    RestStops(value, 0);
    assert l == (key + "=") + (value + "\n") && forall q | 0 <= q < |value| :: l[k + q] == value[q];
    assert l[k + |value|] == '\n';
    forall q | k <= q < k + n
      ensures !IsTerminator(l[q])
    {
      assert l[k + (q - k)] == value[q - k];
    }
    RestSkips(l, k, k + n);
  }

  lemma CutValue(key: string, value: string)
    requires ValidKey(key) && ValidValue(value)
    ensures Removed(Written(key, value), key) == LeftOfValue(value)
  {
    var l, k, n := Written(key, value), |key| + 1, RestOfMatch(value, 0);
    AssignmentMatches(key, value);
    assert l[0..0 + |key| + 1] == key + "=";
    FirstMatchIs(l, key, 0, 0);
    RestOfWritten(key, value);
    if n == |value| {
      RemovedIs(l, key, 0, |l|);
      assert l[..0] + l[|l|..] == "";
    } else {
      assert l[k + n] == value[n] && value[n] in value;
      RemovedIs(l, key, 0, k + n);
      assert l[..0] + l[k + n..] == value[n..] + "\n";
    }
  }

  /** Nothing that the pattern could match stands behind a line end inside this text. */
  ghost predicate NothingHidden(s: string, vs: seq<Setting>, key: string) {
    && (forall l <- SplitAfter(Close(s)) :: !Hides(l, key))
    && (forall i | 0 <= i < |vs| && vs[i].key != key :: !Hides(Written(vs[i].key, vs[i].value), key))
  }

  /** A file whose lines end in CR LF hides nothing. */
  lemma LineEndHidesNothing(l: string, key: string)
    requires IsFull(l) && ValidKey(key) && forall q | 0 <= q < |l| - 2 :: !IsTerminator(l[q])
    ensures !Hides(l, key)
  {
    forall k | 0 < k <= |l|
      ensures !MatchAt(l, k, key)
    {
      if MatchAt(l, k, key) {
        FitsBeforeBreak(l, k, key);
      }
    }
  }

  lemma CutValueFor(vs: seq<Setting>, key: string)
    requires ValidSettings(vs) && key in Keys(vs)
    ensures Removed(WrittenFor(vs, key), key) == LeftOfValue(ValueOf(vs, key))
    ensures ValidKey(key) && ValidValue(ValueOf(vs, key))
  {
    var i :| 0 <= i < |vs| && vs[i].key == key;
    ValueIsGiven(vs, i);
    CutValue(key, vs[i].value);
  }

  lemma HiddenFrom(s: string, vs: seq<Setting>, key: string, l: string)
    requires ValidSettings(vs) && key in Keys(vs) && NothingHidden(s, vs, key)
    requires !Sets(l, key) && (l in SplitAfter(Close(s)) || exists i :: 0 <= i < |vs| && l == Written(vs[i].key, vs[i].value))
    ensures !Hides(l, key)
  {
    if l !in SplitAfter(Close(s)) {
      var i :| 0 <= i < |vs| && l == Written(vs[i].key, vs[i].value);
      WrittenLine(vs[i].key, vs[i].value);
    }
  }

  lemma MatchIsAssignment(s: string, vs: seq<Setting>, key: string, hit: string)
    requires ValidSettings(vs) && key in Keys(vs) && NothingHidden(s, vs, key)
    requires IsFull(hit) && Matches(hit, key) && hit in SplitAfter(Upserted(s, vs))
    ensures Sets(hit, key)
  {
    if !Sets(hit, key) {
      var i :| 0 <= i < |vs| && vs[i].key == key;
      HiddenMatch(hit, key);
      LinesComeFrom(s, vs, hit);
      HiddenFrom(s, vs, key, hit);
    }
  }

  lemma AssignmentIsHit(s: string, vs: seq<Setting>, key: string) returns (before: seq<string>, after: seq<string>)
    requires ValidSettings(vs) && key in Keys(vs) && NothingHidden(s, vs, key)
    ensures SplitAfter(Upserted(s, vs)) == before + [WrittenFor(vs, key)] + after
    ensures NoneSets(SplitAfter(Removed(Upserted(s, vs), key)), key) <==> !Sets(Removed(WrittenFor(vs, key), key), key)
    ensures Removed(WrittenFor(vs, key), key) == "" ==> SplitAfter(Removed(Upserted(s, vs), key)) == before + after
    ensures NoneSets(before, key) && NoneSets(after, key)
  {
    var hit;
    before, hit, after := RemovalExact(s, vs, key);
    UpsertedText(s, vs, before, hit, after);
    assert (before + [hit] + after)[|before|] == hit;
    MatchIsAssignment(s, vs, key, hit);
  }

  /**
   A removal right after an update, when the old file and the other values hide no match: the key
   is gone exactly when what its value has from the first line end on does not set it again.
   */
  lemma GoneUnlessValueSets(s: string, vs: seq<Setting>, key: string)
    requires ValidSettings(vs) && key in Keys(vs) && NothingHidden(s, vs, key)
    ensures NoneSets(SplitAfter(Removed(Upserted(s, vs), key)), key) <==> !Sets(LeftOfValue(ValueOf(vs, key)), key)
  {
    var before, after := AssignmentIsHit(s, vs, key);
    CutValueFor(vs, key);
  }

  /** A value without a line end of its own goes as a whole, and nothing else does. */
  lemma RemoveAfterUpsert(s: string, vs: seq<Setting>, key: string) returns (before: seq<string>, after: seq<string>)
    requires ValidSettings(vs) && key in Keys(vs)
    requires NothingHidden(s, vs, key) && forall c <- ValueOf(vs, key) :: !IsTerminator(c)
    ensures SplitAfter(Upserted(s, vs)) == before + [WrittenFor(vs, key)] + after
    ensures SplitAfter(Removed(Upserted(s, vs), key)) == before + after
    ensures NoneSets(before + after, key)
  {
    before, after := AssignmentIsHit(s, vs, key);
    CutValueFor(vs, key);
    RestWithoutLineEnd(ValueOf(vs, key), 0);
    NoneOfBoth(before, after, key);
  }

  lemma {:induction false} RestWithoutLineEnd(value: string, k: nat)
    requires k <= |value| && forall c <- value :: !IsTerminator(c)
    ensures RestOfMatch(value, k) == |value|
    decreases |value| - k
  {
    if k < |value| {
      assert value[k] in value;
      RestWithoutLineEnd(value, k + 1);
    }
  }

  /** A value with an assignment of the same key behind a line separator: the key stays. */
  lemma SeparatorKeepsKey(s: string, vs: seq<Setting>, key: string, front: string, c: char, back: string)
    requires ValidSettings(vs) && key in Keys(vs) && NothingHidden(s, vs, key)
    requires ValueOf(vs, key) == front + ([c] + (key + "=" + back))
    requires IsTerminator(c) && forall x <- front :: !IsTerminator(x)
    ensures !NoneSets(SplitAfter(Removed(Upserted(s, vs), key)), key)
  {
    GoneUnlessValueSets(s, vs, key);
    CutValueFor(vs, key);
    LeftBehind(key, front, c, back, ValueOf(vs, key));
  }

  lemma LeftBehind(key: string, front: string, c: char, back: string, value: string)
    requires ValidKey(key) && ValidValue(value) && value == front + ([c] + (key + "=" + back))
    requires IsTerminator(c) && forall x <- front :: !IsTerminator(x)
    ensures Sets(LeftOfValue(value), key)
  {
    var n, rest := |front|, [c] + (key + "=" + back);
    assert value[n] == rest[0] == c && c in value;
    assert forall q | 0 <= q < n :: value[q] == front[q];
    RestSkips(value, 0, n);
    assert value[n..] == rest;
    BlankPrefix(key, c, back);
    assert rest + "\n" == [c] + (key + "=" + (back + "\n"));
  }

  lemma BlankPrefix(key: string, c: char, back: string)
    requires ValidKey(key) && IsBlank(c)
    ensures Sets([c] + (key + "=" + (back + "\n")), key)
  {
    var l := key + "=" + (back + "\n");
    TrimLeftBlanks([c], l);
    StartsWithKey(l, key);
  }
}
