/**
 The {{ name }} references of nanoclaw/scripts/skill-directives.ts and skill-apply.ts: the pattern
 VAR_REF, its matches in a text, and what joining lines does to them.
 */
module References {
  import opened Wrappers
  import opened Text

  datatype Found = Found(name: string, length: nat)

  function BlanksEnd(r: string, i: nat): (k: nat)
    requires i <= |r|
    ensures i <= k <= |r|
    decreases |r| - i
  {
    if i < |r| && IsBlank(r[i]) then BlanksEnd(r, i + 1) else i
  }

  lemma {:induction false} BlanksEndMeans(r: string, i: nat)
    requires i <= |r|
    ensures forall q | i <= q < BlanksEnd(r, i) :: IsBlank(r[q])
    ensures BlanksEnd(r, i) < |r| ==> !IsBlank(r[BlanksEnd(r, i)])
    decreases |r| - i
  {
    if i < |r| && IsBlank(r[i]) {
      BlanksEndMeans(r, i + 1);
    }
  }

  /** The pattern at the front of a text. */
  function Head(r: string): (f: Option<Found>)
    ensures f.Some? ==> 0 < f.value.length <= |r|
  {
    if !("{{" <= r) then None
    else
      var i := BlanksEnd(r, 2);
      var j := IdentEnd(r, i);
      var k := BlanksEnd(r, j);
      if i < |r| && IsIdentStart(r[i]) && "}}" <= r[k..] then Some(Found(r[i..j], k + 2)) else None
  }

  /** Braces, blanks, a name, blanks, braces. */
  predicate Shape(r: string, i: nat, j: nat, k: nat) {
    && 2 <= i < j <= k <= |r| - 2
    && r[0] == r[1] == '{' && r[k] == r[k + 1] == '}'
    && (forall q | 2 <= q < i :: IsBlank(r[q])) && (forall q | j <= q < k :: IsBlank(r[q]))
    && IsIdentStart(r[i]) && (forall q | i <= q < j :: IsIdentPart(r[q]))
  }

  lemma HeadShape(r: string) returns (i: nat, j: nat, k: nat)
    requires Head(r).Some?
    ensures Shape(r, i, j, k) && Head(r) == Some(Found(r[i..j], k + 2))
  {
    i := BlanksEnd(r, 2);
    j := IdentEnd(r, i);
    k := BlanksEnd(r, j);
    BlanksEndMeans(r, 2);
    IdentEndMeans(r, i);
    BlanksEndMeans(r, j);
    assert r[0] == r[..2][0] && r[1] == r[..2][1];
    assert r[k] == r[k..][0] && r[k + 1] == r[k..][1];
  }

  lemma ShapeHead(r: string, i: nat, j: nat, k: nat)
    requires Shape(r, i, j, k)
    ensures Head(r) == Some(Found(r[i..j], k + 2))
  {
    assert r[..2] == "{{" && r[k..][..2] == "}}";
    BlanksEndMeans(r, 2);
    IdentEndMeans(r, i);
    BlanksEndMeans(r, j);
    var i', j', k' := BlanksEnd(r, 2), IdentEnd(r, i), BlanksEnd(r, j);
    assert i' == i && j' == j && k' == k;
  }

  lemma HeadBraces(r: string)
    requires Head(r).Some?
    ensures |r| >= 2 && r[0] == r[1] == '{'
  {
    assert r[0] == r[..2][0] && r[1] == r[..2][1];
  }

  /** A match is settled by the text it takes up. */
  lemma HeadSame(r: string, u: string)
    requires Head(r).Some? && Head(r).value.length <= |u|
    requires forall q | 0 <= q < Head(r).value.length :: r[q] == u[q]
    ensures Head(u) == Head(r)
  {
    var i, j, k := HeadShape(r);
    ShapeHead(u, i, j, k);
    assert r[i..j] == u[i..j];
  }

  /** No match begins inside another one. */
  lemma NoneInside(r: string, q: nat)
    requires Head(r).Some? && 0 < q < Head(r).value.length
    ensures Head(r[q..]).None?
  {
    var i, j, k := HeadShape(r);
    assert r[2] != '{' && (q > 1 ==> r[q] != '{');
    if Head(r[q..]).Some? {
      HeadBraces(r[q..]);
      assert false;
    }
  }

  /** A text is read as characters and references. */
  datatype Piece = Plain(c: char) | Ref(name: string)

  /** The match at each position of a text. */
  type Matches = nat -> Option<Found>

  function MatchesOf(s: string): Matches {
    (p: nat) => if p <= |s| then Head(s[p..]) else None
  }

  /** How far the scan goes at position i. */
  function Stride(m: Matches, i: nat): (n: nat)
    ensures n > 0
  {
    if m(i).Some? && m(i).value.length > 0 then m(i).value.length else 1
  }

  /** What stands from position i on. */
  function PiecesFrom(s: string, m: Matches, i: nat): seq<Piece>
    decreases |s| - i
  {
    if i >= |s| then []
    else [if m(i).Some? then Ref(m(i).value.name) else Plain(s[i])] + PiecesFrom(s, m, i + Stride(m, i))
  }

  function Pieces(s: string): seq<Piece> {
    PiecesFrom(s, MatchesOf(s), 0)
  }

  /** The names in the order of the matches. */
  function NamesOf(pieces: seq<Piece>): seq<string> {
    if pieces == [] then []
    else (if pieces[0].Ref? then [pieces[0].name] else []) + NamesOf(pieces[1..])
  }

  function NamesIn(s: string): seq<string> {
    NamesOf(Pieces(s))
  }

  function Names(s: string): set<string> {
    set x | x in NamesIn(s)
  }

  ghost predicate NamedAt(s: string, p: nat, x: string) {
    p <= |s| && Head(s[p..]).Some? && Head(s[p..]).value.name == x
  }

  predicate NamedBy(m: Matches, p: nat, x: string) {
    m(p).Some? && m(p).value.name == x
  }

  ghost predicate NamedFrom(m: Matches, i: nat, x: string) {
    exists p: nat :: i <= p && NamedBy(m, p, x)
  }

  /** No match begins inside another one, and none behind the text. */
  ghost predicate Disjoint(m: Matches, n: nat) {
    && (forall p: nat, q: nat | m(p).Some? && p < q < p + m(p).value.length :: m(q).None?)
    && (forall p: nat | p >= n :: m(p).None?)
  }

  lemma NamesOfCons(piece: Piece, rest: seq<Piece>, x: string)
    ensures x in NamesOf([piece] + rest) <==> piece == Ref(x) || x in NamesOf(rest)
  {
    assert ([piece] + rest)[1..] == rest;
  }

  lemma {:induction false} NamesFromMeans(s: string, m: Matches, i: nat, x: string)
    requires Disjoint(m, |s|)
    ensures x in NamesOf(PiecesFrom(s, m, i)) <==> NamedFrom(m, i, x)
    decreases |s| - i
  {
    if i < |s| {
      var next := i + Stride(m, i);
      NamesFromMeans(s, m, next, x);
      NamesOfCons(if m(i).Some? then Ref(m(i).value.name) else Plain(s[i]), PiecesFrom(s, m, next), x);
      assert forall p: nat | i < p < next :: !NamedBy(m, p, x);
      assert NamedFrom(m, i, x) <==> NamedBy(m, i, x) || NamedFrom(m, next, x);
    }
  }

  lemma MatchesAreDisjoint(s: string)
    ensures Disjoint(MatchesOf(s), |s|)
  {
    var m := MatchesOf(s);
    forall p: nat, q: nat | m(p).Some? && p < q < p + m(p).value.length
      ensures m(q).None?
    {
      NoneInside(s[p..], q - p);
      assert s[p..][q - p..] == s[q..];
    }
    assert s[|s|..] == "" && Head("").None?;
  }

  /** The names are those of all places where the pattern matches. */
  lemma NamesMean(s: string, x: string)
    ensures x in Names(s) <==> exists p: nat :: NamedAt(s, p, x)
  {
    MatchesAreDisjoint(s);
    NamesFromMeans(s, MatchesOf(s), 0, x);
    assert forall p: nat :: NamedBy(MatchesOf(s), p, x) <==> NamedAt(s, p, x);
    assert NamedFrom(MatchesOf(s), 0, x) <==> exists p: nat :: NamedAt(s, p, x);
  }

  lemma NamedWithin(a: string, m: string, b: string, p: nat, x: string)
    requires NamedAt(m, p, x)
    ensures NamedAt(a + m + b, |a| + p, x)
  {
    var s := a + m + b;
    assert s[|a| + p..] == m[p..] + b;
    HeadSame(m[p..], s[|a| + p..]);
  }

  lemma MatchHasBraces(s: string, p: nat)
    requires p <= |s| && Head(s[p..]).Some?
    ensures '{' in s && '}' in s
  {
    var i, j, k := HeadShape(s[p..]);
    assert s[p..][0] == s[p] && s[p..][k] == s[p + k];
    assert s[p] in s && s[p + k] in s;
  }

  lemma NoBraceNoNames(s: string)
    requires '{' !in s || '}' !in s
    ensures Names(s) == {}
  {
    forall x
      ensures x !in Names(s)
    {
      NamesMean(s, x);
      forall p: nat
        ensures !NamedAt(s, p, x)
      {
        if NamedAt(s, p, x) {
          MatchHasBraces(s, p);
        }
      }
    }
  }

  /** The text of one reference. */
  function Reference(x: string): string {
    "{{" + x + "}}"
  }

  lemma ReferenceNames(x: string)
    requires IsIdent(x)
    ensures Names(Reference(x)) == {x}
  {
    var s := Reference(x);
    ShapeHead(s, 2, 2 + |x|, 2 + |x|);
    assert s[0..] == s && s[2..2 + |x|] == x;
    var m := MatchesOf(s);
    assert m(0) == Some(Found(x, |s|));
    assert PiecesFrom(s, m, |s|) == [] && Pieces(s) == [Ref(x)] + PiecesFrom(s, m, |s|);
    assert NamesOf([Ref(x)]) == [x] + NamesOf([]);
  }

  /** A stretch of a text refers to nothing that the text does not. */
  lemma NamesWithin(a: string, m: string, b: string)
    ensures Names(m) <= Names(a + m + b)
  {
    forall x | x in Names(m)
      ensures x in Names(a + m + b)
    {
      NamesMean(m, x);
      var p: nat :| NamedAt(m, p, x);
      NamedWithin(a, m, b, p, x);
      NamesMean(a + m + b, x);
    }
  }

  lemma TrimmedNames(s: string)
    ensures Names(Trim(s)) <= Names(s)
  {
    TrimLeftIsEnd(s);
    var u := TrimLeft(s);
    var a, b := s[..|s| - |u|], u[|Trim(s)|..];
    assert s == a + Trim(s) + b;
    NamesWithin(a, Trim(s), b);
  }

  // ----- Joined lines -----

  lemma {:induction false} JoinAround(body: seq<string>, j: nat) returns (a: string, b: string)
    requires j < |body|
    ensures Join(body) == a + body[j] + b
  {
    if |body| == 1 {
      a, b := "", "";
    } else if j == 0 {
      a, b := "", "\n" + Join(body[1..]);
      assert body[0] + "\n" + Join(body[1..]) == "" + body[0] + b;
    } else {
      var c;
      c, b := JoinAround(body[1..], j - 1);
      a := body[0] + "\n" + c;
      assert body[0] + "\n" + (c + body[j] + b) == a + body[j] + b;
    }
  }

  /** Joining loses no reference. */
  lemma JoinedNames(body: seq<string>, j: nat)
    requires j < |body|
    ensures Names(body[j]) <= Names(Join(body))
  {
    var a, b := JoinAround(body, j);
    NamesWithin(a, body[j], b);
  }

  /** No match in the joined lines takes up a line break. */
  ghost predicate NoneSpans(s: string) {
    forall p: nat | p <= |s| && Head(s[p..]).Some? :: '\n' !in s[p..p + Head(s[p..]).value.length]
  }

  lemma SliceHolds(s: string, a: nat, b: nat, k: nat)
    requires a <= k < b <= |s|
    ensures s[k] in s[a..b]
  {
    assert s[a..b][k - a] == s[k];
  }

  /** A match that takes up no line break. */
  ghost predicate UnbrokenAt(s: string, p: nat, x: string) {
    NamedAt(s, p, x) && '\n' !in s[p..p + Head(s[p..]).value.length]
  }

  /** Such a match ends before a line break, or begins behind it. */
  lemma BesideBreak(line: string, rest: string, p: nat, x: string)
    requires UnbrokenAt(line + "\n" + rest, p, x)
    ensures NamedAt(line, p, x) || (p > |line| && UnbrokenAt(rest, p - |line| - 1, x))
  {
    var s := line + "\n" + rest;
    var n := Head(s[p..]).value.length;
    if p + n <= |line| {
      assert s[p..] == line[p..] + "\n" + rest;
      HeadSame(s[p..], line[p..]);
    } else if p > |line| {
      var q := p - |line| - 1;
      assert s[p..] == rest[q..] && s[p..p + n] == rest[q..q + n];
    } else {
      SliceHolds(s, p, p + n, |line|);
      assert false;
    }
  }

  lemma NamedIsIn(s: string, p: nat, x: string)
    requires NamedAt(s, p, x)
    ensures x in Names(s)
  {
    NamesMean(s, x);
  }

  /** It stands in one line. */
  lemma {:induction false} StandsInLine(body: seq<string>, p: nat, x: string) returns (j: nat)
    requires body != [] && UnbrokenAt(Join(body), p, x)
    ensures j < |body| && x in Names(body[j])
  {
    j := 0;
    if |body| == 1 {
      NamedIsIn(body[0], p, x);
    } else {
      BesideBreak(body[0], Join(body[1..]), p, x);
      if NamedAt(body[0], p, x) {
        NamedIsIn(body[0], p, x);
      } else {
        j := StandsInLine(body[1..], p - |body[0]| - 1, x);
        j := j + 1;
      }
    }
  }

  /** Without spanning matches, joining adds no reference. */
  lemma JoinAddsNothing(body: seq<string>, x: string)
    requires NoneSpans(Join(body)) && x in Names(Join(body))
    ensures exists j :: 0 <= j < |body| && x in Names(body[j])
  {
    NamesMean(Join(body), x);
    var p: nat :| NamedAt(Join(body), p, x);
    if body != [] {
      var j := StandsInLine(body, p, x);
    }
  }
}
