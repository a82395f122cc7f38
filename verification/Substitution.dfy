/**
 substitute of nanoclaw/scripts/skill-apply.ts, said by what it does to a text: the references of
 the pattern VAR_REF are replaced, from left to right, and everything else stays.
 */
module Substitution {
  import opened Wrappers
  import opened Text
  import opened References
  import opened SkillEngine

  /** The text is one match of the pattern, with this name. */
  ghost predicate MatchOf(m: string, x: string) {
    exists i: nat, j: nat, k: nat :: Shape(m, i, j, k) && k + 2 == |m| && m[i..j] == x
  }

  ghost predicate MatchesAt(s: string, p: nat) {
    p <= |s| && exists i: nat, j: nat, k: nat :: Shape(s[p..], i, j, k)
  }

  /** The pattern does not match before position n. */
  ghost predicate FreeBefore(s: string, n: nat) {
    forall p: nat | p < n :: !MatchesAt(s, p)
  }

  /** s is `a`, the first match of the pattern, which refers to x, and `b`. */
  ghost predicate First(s: string, a: string, m: string, x: string, b: string) {
    s == a + m + b && MatchOf(m, x) && FreeBefore(s, |a|)
  }

  lemma MatchesHead(s: string, p: nat)
    requires p <= |s|
    ensures MatchesAt(s, p) <==> Head(s[p..]).Some?
  {
    if Head(s[p..]).Some? {
      var i, j, k := HeadShape(s[p..]);
    }
    if MatchesAt(s, p) {
      var i: nat, j: nat, k: nat :| Shape(s[p..], i, j, k);
      ShapeHead(s[p..], i, j, k);
    }
  }

  lemma MatchOfHead(m: string, x: string)
    requires MatchOf(m, x)
    ensures Head(m) == Some(Found(x, |m|))
  {
    var i: nat, j: nat, k: nat :| Shape(m, i, j, k) && k + 2 == |m| && m[i..j] == x;
    ShapeHead(m, i, j, k);
  }

  lemma HeadMatchOf(r: string)
    requires Head(r).Some?
    ensures MatchOf(r[..Head(r).value.length], Head(r).value.name)
  {
    var i, j, k := HeadShape(r);
    var m := r[..k + 2];
    assert Shape(m, i, j, k) && m[i..j] == r[i..j];
  }

  // ----- Pieces, from any position on -----

  ghost predicate Shifted(m: Matches, n: nat, k: Matches) {
    forall i: nat :: m(n + i) == k(i)
  }

  lemma ShiftedAt(m: Matches, n: nat, k: Matches, i: nat)
    requires Shifted(m, n, k)
    ensures m(n + i) == k(i)
  {
  }

  /** Another text that goes on with the same matches has the same pieces. */
  lemma {:induction false} PiecesShift(s: string, m: Matches, n: nat, u: string, k: Matches, q: nat)
    requires n <= |s| && s[n..] == u && Shifted(m, n, k)
    ensures PiecesFrom(s, m, n + q) == PiecesFrom(u, k, q)
    decreases |u| - q
  {
    hide Shifted;
    if q < |u| {
      ShiftedAt(m, n, k, q);
      assert s[n + q] == u[q];
      assert n + q + Stride(m, n + q) == n + (q + Stride(k, q));
      PiecesShift(s, m, n, u, k, q + Stride(k, q));
    }
  }

  lemma RestIsShifted(s: string, n: nat)
    requires n <= |s|
    ensures Shifted(MatchesOf(s), n, MatchesOf(s[n..]))
  {
    hide Head;
    forall i: nat
      ensures MatchesOf(s)(n + i) == MatchesOf(s[n..])(i)
    {
      assert n + i <= |s| ==> s[n..][i..] == s[n + i..];
    }
  }

  lemma RestOfPieces(s: string, n: nat)
    requires n <= |s|
    ensures PiecesFrom(s, MatchesOf(s), n) == Pieces(s[n..])
  {
    hide Head, MatchesOf, Shifted;
    RestIsShifted(s, n);
    PiecesShift(s, MatchesOf(s), n, s[n..], MatchesOf(s[n..]), 0);
  }

  /** What is put in front of a result. */
  function Behind(a: string, r: Result<string, Err>): Result<string, Err> {
    match r
    case Ok(rest) => Ok(a + rest)
    case Err(_) => r
  }

  lemma {:induction false} PlainFront(s: string, m: Matches, vars: Vars, i: nat, n: nat)
    requires i <= n <= |s| && forall p: nat | i <= p < n :: m(p).None?
    ensures Fill(PiecesFrom(s, m, i), vars) == Behind(s[i..n], Fill(PiecesFrom(s, m, n), vars))
    decreases n - i
  {
    if i < n {
      PlainFront(s, m, vars, i + 1, n);
      var rest := PiecesFrom(s, m, i + 1);
      assert PiecesFrom(s, m, i) == [Plain(s[i])] + rest && ([Plain(s[i])] + rest)[1..] == rest;
      assert s[i..n] == [s[i]] + s[i + 1..n];
      Together([s[i]], s[i + 1..n], Fill(PiecesFrom(s, m, n), vars));
    } else {
      assert s[i..n] == "";
      Together("", "", Fill(PiecesFrom(s, m, n), vars));
    }
  }

  lemma Together(a: string, b: string, r: Result<string, Err>)
    ensures Behind(a, Behind(b, r)) == Behind(a + b, r) && Behind("", r) == r
  {
    if r.Ok? {
      Assoc(a, b, r.value);
      assert "" + r.value == r.value;
    }
  }

  lemma FillRef(x: string, rest: seq<Piece>, vars: Vars)
    ensures Fill([Ref(x)] + rest, vars) ==
            if x in vars then Behind(vars[x], Fill(rest, vars)) else Result.Err(Unresolved(x))
  {
    assert ([Ref(x)] + rest)[1..] == rest;
  }

  lemma FirstMatches(s: string, a: string, m: string, x: string, b: string)
    requires First(s, a, m, x, b)
    ensures m != "" && MatchesAt(s, |a|) && Head(s[|a|..]) == Some(Found(x, |m|))
  {
    assert s[|a|..] == m + b;
    MatchOfHead(m, x);
    HeadSame(m, m + b);
    MatchesHead(s, |a|);
  }

  /** The first reference is replaced by its value and the rest is substituted; without a value it throws. */
  lemma SubstituteFirst(s: string, a: string, m: string, x: string, b: string, vars: Vars)
    requires First(s, a, m, x, b)
    ensures Substitute(s, vars) ==
            if x in vars then Behind(a + vars[x], Substitute(b, vars)) else Result.Err(Unresolved(x))
  {
    hide Head, First, MatchesOf, Fill;
    var f, n := MatchesOf(s), |a|;
    FirstParts(s, a, m, x, b);
    PlainFront(s, f, vars, 0, n);
    assert PiecesFrom(s, f, n) == [Ref(x)] + PiecesFrom(s, f, n + |m|);
    RestOfPieces(s, n + |m|);
    FillRef(x, Pieces(b), vars);
    if x in vars {
      Together(a, vars[x], Fill(Pieces(b), vars));
    }
  }

  lemma FirstParts(s: string, a: string, m: string, x: string, b: string)
    requires First(s, a, m, x, b)
    ensures |a| < |a| + |m| <= |s| && s[0..|a|] == a && s[|a| + |m|..] == b
    ensures MatchesOf(s)(|a|) == Some(Found(x, |m|)) && forall p: nat | p < |a| :: MatchesOf(s)(p).None?
  {
    hide Head, MatchOf, FreeBefore;
    FirstMatches(s, a, m, x, b);
    NoneInFront(s, |a|);
  }

  lemma NoneInFront(s: string, n: nat)
    requires n <= |s| && FreeBefore(s, n)
    ensures forall p: nat | p < n :: MatchesOf(s)(p).None?
  {
    forall p: nat | p < n
      ensures MatchesOf(s)(p).None?
    {
      MatchesHead(s, p);
    }
  }

  /** A text without references stays as it is. */
  lemma SubstituteFree(s: string, vars: Vars)
    requires FreeBefore(s, |s|)
    ensures Substitute(s, vars) == Ok(s)
  {
    NoneInFront(s, |s|);
    PlainFront(s, MatchesOf(s), vars, 0, |s|);
    assert s[0..|s|] == s && s + "" == s && PiecesFrom(s, MatchesOf(s), |s|) == [];
  }

  // ----- The whole text -----

  /** What a text becomes when its references are replaced from left to right. */
  ghost predicate Becomes(s: string, vars: Vars, text: string)
    decreases |s|
  {
    || (FreeBefore(s, |s|) && text == s)
    || (exists a, m, x, b, rest :: First(s, a, m, x, b) && m != "" && x in vars && text == a + vars[x] + rest
                                   && |b| < |s| && Becomes(b, vars, rest))
  }

  lemma FoundHere(s: string, p: nat) returns (a: string, m: string, x: string, b: string)
    requires p <= |s| && FreeBefore(s, p) && Head(s[p..]).Some?
    ensures First(s, a, m, x, b) && m != ""
  {
    hide Head, FreeBefore, MatchOf;
    var n := Head(s[p..]).value.length;
    HeadMatchOf(s[p..]);
    a, m, x, b := s[..p], s[p..][..n], Head(s[p..]).value.name, s[p + n..];
    assert s == a + m + b;
  }

  lemma {:induction false} FirstMatch(s: string, p: nat) returns (found: bool, a: string, m: string, x: string, b: string)
    requires p <= |s| && FreeBefore(s, p)
    ensures found ==> First(s, a, m, x, b) && m != ""
    ensures !found ==> FreeBefore(s, |s|)
    decreases |s| - p
  {
    hide Head, First;
    found, a, m, x, b := false, "", "", "", "";
    if p < |s| {
      MatchesHead(s, p);
      if Head(s[p..]).Some? {
        found := true;
        a, m, x, b := FoundHere(s, p);
      } else {
        found, a, m, x, b := FirstMatch(s, p + 1);
      }
    }
  }

  /** Substitution succeeds with exactly that text. */
  lemma {:induction false} SubstituteMeans(s: string, vars: Vars, text: string)
    ensures Substitute(s, vars) == Ok(text) <==> Becomes(s, vars, text)
    decreases |s|
  {
    var found, a, m, x, b := FirstMatch(s, 0);
    if !found {
      SubstituteFree(s, vars);
      NotFound(s, vars, text);
    } else {
      SubstituteFirst(s, a, m, x, b, vars);
      forall rest
        ensures Substitute(b, vars) == Ok(rest) <==> Becomes(b, vars, rest)
      {
        SubstituteMeans(b, vars, rest);
      }
      FoundMeans(s, a, m, x, b, vars, text);
    }
  }

  lemma NotFound(s: string, vars: Vars, text: string)
    requires FreeBefore(s, |s|)
    ensures Becomes(s, vars, text) <==> text == s
  {
    forall a, m, x, b | First(s, a, m, x, b)
      ensures m == ""
    {
      MatchOfHead(m, x);
      FirstMatches(s, a, m, x, b);
    }
  }

  /** There is only one first match. */
  lemma OneFirst(s: string, a: string, m: string, x: string, b: string, a': string, m': string, x': string, b': string)
    requires First(s, a, m, x, b) && First(s, a', m', x', b')
    ensures a == a' && x == x' && b == b'
  {
    FirstMatches(s, a, m, x, b);
    FirstMatches(s, a', m', x', b');
    assert |a| == |a'|;
    assert a == s[..|a|] == a' && b == s[|a| + |m|..] == b';
  }

  lemma FoundMeans(s: string, a: string, m: string, x: string, b: string, vars: Vars, text: string)
    requires First(s, a, m, x, b) && m != ""
    requires forall rest :: Substitute(b, vars) == Ok(rest) <==> Becomes(b, vars, rest)
    requires Substitute(s, vars) ==
             if x in vars then Behind(a + vars[x], Substitute(b, vars)) else Result.Err(Unresolved(x))
    ensures Substitute(s, vars) == Ok(text) <==> Becomes(s, vars, text)
  {
    FirstMatches(s, a, m, x, b);
    if Substitute(s, vars) == Ok(text) {
      var rest := Substitute(b, vars).value;
      assert Becomes(b, vars, rest) && |b| < |s|;
    }
    if Becomes(s, vars, text) {
      assert !FreeBefore(s, |s|);
      var a', m', x', b', rest :| First(s, a', m', x', b') && m' != "" && x' in vars && text == a' + vars[x'] + rest
                                  && |b'| < |s| && Becomes(b', vars, rest);
      OneFirst(s, a, m, x, b, a', m', x', b');
    }
  }
}
