/**
 What the scanner of nanoclaw/scripts/q.ts takes for one token that is not code: comments, quoted
 texts, bracketed names and dollar-quoted texts, with the characters they begin and end with.
 */
module SqlTokens {
  import opened Text
  import opened SqlMask

  /** n is behind the first p from `from` on, or the end of the text if there is none. */
  predicate EndsBehind(r: string, p: string, from: nat, n: nat) {
    || (from + |p| <= n <= |r| && StandsAt(r, n - |p|, p) && forall k | from <= k < n - |p| :: !StandsAt(r, k, p))
    || (n == |r| && forall k | from <= k <= |r| :: !StandsAt(r, k, p))
  }

  lemma {:induction false} FindMeans(r: string, p: string, from: nat)
    requires p != "" && from <= |r|
    ensures var k := Find(r, p, from);
            && (forall j | from <= j < k :: !StandsAt(r, j, p))
            && (k < |r| ==> StandsAt(r, k, p))
    decreases |r| - from
  {
    if from < |r| && !At(r, from, p) {
      FindMeans(r, p, from + 1);
    }
  }

  lemma ClosedByMeans(r: string, p: string, from: nat)
    requires p != "" && from <= |r|
    ensures EndsBehind(r, p, from, ClosedBy(r, p, from))
  {
    FindMeans(r, p, from);
  }

  // ----- Dollar tags -----

  /** Two dollar signs, with nothing or a name between them. */
  predicate IsTag(t: string) {
    |t| >= 2 && t[0] == '$' && t[|t| - 1] == '$' && (|t| == 2 || IsIdent(t[1..|t| - 1]))
  }

  lemma TagIs(r: string)
    requires DollarTag(r) > 0
    ensures IsTag(r[..DollarTag(r)])
  {
    var n := DollarTag(r);
    if r[1] != '$' {
      IdentEndMeans(r, 2);
      var name := r[..n][1..n - 1];
      assert forall i | 0 <= i < n - 2 :: name[i] == r[i + 1];
    }
  }

  lemma TagFound(r: string, n: nat)
    requires n <= |r| && IsTag(r[..n])
    ensures DollarTag(r) == n
  {
    var t := r[..n];
    assert t[0] == r[0] && t[n - 1] == r[n - 1];
    if n == 2 {
      assert r[1] == '$';
    } else {
      var name := t[1..n - 1];
      assert forall i | 0 <= i < |name| :: name[i] == r[i + 1];
      assert name[0] == r[1];
      NameEnds(r, n - 1);
    }
  }

  lemma NameEnds(r: string, k: nat)
    requires 2 <= k < |r| && r[k] == '$' && forall i | 2 <= i < k :: IsIdentPart(r[i])
    ensures IdentEnd(r, 2) == k
  {
    IdentEndMeans(r, 2);
  }

  // ----- Quoted texts -----

  /** Every q in the body stands doubled. */
  predicate Doubled(body: string, q: char) {
    || body == ""
    || (body[0] != q && Doubled(body[1..], q))
    || (|body| >= 2 && body[0] == body[1] == q && Doubled(body[2..], q))
  }

  lemma {:induction false} QuoteEndMeans(r: string, q: char, next: nat)
    requires next <= |r|
    ensures var n := QuoteEnd(r, q, next);
            || (next < n && r[n - 1] == q && Doubled(r[next..n - 1], q) && (n < |r| ==> r[n] != q))
            || (n == |r| && Doubled(r[next..], q))
    decreases |r| - next
  {
    if next < |r| && r[next] != q {
      QuoteEndMeans(r, q, next + 1);
      DoubledLonger(r, q, next, 1);
    } else if next + 1 < |r| && r[next + 1] == q {
      QuoteEndMeans(r, q, next + 2);
      DoubledLonger(r, q, next, 2);
    } else if next < |r| {
      assert r[next..next] == "";
    } else {
      assert r[next..] == "";
    }
  }

  lemma DoubledLonger(r: string, q: char, next: nat, k: nat)
    requires next + k <= |r| && ((k == 1 && r[next] != q) || (k == 2 && r[next] == r[next + 1] == q))
    ensures Doubled(r[next + k..], q) ==> Doubled(r[next..], q)
    ensures forall n | next + k <= n <= |r| && Doubled(r[next + k..n], q) :: Doubled(r[next..n], q)
  {
    assert r[next..][k..] == r[next + k..];
    forall n | next + k <= n <= |r| && Doubled(r[next + k..n], q)
      ensures Doubled(r[next..n], q)
    {
      assert r[next..n][k..] == r[next + k..n];
    }
  }

  // ----- Tokens -----

  /** What a token is, by the characters in front. */
  predicate Comment(r: string) {
    "--" <= r
  }

  predicate Block(r: string) {
    "/*" <= r
  }

  predicate Quoted(r: string) {
    r != "" && (r[0] == '\'' || r[0] == '"' || r[0] == '`')
  }

  predicate Bracketed(r: string) {
    r != "" && r[0] == '['
  }

  ghost predicate DollarQuoted(r: string) {
    exists n: nat :: n <= |r| && IsTag(r[..n])
  }

  lemma PrefixAt(r: string, p: string)
    ensures At(r, 0, p) <==> p <= r
  {
    if |p| <= |r| {
      assert r[0..0 + |p|] == r[..|p|];
    }
  }

  lemma DollarQuotedMeans(r: string)
    ensures DollarQuoted(r) <==> DollarTag(r) > 0
  {
    if DollarTag(r) > 0 {
      TagIs(r);
    }
    if DollarQuoted(r) {
      var n: nat :| n <= |r| && IsTag(r[..n]);
      TagFound(r, n);
    }
  }

  /** Everything but code begins with one of these. */
  lemma OpensMeans(r: string)
    ensures Opens(r) <==> Comment(r) || Block(r) || Quoted(r) || Bracketed(r) || DollarQuoted(r)
  {
    PrefixAt(r, "--");
    PrefixAt(r, "/*");
    DollarQuotedMeans(r);
  }

  /**
   Where the token in front ends: a comment with its line, a block with its closing mark, a
   dollar-quoted text with its own tag, a quoted text with the first quote that is not doubled, a
   bracketed name with its bracket; each at the end of the text if that is missing. Anything else is
   one character of code.
   */
  lemma TokenMeans(r: string)
    requires r != ""
    ensures var n := TokenLength(r);
            if Comment(r) then EndsBehind(r, "\n", 2, n)
            else if Block(r) then EndsBehind(r, "*/", 2, n)
            else if DollarQuoted(r) then exists t: nat :: t <= |r| && IsTag(r[..t]) && EndsBehind(r, r[..t], t, n)
            else if Quoted(r) then
              || (1 < n <= |r| && r[n - 1] == r[0] && Doubled(r[1..n - 1], r[0]) && (n < |r| ==> r[n] != r[0]))
              || (n == |r| && Doubled(r[1..], r[0]))
            else if Bracketed(r) then EndsBehind(r, "]", 1, n)
            else n == 1
  {
    PrefixAt(r, "--");
    PrefixAt(r, "/*");
    DollarQuotedMeans(r);
    var t := DollarTag(r);
    if Comment(r) {
      ClosedByMeans(r, "\n", 2);
    } else if Block(r) {
      ClosedByMeans(r, "*/", 2);
    } else if t > 0 {
      TagIs(r);
      ClosedByMeans(r, r[..t], t);
    } else if Quoted(r) {
      QuoteEndMeans(r, r[0], 1);
    } else if Bracketed(r) {
      ClosedByMeans(r, "]", 1);
    }
  }
}
