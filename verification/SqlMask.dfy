/**
 nanoclaw/scripts/q.ts: blanking everything in a statement that is not code. The functions look
 at the rest of the statement, as the scanner does; the method is the scanner with its indices.
 */
module SqlMask {
  import opened Text

  // ----- Tokens at the front of a text -----

  predicate At(r: string, k: nat, pattern: string) {
    k + |pattern| <= |r| && r[k..k + |pattern|] == pattern
  }

  /** The first place from `from` on where the pattern stands, or |r|. */
  function Find(r: string, pattern: string, from: nat): (k: nat)
    requires pattern != "" && from <= |r|
    ensures from <= k <= |r|
    ensures k < |r| ==> k + |pattern| <= |r|
    decreases |r| - from
  {
    if from == |r| || At(r, from, pattern) then from else Find(r, pattern, from + 1)
  }

  function ClosedBy(r: string, pattern: string, from: nat): (n: nat)
    requires pattern != "" && from <= |r|
    ensures from <= n <= |r|
  {
    var k := Find(r, pattern, from);
    if k < |r| then k + |pattern| else |r|
  }

  /** The length of the dollar tag in front, or 0. */
  function DollarTag(r: string): (n: nat)
    ensures n == 0 || 2 <= n <= |r|
  {
    if |r| < 2 || r[0] != '$' then 0
    else if r[1] == '$' then 2
    else if !IsIdentStart(r[1]) then 0
    else
      var j := IdentEnd(r, 2);
      if j < |r| && r[j] == '$' then j + 1 else 0
  }

  predicate IsQuote(c: char) {
    c == '\'' || c == '"' || c == '`'
  }

  /** The end of a quoted token whose contents go on at `next`; a doubled quote is content. */
  function QuoteEnd(r: string, q: char, next: nat): (k: nat)
    requires next <= |r|
    ensures next <= k <= |r|
    decreases |r| - next
  {
    if next == |r| then next
    else if r[next] != q then QuoteEnd(r, q, next + 1)
    else if next + 1 < |r| && r[next + 1] == q then QuoteEnd(r, q, next + 2)
    else next + 1
  }

  /** Something that is not code begins here. */
  predicate Opens(r: string) {
    r != "" && (At(r, 0, "--") || At(r, 0, "/*") || DollarTag(r) > 0 || IsQuote(r[0]) || r[0] == '[')
  }

  function TokenLength(r: string): (n: nat)
    requires r != ""
    ensures 0 < n <= |r|
  {
    if At(r, 0, "--") then ClosedBy(r, "\n", 2)
    else if At(r, 0, "/*") then ClosedBy(r, "*/", 2)
    else if DollarTag(r) > 0 then ClosedBy(r, r[..DollarTag(r)], DollarTag(r))
    else if IsQuote(r[0]) then QuoteEnd(r, r[0], 1)
    else if r[0] == '[' then ClosedBy(r, "]", 1)
    else 1
  }

  function Blanked(s: string): (b: string)
    ensures |b| == |s|
    ensures forall k | 0 <= k < |s| :: b[k] == if s[k] == '\n' then '\n' else ' '
  {
    if s == "" then "" else [if s[0] == '\n' then '\n' else ' '] + Blanked(s[1..])
  }

  function Piece(r: string): (b: string)
    requires r != ""
    ensures |b| == TokenLength(r)
  {
    var n := TokenLength(r);
    if Opens(r) then Blanked(r[..n]) else r[..n]
  }

  function Mask(r: string): string {
    if r == "" then "" else Piece(r) + Mask(r[TokenLength(r)..])
  }

  // ----- The scanner -----

  lemma {:induction false} FindShift(s: string, i: nat, pattern: string, from: nat)
    requires pattern != "" && i <= from <= |s|
    ensures Find(s, pattern, from) == i + Find(s[i..], pattern, from - i)
    decreases |s| - from
  {
    if from < |s| {
      assert At(s, from, pattern) <==> At(s[i..], from - i, pattern) by {
        if from + |pattern| <= |s| {
          assert s[from..from + |pattern|] == s[i..][from - i..from - i + |pattern|];
        }
      }
      if !At(s, from, pattern) {
        FindShift(s, i, pattern, from + 1);
      }
    }
  }

  /** The loop over the contents of a quoted token. */
  method ScanQuote(s: string, i: nat) returns (next: nat)
    requires i < |s|
    ensures next == i + QuoteEnd(s[i..], s[i], 1)
  {
    var quote := s[i];
    ghost var r := s[i..];
    next := i + 1;
    while next < |s|
      invariant i < next <= |s|
      invariant QuoteEnd(r, quote, next - i) == QuoteEnd(r, quote, 1)
    {
      if s[next] != quote {
        next := next + 1;
        continue;
      }
      if next + 1 < |s| && s[next + 1] == quote {
        next := next + 2;
        continue;
      }
      next := next + 1;
      return;
    }
  }

  method ScanTo(s: string, i: nat, pattern: string, from: nat) returns (next: nat)
    requires pattern != "" && i <= from <= |s|
    ensures next == i + ClosedBy(s[i..], pattern, from - i)
  {
    var end := Find(s, pattern, from);
    FindShift(s, i, pattern, from);
    next := if end == |s| then |s| else end + |pattern|;
  }

  method ScanToken(s: string, i: nat) returns (next: nat)
    requires i < |s|
    ensures next == i + TokenLength(s[i..])
  {
    var rest := s[i..];
    if At(rest, 0, "--") {
      next := ScanTo(s, i, "\n", i + 2);
    } else if At(rest, 0, "/*") {
      next := ScanTo(s, i, "*/", i + 2);
    } else if DollarTag(rest) > 0 {
      next := ScanTo(s, i, rest[..DollarTag(rest)], i + DollarTag(rest));
    } else if IsQuote(s[i]) {
      next := ScanQuote(s, i);
    } else if s[i] == '[' {
      next := ScanTo(s, i, "]", i + 1);
    } else {
      next := i + 1;
    }
  }

  /** The text that replaces the token at i. */
  function Replacement(s: string, i: nat, next: nat): string
    requires i <= next <= |s|
  {
    if Opens(s[i..]) then Blanked(s[i..next]) else s[i..next]
  }

  lemma ReplacementIsPiece(s: string, i: nat, next: nat)
    requires i < |s| && next == i + TokenLength(s[i..])
    ensures next <= |s| && Replacement(s, i, next) == Piece(s[i..]) && s[i..][next - i..] == s[next..]
  {
    assert s[i..next] == s[i..][..next - i];
  }

  lemma MaskFrom(s: string, i: nat, next: nat, masked: string)
    requires i < |s| && next == i + TokenLength(s[i..])
    ensures next <= |s| && masked + Mask(s[i..]) == masked + Replacement(s, i, next) + Mask(s[next..])
  {
    ReplacementIsPiece(s, i, next);
    Assoc(masked, Replacement(s, i, next), Mask(s[next..]));
  }

  method MaskSqlNonCode(s: string) returns (masked: string)
    ensures masked == Mask(s)
  {
    masked := "";
    var i := 0;
    ghost var all := Mask(s);
    assert s[0..] == s;
    while i < |s|
      invariant 0 <= i <= |s|
      invariant masked + Mask(s[i..]) == all
    {
      var next := ScanToken(s, i);
      MaskFrom(s, i, next, masked);
      masked := masked + Replacement(s, i, next);
      i := next;
    }
    assert s[i..] == "";
  }

  // ----- Character by character -----

  predicate Blurs(c: char, m: char) {
    (m == c || m == ' ') && (m == '\n' <==> c == '\n')
  }

  /** The mask of a statement: same length, same line breaks, every character kept or blanked. */
  predicate Shadows(s: string, m: string) {
    |m| == |s| && forall k | 0 <= k < |s| :: Blurs(s[k], m[k])
  }

  lemma PieceShadows(r: string)
    requires r != ""
    ensures Shadows(r[..TokenLength(r)], Piece(r))
  {
  }

  lemma ShadowsTogether(s: string, m: string, u: string, n: string)
    requires Shadows(s, m) && Shadows(u, n)
    ensures Shadows(s + u, m + n)
  {
  }

  lemma {:induction false} MaskShadows(r: string)
    ensures Shadows(r, Mask(r))
  {
    if r != "" {
      var n := TokenLength(r);
      MaskShadows(r[n..]);
      PieceShadows(r);
      ShadowsTogether(r[..n], Piece(r), r[n..], Mask(r[n..]));
      assert r[..n] + r[n..] == r;
    }
  }

  predicate Visible(c: char) {
    c != ' ' && c != '\n'
  }

  lemma PieceVisible(r: string, k: nat)
    requires r != "" && k < TokenLength(r) && Visible(Piece(r)[k])
    ensures !Opens(r) && k == 0 && Piece(r)[0] == r[0]
  {
  }

  lemma SkipFront(r: string, n: nat, k: nat)
    requires n <= k < |r|
    ensures r[k] == r[n..][k - n] && r[k..] == r[n..][k - n..]
  {
  }

  predicate KeptAt(r: string, m: string, k: nat)
    requires k < |r| == |m|
  {
    m[k] == r[k] && !Opens(r[k..])
  }

  lemma FirstVisible(r: string, m: string, k: nat)
    requires r != "" && k < TokenLength(r) && m == Mask(r) && |m| == |r| && Visible(m[k])
    ensures KeptAt(r, m, k)
  {
    PieceVisible(r, k);
    assert r[0..] == r;
  }

  lemma LaterKept(r: string, m: string, n: nat, k: nat)
    requires n <= k < |r| == |m| && KeptAt(r[n..], m[n..], k - n)
    ensures KeptAt(r, m, k)
  {
    SkipFront(r, n, k);
  }

  lemma MaskRest(r: string, m: string)
    requires r != "" && m == Mask(r) && |m| == |r|
    ensures m[TokenLength(r)..] == Mask(r[TokenLength(r)..])
  {
  }

  /** A visible character of the mask is a code character of the statement. */
  lemma {:induction false} VisibleIsCode(r: string, m: string, k: nat)
    requires k < |r| == |m| && m == Mask(r) && Visible(m[k])
    ensures KeptAt(r, m, k)
    decreases |r|
  {
    var n := TokenLength(r);
    if k < n {
      FirstVisible(r, m, k);
    } else {
      MaskRest(r, m);
      SkipFront(m, n, k);
      VisibleIsCode(r[n..], m[n..], k - n);
      LaterKept(r, m, n, k);
    }
  }

  // ----- No opener survives -----

  lemma {:induction false} IdentEndSame(r: string, u: string, j: nat)
    requires j <= |r| && IdentEnd(r, j) < |r| && IdentEnd(r, j) < |u|
    requires forall k | j <= k <= IdentEnd(r, j) :: r[k] == u[k]
    ensures IdentEnd(u, j) == IdentEnd(r, j)
    decreases |r| - j
  {
    if IsIdentPart(r[j]) {
      IdentEndSame(r, u, j + 1);
    }
  }

  lemma DollarTagSame(r: string, u: string)
    requires DollarTag(r) > 0 && DollarTag(r) <= |u| && forall k | 0 <= k < DollarTag(r) :: r[k] == u[k]
    ensures DollarTag(u) == DollarTag(r)
  {
    if r[1] != '$' {
      IdentEndSame(r, u, 2);
    }
  }

  lemma TagVisible(r: string, k: nat)
    requires k < DollarTag(r)
    ensures Visible(r[k])
  {
    IdentEndMeans(r, 2);
    assert r[1] != '$' && 2 <= k < IdentEnd(r, 2) ==> IsIdentPart(r[k]);
  }

  /** Where the visible characters of m stand in u as well, an opener of m opens in u. */
  lemma OpenerShows(m: string, u: string)
    requires |m| == |u| && Opens(m) && forall j | 0 <= j < |m| && Visible(m[j]) :: u[j] == m[j]
    ensures Visible(m[0]) && Opens(u)
  {
    if At(m, 0, "--") || At(m, 0, "/*") {
      assert m[..2][0] == m[0] && m[..2][1] == m[1];
      assert u[..2] == m[..2];
    } else if DollarTag(m) > 0 {
      forall j | 0 <= j < DollarTag(m)
        ensures m[j] == u[j]
      {
        TagVisible(m, j);
      }
      DollarTagSame(m, u);
    }
  }

  /** No comment, quote, bracket or dollar tag begins anywhere in a masked statement. */
  lemma NoOpenerSurvives(s: string, k: nat)
    requires k < |Mask(s)|
    ensures !Opens(Mask(s)[k..])
  {
    var m := Mask(s);
    MaskShadows(s);
    if Opens(m[k..]) {
      forall j | 0 <= j < |m[k..]| && Visible(m[k..][j])
        ensures s[k..][j] == m[k..][j]
      {
        VisibleIsCode(s, m, k + j);
      }
      OpenerShows(m[k..], s[k..]);
      VisibleIsCode(s, m, k);
    }
  }

  lemma {:induction false} CodeUnchanged(r: string)
    requires forall k | 0 <= k < |r| :: !Opens(r[k..])
    ensures Mask(r) == r
  {
    if r != "" {
      assert r[0..] == r && !Opens(r) && TokenLength(r) == 1;
      forall k | 0 <= k < |r| - 1
        ensures !Opens(r[1..][k..])
      {
        assert r[1..][k..] == r[k + 1..];
      }
      CodeUnchanged(r[1..]);
    }
  }

  lemma MaskIdempotent(s: string)
    ensures Mask(Mask(s)) == Mask(s)
  {
    forall k | 0 <= k < |Mask(s)|
      ensures !Opens(Mask(s)[k..])
    {
      NoOpenerSurvives(s, k);
    }
    CodeUnchanged(Mask(s));
  }

  // ----- Where the scanner stops -----

  /** The scanner, started in front, comes to a token that begins at k. */
  predicate Reaches(r: string, k: nat)
    decreases |r|
  {
    k == 0 || (r != "" && TokenLength(r) <= k && Reaches(r[TokenLength(r)..], k - TokenLength(r)))
  }

  /** The texts agree up to and including position k. */
  predicate AgreeTo(r: string, u: string, k: nat) {
    k < |r| && k < |u| && forall j | 0 <= j <= k :: r[j] == u[j]
  }

  lemma AtSame(r: string, u: string, k: nat, j: nat, pattern: string)
    requires AgreeTo(r, u, k) && j + |pattern| <= k + 1
    ensures At(r, j, pattern) <==> At(u, j, pattern)
  {
    assert r[j..j + |pattern|] == u[j..j + |pattern|];
  }

  lemma {:induction false} FindSame(r: string, u: string, k: nat, pattern: string, from: nat)
    requires AgreeTo(r, u, k) && pattern != "" && from <= |r| && from <= |u|
    requires Find(r, pattern, from) < |r| && Find(r, pattern, from) + |pattern| <= k + 1
    ensures Find(u, pattern, from) == Find(r, pattern, from)
    decreases |r| - from
  {
    AtSame(r, u, k, from, pattern);
    if !At(r, from, pattern) {
      FindSame(r, u, k, pattern, from + 1);
    }
  }

  lemma ClosedSame(r: string, u: string, k: nat, pattern: string, from: nat)
    requires AgreeTo(r, u, k) && pattern != "" && from <= |r| && from <= |u| && ClosedBy(r, pattern, from) <= k
    ensures ClosedBy(u, pattern, from) == ClosedBy(r, pattern, from)
  {
    FindSame(r, u, k, pattern, from);
  }

  lemma {:induction false} QuoteSame(r: string, u: string, k: nat, q: char, next: nat)
    requires AgreeTo(r, u, k) && next <= |r| && next <= |u| && QuoteEnd(r, q, next) <= k
    ensures QuoteEnd(u, q, next) == QuoteEnd(r, q, next)
    decreases |r| - next
  {
    if r[next] != q {
      QuoteSame(r, u, k, q, next + 1);
    } else if next + 1 < |r| && r[next + 1] == q {
      QuoteSame(r, u, k, q, next + 2);
    }
  }

  lemma OpenerChar(r: string)
    requires Opens(r)
    ensures r[0] in {'-', '/', '$', '\'', '"', '`', '['}
  {
    if At(r, 0, "--") || At(r, 0, "/*") {
      assert r[..2][0] == r[0];
    }
  }

  lemma {:induction false} IdentEndShort(r: string, u: string, k: nat, j: nat)
    requires AgreeTo(r, u, k) && j <= k && !IsIdentPart(r[k])
    ensures IdentEnd(r, j) == IdentEnd(u, j) <= k
    decreases k - j
  {
    if j < k && IsIdentPart(r[j]) {
      IdentEndShort(r, u, k, j + 1);
    }
  }

  /** Whether a dollar tag begins in front is settled by the next character that is no name. */
  lemma TagSame(r: string, u: string, k: nat)
    requires AgreeTo(r, u, k) && 0 < k && !IsIdentPart(r[k])
    ensures DollarTag(r) == DollarTag(u)
  {
    if r[0] == '$' && r[1] != '$' && k >= 2 {
      IdentEndShort(r, u, k, 2);
    }
  }

  lemma TokenSame(r: string, u: string, k: nat)
    requires AgreeTo(r, u, k) && 0 < k && TokenLength(r) <= k && Opens(r[k..])
    ensures TokenLength(u) == TokenLength(r) && Piece(u) == Piece(r)
  {
    OpenerChar(r[k..]);
    TagSame(r, u, k);
    AtSame(r, u, k, 0, "--");
    AtSame(r, u, k, 0, "/*");
    var n := DollarTag(r);
    if At(r, 0, "--") {
      ClosedSame(r, u, k, "\n", 2);
    } else if At(r, 0, "/*") {
      ClosedSame(r, u, k, "*/", 2);
    } else if n > 0 {
      assert n <= TokenLength(r) && r[..n] == u[..n];
      ClosedSame(r, u, k, r[..n], n);
    } else if IsQuote(r[0]) {
      QuoteSame(r, u, k, r[0], 1);
    } else if r[0] == '[' {
      ClosedSame(r, u, k, "]", 1);
    }
    assert r[..TokenLength(r)] == u[..TokenLength(r)];
  }

  lemma AgreeRest(r: string, u: string, k: nat, n: nat)
    requires AgreeTo(r, u, k) && n <= k
    ensures AgreeTo(r[n..], u[n..], k - n) && r[n..][k - n..] == r[k..]
  {
  }

  /** The scanner gets to k in both texts, with the same output. */
  lemma {:induction false} PrefixSame(r: string, u: string, k: nat) returns (front: string)
    requires AgreeTo(r, u, k) && Reaches(r, k) && Opens(r[k..])
    ensures Mask(r) == front + Mask(r[k..]) && Mask(u) == front + Mask(u[k..])
    decreases |r|
  {
    if k == 0 {
      assert r[0..] == r && u[0..] == u;
      front := "";
    } else {
      var n := TokenLength(r);
      TokenSame(r, u, k);
      AgreeRest(r, u, k, n);
      AgreeRest(u, r, k, n);
      var rest := PrefixSame(r[n..], u[n..], k - n);
      front := Piece(r) + rest;
      Assoc(Piece(r), rest, Mask(r[k..]));
      Assoc(Piece(r), rest, Mask(u[k..]));
    }
  }

  // ----- What stands in a literal does not matter -----

  /** After `pre`, the scanner reads `tok` as one token that is not code. */
  predicate IsLiteral(pre: string, tok: string, post: string) {
    && tok != "" && Reaches(pre + tok + post, |pre|)
    && Opens(tok + post) && TokenLength(tok + post) == |tok|
  }

  lemma LiteralMask(tok: string, post: string)
    requires tok != "" && Opens(tok + post) && TokenLength(tok + post) == |tok|
    ensures Mask(tok + post) == Blanked(tok) + Mask(post)
  {
    assert (tok + post)[..|tok|] == tok && (tok + post)[|tok|..] == post;
  }

  /** Replacing one literal by another leaves the mask before and after it as it was. */
  lemma LiteralReplaced(pre: string, tok: string, other: string, post: string) returns (front: string)
    requires IsLiteral(pre, tok, post) && other != "" && other[0] == tok[0]
    requires Opens(other + post) && TokenLength(other + post) == |other|
    ensures Mask(pre + tok + post) == front + Blanked(tok) + Mask(post)
    ensures Mask(pre + other + post) == front + Blanked(other) + Mask(post)
  {
    var r, u := pre + tok + post, pre + other + post;
    assert r[|pre|..] == tok + post && u[|pre|..] == other + post;
    assert AgreeTo(r, u, |pre|);
    front := PrefixSame(r, u, |pre|);
    LiteralMask(tok, post);
    LiteralMask(other, post);
    Assoc(front, Blanked(tok), Mask(post));
    Assoc(front, Blanked(other), Mask(post));
  }

  // ----- Queries -----

  /** toUpperCase, character by character; some characters become two. */
  type Casing = char -> string

  function Upper(upper: Casing, s: string): string {
    if s == "" then "" else upper(s[0]) + Upper(upper, s[1..])
  }

  predicate Word(c: char) {
    IsIdentPart(c)
  }

  /** The keyword stands at p, not continued by a word character. */
  predicate KeywordAt(n: string, p: nat, keyword: string) {
    At(n, p, keyword) && (p + |keyword| == |n| || !Word(n[p + |keyword|]))
  }

  const HEADS := ["SELECT", "PRAGMA", "EXPLAIN", "VALUES"]
  const CHANGES := ["INSERT", "UPDATE", "DELETE"]

  predicate Heads(n: string) {
    exists i :: 0 <= i < |HEADS| && KeywordAt(n, 0, HEADS[i])
  }

  predicate ChangesAt(n: string, p: nat) {
    p <= |n| && (p == 0 || !Word(n[p - 1])) && exists i :: 0 <= i < |CHANGES| && KeywordAt(n, p, CHANGES[i])
  }

  predicate Changes(n: string) {
    exists p :: 0 <= p <= |n| && ChangesAt(n, p)
  }

  predicate ReturnsRows(n: string) {
    Heads(n) || (At(n, 0, "WITH") && !Changes(n))
  }

  predicate IsQuery(upper: Casing, s: string) {
    ReturnsRows(Upper(upper, Trim(Mask(s))))
  }

  /** Masking first changes nothing. */
  lemma MaskedIsQuery(upper: Casing, s: string)
    ensures IsQuery(upper, Mask(s)) <==> IsQuery(upper, s)
  {
    MaskIdempotent(s);
  }

  // ----- A gap between two texts -----

  predicate Gap(w: string) {
    w != "" && forall c <- w :: !Visible(c)
  }

  predicate WordsOnly(k: string) {
    k != "" && forall c <- k :: Word(c)
  }

  lemma InGap(x: string, w: string, y: string, p: nat)
    requires Gap(w) && p < |x + w + y|
    ensures var n := x + w + y;
            n[p] == if p < |x| then x[p] else if p < |x| + |w| then w[p - |x|] else y[p - |x| - |w|]
    ensures |x| <= p < |x| + |w| ==> !Word((x + w + y)[p])
  {
    if |x| <= p < |x| + |w| {
      assert w[p - |x|] in w;
    }
  }

  /** A keyword does not reach into a gap. */
  lemma KeywordMisses(n: string, p: nat, k: string, q: nat)
    requires WordsOnly(k) && p <= q < p + |k| && q < |n| && !Word(n[q])
    ensures !At(n, p, k)
  {
    assert k[q - p] in k;
    if p + |k| <= |n| {
      assert n[p..p + |k|][q - p] == n[q];
    }
  }

  lemma KeywordInFront(x: string, w: string, y: string, p: nat, k: string)
    requires Gap(w) && WordsOnly(k) && p <= |x|
    ensures At(x + w + y, p, k) <==> At(x, p, k)
    ensures KeywordAt(x + w + y, p, k) <==> KeywordAt(x, p, k)
  {
    var n := x + w + y;
    if p + |k| > |x| {
      InGap(x, w, y, |x|);
      KeywordMisses(n, p, k, |x|);
    } else {
      assert n[p..p + |k|] == x[p..p + |k|];
      InGap(x, w, y, p + |k|);
    }
  }

  lemma KeywordInGap(x: string, w: string, y: string, p: nat, k: string)
    requires Gap(w) && WordsOnly(k) && |x| <= p < |x| + |w|
    ensures !At(x + w + y, p, k)
  {
    InGap(x, w, y, p);
    KeywordMisses(x + w + y, p, k, p);
  }

  lemma KeywordBehind(x: string, w: string, y: string, p: nat, k: string)
    requires Gap(w) && p <= |y|
    ensures KeywordAt(x + w + y, |x| + |w| + p, k) <==> KeywordAt(y, p, k)
  {
    var n := x + w + y;
    assert n[|x| + |w|..] == y;
    if p + |k| <= |y| {
      assert n[|x| + |w| + p..|x| + |w| + p + |k|] == y[p..p + |k|];
    }
  }

  lemma KeywordsAreWords()
    ensures forall i | 0 <= i < |HEADS| :: WordsOnly(HEADS[i])
    ensures forall i | 0 <= i < |CHANGES| :: WordsOnly(CHANGES[i])
    ensures WordsOnly("WITH")
  {
  }

  lemma HeadsInFront(x: string, w: string, y: string)
    requires Gap(w)
    ensures Heads(x + w + y) <==> Heads(x)
  {
    KeywordsAreWords();
    forall i | 0 <= i < |HEADS|
      ensures KeywordAt(x + w + y, 0, HEADS[i]) <==> KeywordAt(x, 0, HEADS[i])
    {
      KeywordInFront(x, w, y, 0, HEADS[i]);
    }
  }

  lemma ChangesInFront(x: string, w: string, y: string, p: nat)
    requires Gap(w) && p <= |x|
    ensures ChangesAt(x + w + y, p) <==> ChangesAt(x, p)
  {
    KeywordsAreWords();
    forall i | 0 <= i < |CHANGES|
      ensures KeywordAt(x + w + y, p, CHANGES[i]) <==> KeywordAt(x, p, CHANGES[i])
    {
      KeywordInFront(x, w, y, p, CHANGES[i]);
    }
  }

  lemma ChangesInGap(x: string, w: string, y: string, p: nat)
    requires Gap(w) && |x| <= p < |x| + |w|
    ensures !ChangesAt(x + w + y, p)
  {
    KeywordsAreWords();
    forall i | 0 <= i < |CHANGES|
      ensures !KeywordAt(x + w + y, p, CHANGES[i])
    {
      KeywordInGap(x, w, y, p, CHANGES[i]);
    }
  }

  lemma ChangesBehind(x: string, w: string, y: string, p: nat)
    requires Gap(w) && p <= |y|
    ensures ChangesAt(x + w + y, |x| + |w| + p) <==> ChangesAt(y, p)
  {
    InGap(x, w, y, |x| + |w| - 1);
    if p > 0 {
      InGap(x, w, y, |x| + |w| + p - 1);
    }
    forall i | 0 <= i < |CHANGES|
      ensures KeywordAt(x + w + y, |x| + |w| + p, CHANGES[i]) <==> KeywordAt(y, p, CHANGES[i])
    {
      KeywordBehind(x, w, y, p, CHANGES[i]);
    }
  }

  lemma ChangesEitherSide(x: string, w: string, y: string)
    requires Gap(w)
    ensures Changes(x + w + y) <==> Changes(x) || Changes(y)
  {
    var n := x + w + y;
    if Changes(n) {
      var p :| 0 <= p <= |n| && ChangesAt(n, p);
      if p < |x| {
        ChangesInFront(x, w, y, p);
      } else if p < |x| + |w| {
        ChangesInGap(x, w, y, p);
      } else {
        ChangesBehind(x, w, y, p - |x| - |w|);
      }
    }
    if Changes(x) {
      var p :| 0 <= p <= |x| && ChangesAt(x, p);
      ChangesInFront(x, w, y, p);
    }
    if Changes(y) {
      var p :| 0 <= p <= |y| && ChangesAt(y, p);
      ChangesBehind(x, w, y, p);
    }
  }

  /** The verdict does not depend on what the gap looks like. */
  lemma GapDoesNotMatter(x: string, w: string, v: string, y: string)
    requires Gap(w) && Gap(v)
    ensures ReturnsRows(x + w + y) <==> ReturnsRows(x + v + y)
  {
    HeadsInFront(x, w, y);
    HeadsInFront(x, v, y);
    ChangesEitherSide(x, w, y);
    ChangesEitherSide(x, v, y);
    KeywordsAreWords();
    KeywordInFront(x, w, y, 0, "WITH");
    KeywordInFront(x, v, y, 0, "WITH");
  }

  // ----- Upper case and trimming around a gap -----

  /** Blanks have no upper case. */
  predicate KeepsBlanks(upper: Casing) {
    upper(' ') == " " && upper('\n') == "\n"
  }

  lemma {:induction false} UpperConcat(upper: Casing, s: string, t: string)
    ensures Upper(upper, s + t) == Upper(upper, s) + Upper(upper, t)
  {
    if s == "" {
      assert s + t == t;
    } else {
      UpperConcat(upper, s[1..], t);
      assert (s + t)[1..] == s[1..] + t;
      Assoc(upper(s[0]), Upper(upper, s[1..]), Upper(upper, t));
    }
  }

  lemma {:induction false} UpperGap(upper: Casing, w: string)
    requires KeepsBlanks(upper) && forall c <- w :: !Visible(c)
    ensures Upper(upper, w) == w
  {
    if w != "" {
      assert w[0] in w && forall c <- w[1..] :: c in w;
      UpperGap(upper, w[1..]);
      assert [w[0]] + w[1..] == w;
    }
  }

  lemma UpperAround(upper: Casing, x: string, w: string, y: string)
    requires KeepsBlanks(upper) && Gap(w)
    ensures Upper(upper, x + w + y) == Upper(upper, x) + w + Upper(upper, y)
  {
    UpperConcat(upper, x + w, y);
    UpperConcat(upper, x, w);
    UpperGap(upper, w);
  }

  lemma GapIsBlank(w: string)
    requires Gap(w)
    ensures AllBlank(w)
  {
  }

  /** Trimming leaves the gap in the middle, or takes it away together with one side. */
  lemma TrimAround(a: string, w: string, c: string)
    requires Gap(w)
    ensures Trim(a + w + c) ==
            if AllBlank(a) then Trim(c)
            else if AllBlank(c) then Trim(a)
            else TrimLeft(a) + w + TrimRight(c)
  {
    GapIsBlank(w);
    if AllBlank(a) {
      assert AllBlank(a + w);
      TrimLeftBlanks(a + w, c);
    } else {
      assert a + w + c == a + (w + c);
      TrimLeftKeeps(a, w + c);
      TrimLeftKeeps(a, "");
      assert TrimLeft(a) + (w + c) == TrimLeft(a) + w + c;
      if AllBlank(c) {
        TrimRightBlanks(TrimLeft(a) + w, c);
        TrimRightBlanks(TrimLeft(a), w);
      } else {
        TrimRightKeeps(TrimLeft(a) + w, c);
      }
    }
  }

  lemma SameVerdict(upper: Casing, a: string, w: string, v: string, c: string)
    requires KeepsBlanks(upper) && Gap(w) && Gap(v)
    ensures ReturnsRows(Upper(upper, Trim(a + w + c))) <==> ReturnsRows(Upper(upper, Trim(a + v + c)))
  {
    TrimAround(a, w, c);
    TrimAround(a, v, c);
    if !AllBlank(a) && !AllBlank(c) {
      UpperAround(upper, TrimLeft(a), w, TrimRight(c));
      UpperAround(upper, TrimLeft(a), v, TrimRight(c));
      GapDoesNotMatter(Upper(upper, TrimLeft(a)), w, v, Upper(upper, TrimRight(c)));
    }
  }

  lemma BlankedIsGap(s: string)
    requires s != ""
    ensures Gap(Blanked(s))
  {
    forall c <- Blanked(s)
      ensures !Visible(c)
    {
      var k :| 0 <= k < |s| && Blanked(s)[k] == c;
    }
  }

  /**
   What a string literal, quoted name, comment or dollar-quoted text says has no influence on
   whether the statement is a query: any other token that opens with the same character does as well.
   */
  lemma LiteralsDoNotMatter(upper: Casing, pre: string, tok: string, other: string, post: string)
    requires KeepsBlanks(upper) && IsLiteral(pre, tok, post) && other != "" && other[0] == tok[0]
    requires Opens(other + post) && TokenLength(other + post) == |other|
    ensures IsQuery(upper, pre + tok + post) <==> IsQuery(upper, pre + other + post)
  {
    var front := LiteralReplaced(pre, tok, other, post);
    BlankedIsGap(tok);
    BlankedIsGap(other);
    SameVerdict(upper, front, Blanked(tok), Blanked(other), Mask(post));
  }
}
