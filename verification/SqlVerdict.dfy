/**
 isQuery of nanoclaw/scripts/q.ts, said without its mask: which statements return rows, in terms of
 the characters that the scanner takes for code.
 */
module SqlVerdict {
  import opened Text
  import opened SqlMask

  // ----- Code, character by character -----

  /** The scanner comes to position k, and nothing that is not code begins there. */
  predicate CodeAt(s: string, k: nat)
    requires k < |s|
  {
    Reaches(s, k) && !Opens(s[k..])
  }

  /** What position k of a statement looks like to isQuery: itself, a line break, or a space. */
  function Seen(s: string, k: nat): char
    requires k < |s|
  {
    if CodeAt(s, k) then s[k] else if s[k] == '\n' then '\n' else ' '
  }

  lemma FirstSeen(r: string, k: nat)
    requires k < |r| && k < TokenLength(r)
    ensures Piece(r)[k] == Seen(r, k)
  {
    assert r[0..] == r;
  }

  lemma LaterSeen(r: string, n: nat, k: nat)
    requires r != "" && n == TokenLength(r) && n <= k < |r|
    ensures Seen(r, k) == Seen(r[n..], k - n)
  {
    assert r[n..][k - n..] == r[k..];
  }

  lemma FirstMasked(r: string, m: string, k: nat)
    requires k < |r| == |m| && k < TokenLength(r) && m == Mask(r)
    ensures m[k] == Piece(r)[k]
  {
  }

  lemma FirstExact(r: string, m: string, k: nat)
    requires k < |r| == |m| && k < TokenLength(r) && m == Mask(r)
    ensures m[k] == Seen(r, k)
  {
    FirstMasked(r, m, k);
    FirstSeen(r, k);
  }

  lemma LaterExact(r: string, m: string, n: nat, k: nat)
    requires r != "" && n == TokenLength(r) && n <= k < |r| == |m| && m[n..][k - n] == Seen(r[n..], k - n)
    ensures m[k] == Seen(r, k)
  {
    LaterSeen(r, n, k);
    SkipFront(m, n, k);
  }

  /** The mask shows exactly the code. */
  lemma {:induction false} MaskIsExact(s: string, m: string, k: nat)
    requires k < |s| == |m| && m == Mask(s)
    ensures m[k] == Seen(s, k)
    decreases |s|
  {
    hide TokenLength, Opens;
    var n := TokenLength(s);
    if k < n {
      FirstExact(s, m, k);
    } else {
      MaskRest(s, m);
      MaskIsExact(s[n..], m[n..], k - n);
      LaterExact(s, m, n, k);
    }
  }

  // ----- The verdict on a text in upper case -----

  predicate Spelt(n: string, p: nat, k: string) {
    p + |k| <= |n| && forall j | 0 <= j < |k| :: n[p + j] == k[j]
  }

  /** The word stands at p, and no word character follows it. */
  predicate EndsAt(n: string, p: nat, k: string) {
    Spelt(n, p, k) && (p + |k| < |n| ==> !IsIdentPart(n[p + |k|]))
  }

  /** It stands there as a whole word. */
  predicate WholeAt(n: string, p: nat, k: string) {
    EndsAt(n, p, k) && (0 < p <= |n| ==> !IsIdentPart(n[p - 1]))
  }

  predicate BeginsAt(n: string, f: nat) {
    f < |n| && !IsBlank(n[f]) && AllBlank(n[..f])
  }

  predicate ChangeAt(n: string, p: nat) {
    WholeAt(n, p, "INSERT") || WholeAt(n, p, "UPDATE") || WholeAt(n, p, "DELETE")
  }

  ghost predicate RowsAt(n: string, f: nat) {
    || EndsAt(n, f, "SELECT") || EndsAt(n, f, "PRAGMA") || EndsAt(n, f, "EXPLAIN") || EndsAt(n, f, "VALUES")
    || (Spelt(n, f, "WITH") && forall p: nat | p < |n| :: !ChangeAt(n, p))
  }

  lemma SpeltAt(n: string, p: nat, k: string)
    ensures At(n, p, k) <==> Spelt(n, p, k)
  {
    if p + |k| <= |n| {
      var u := n[p..p + |k|];
      assert forall j | 0 <= j < |k| :: u[j] == n[p + j];
    }
  }

  lemma HeadsSpelt(n: string)
    ensures Heads(n) <==> EndsAt(n, 0, "SELECT") || EndsAt(n, 0, "PRAGMA") || EndsAt(n, 0, "EXPLAIN") || EndsAt(n, 0, "VALUES")
  {
    SpeltAt(n, 0, "SELECT");
    SpeltAt(n, 0, "PRAGMA");
    SpeltAt(n, 0, "EXPLAIN");
    SpeltAt(n, 0, "VALUES");
    assert HEADS[0] == "SELECT" && HEADS[1] == "PRAGMA" && HEADS[2] == "EXPLAIN" && HEADS[3] == "VALUES";
  }

  lemma ChangesSpelt(n: string, p: nat)
    requires p <= |n|
    ensures ChangesAt(n, p) <==> ChangeAt(n, p)
  {
    SpeltAt(n, p, "INSERT");
    SpeltAt(n, p, "UPDATE");
    SpeltAt(n, p, "DELETE");
    assert CHANGES[0] == "INSERT" && CHANGES[1] == "UPDATE" && CHANGES[2] == "DELETE";
  }

  /** The test of isQuery, with its keywords spelt out. */
  lemma ReturnsSpelt(n: string)
    ensures ReturnsRows(n) <==> RowsAt(n, 0)
  {
    HeadsSpelt(n);
    SpeltAt(n, 0, "WITH");
    forall p: nat | p <= |n|
      ensures ChangesAt(n, p) <==> ChangeAt(n, p)
    {
      ChangesSpelt(n, p);
    }
    assert !ChangeAt(n, |n|);
    assert Changes(n) <==> exists p: nat :: p < |n| && ChangeAt(n, p);
  }

  // ----- Blanks around a text -----

  lemma BlankIsNoWord(c: char)
    requires IsBlank(c)
    ensures !IsIdentPart(c)
  {
  }

  /** Blanks around a text hide no word and make none. */
  lemma SpeltInside(a: string, t: string, b: string, p: nat, k: string)
    requires AllBlank(a) && AllBlank(b) && WordsOnly(k) && p < |t|
    ensures Spelt(a + t + b, |a| + p, k) <==> Spelt(t, p, k)
    ensures EndsAt(a + t + b, |a| + p, k) <==> EndsAt(t, p, k)
    ensures WholeAt(a + t + b, |a| + p, k) <==> WholeAt(t, p, k)
  {
    var n := a + t + b;
    assert forall j | 0 <= j < |t| :: n[|a| + j] == t[j];
    if |t| < |n| - |a| {
      assert n[|a| + |t|] == b[0] && b[0] in b;
    }
    if a != "" {
      assert n[|a| - 1] == a[|a| - 1] && a[|a| - 1] in a;
    }
    if p + |k| > |t| && |a| + p + |k| <= |n| {
      assert k[|t| - p] in k && n[|a| + p + (|t| - p)] == b[0];
    }
  }

  lemma NoWordInBlanks(n: string, p: nat, k: string)
    requires WordsOnly(k) && p < |n| && IsBlank(n[p])
    ensures !Spelt(n, p, k)
  {
    assert k[0] in k && n[p] != k[0];
  }

  lemma ChangeInside(a: string, t: string, b: string, p: nat)
    requires AllBlank(a) && AllBlank(b) && p < |t|
    ensures ChangeAt(a + t + b, |a| + p) <==> ChangeAt(t, p)
  {
    SpeltInside(a, t, b, p, "INSERT");
    SpeltInside(a, t, b, p, "UPDATE");
    SpeltInside(a, t, b, p, "DELETE");
  }

  lemma NoChangeInBlanks(n: string, p: nat)
    requires p < |n| && IsBlank(n[p])
    ensures !ChangeAt(n, p)
  {
    NoWordInBlanks(n, p, "INSERT");
    NoWordInBlanks(n, p, "UPDATE");
    NoWordInBlanks(n, p, "DELETE");
  }

  lemma NoChangesAround(a: string, t: string, b: string)
    requires AllBlank(a) && AllBlank(b)
    ensures (forall p: nat | p < |a + t + b| :: !ChangeAt(a + t + b, p)) <==> forall p: nat | p < |t| :: !ChangeAt(t, p)
  {
    var n := a + t + b;
    forall p: nat | p < |t|
      ensures ChangeAt(n, |a| + p) <==> ChangeAt(t, p)
    {
      ChangeInside(a, t, b, p);
    }
    forall p: nat | p < |n| && !(|a| <= p < |a| + |t|)
      ensures !ChangeAt(n, p)
    {
      assert n[p] == if p < |a| then a[p] else b[p - |a| - |t|];
      assert if p < |a| then a[p] in a else b[p - |a| - |t|] in b;
      NoChangeInBlanks(n, p);
    }
    if forall p: nat | p < |t| :: !ChangeAt(t, p) {
      forall p: nat | p < |n|
        ensures !ChangeAt(n, p)
      {
        if |a| <= p < |a| + |t| {
          assert ChangeAt(n, |a| + (p - |a|)) <==> ChangeAt(t, p - |a|);
        }
      }
    }
  }

  lemma RowsInside(a: string, t: string, b: string)
    requires AllBlank(a) && AllBlank(b) && t != ""
    ensures RowsAt(a + t + b, |a|) <==> RowsAt(t, 0)
  {
    SpeltInside(a, t, b, 0, "SELECT");
    SpeltInside(a, t, b, 0, "PRAGMA");
    SpeltInside(a, t, b, 0, "EXPLAIN");
    SpeltInside(a, t, b, 0, "VALUES");
    SpeltInside(a, t, b, 0, "WITH");
    NoChangesAround(a, t, b);
  }

  lemma BlankBefore(n: string, f: nat, g: nat)
    requires BeginsAt(n, f) && g < f
    ensures IsBlank(n[g])
  {
    assert n[..f][g] == n[g] && n[g] in n[..f];
  }

  lemma OneBeginning(n: string, f: nat, g: nat)
    requires BeginsAt(n, f) && BeginsAt(n, g)
    ensures f == g
  {
    if f < g {
      BlankBefore(n, g, f);
    } else if g < f {
      BlankBefore(n, f, g);
    }
  }

  // ----- The verdict on a statement -----

  /** What holds of toUpperCase: blanks stay, and nothing else turns into nothing or into blanks. */
  ghost predicate Proper(upper: Casing) {
    forall c :: if IsBlank(c) then upper(c) == [c] else upper(c) != "" && forall d <- upper(c) :: !IsBlank(d)
  }

  lemma {:induction false} UpperBlanks(upper: Casing, w: string)
    requires Proper(upper) && AllBlank(w)
    ensures Upper(upper, w) == w
  {
    if w != "" {
      assert w[0] in w && forall c <- w[1..] :: c in w;
      UpperBlanks(upper, w[1..]);
      assert [w[0]] + w[1..] == w;
    }
  }

  lemma UpperTrimmed(upper: Casing, t: string)
    requires Proper(upper) && t != "" && Trimmed(t)
    ensures Upper(upper, t) != "" && !IsBlank(Upper(upper, t)[0])
  {
    assert upper(t[0])[0] in upper(t[0]);
  }

  lemma {:induction false} TrimRightIsFront(s: string)
    ensures AllBlank(s[|TrimRight(s)|..])
  {
    if s != "" && IsBlank(s[|s| - 1]) {
      TrimRightIsFront(s[..|s| - 1]);
      assert s[|TrimRight(s)|..] == s[..|s| - 1][|TrimRight(s)|..] + [s[|s| - 1]];
    }
  }

  /** A text is its trimmed part with blanks around it. */
  lemma AroundTrim(s: string) returns (a: string, b: string)
    ensures s == a + Trim(s) + b && AllBlank(a) && AllBlank(b) && Trimmed(Trim(s))
  {
    TrimLeftIsEnd(s);
    IndentIsBlank(s);
    var u := TrimLeft(s);
    TrimRightIsFront(u);
    a, b := Indent(s), u[|Trim(s)|..];
    assert s == a + u && u == Trim(s) + b;
    assert s == a + (Trim(s) + b) == a + Trim(s) + b;
    if Trim(s) != "" {
      assert Trim(s)[0] == u[0];
    }
  }

  /** What isQuery looks at. */
  function Look(s: string): (t: string)
    ensures |t| == |s| && forall k: nat | k < |s| :: t[k] == Seen(s, k)
  {
    seq(|s|, k requires 0 <= k < |s| => Seen(s, k))
  }

  /** A statement in upper case, with everything blanked that is not code. */
  function CodeText(upper: Casing, s: string): string {
    Upper(upper, Look(s))
  }

  lemma CodeTextIsMask(upper: Casing, s: string)
    ensures CodeText(upper, s) == Upper(upper, Mask(s))
  {
    MaskShadows(s);
    forall k: nat | k < |s|
      ensures Mask(s)[k] == Look(s)[k]
    {
      MaskIsExact(s, Mask(s), k);
    }
    assert Look(s) == Mask(s);
  }

  lemma UpperBetween(upper: Casing, a: string, t: string, b: string)
    requires Proper(upper) && AllBlank(a) && AllBlank(b)
    ensures Upper(upper, a + t + b) == a + Upper(upper, t) + b
  {
    UpperConcat(upper, a + t, b);
    UpperConcat(upper, a, t);
    UpperBlanks(upper, a);
    UpperBlanks(upper, b);
  }

  /**
   The verdict. A statement is a query if and only if its code begins with SELECT, PRAGMA, EXPLAIN or
   VALUES, not continued by a word character, or begins with WITH and has none of INSERT, UPDATE and
   DELETE as a whole word anywhere.
   */
  lemma Verdict(upper: Casing, s: string)
    requires Proper(upper)
    ensures IsQuery(upper, s) <==> exists f: nat :: BeginsAt(CodeText(upper, s), f) && RowsAt(CodeText(upper, s), f)
  {
    var a, b := AroundTrim(Mask(s));
    var t := Upper(upper, Trim(Mask(s)));
    var n := CodeText(upper, s);
    CodeTextIsMask(upper, s);
    UpperBetween(upper, a, Trim(Mask(s)), b);
    assert n == a + t + b;
    ReturnsSpelt(t);
    if Trim(Mask(s)) != "" {
      UpperTrimmed(upper, Trim(Mask(s)));
    }
    TextVerdict(a, t, b, n);
  }

  lemma TextVerdict(a: string, t: string, b: string, n: string)
    requires AllBlank(a) && AllBlank(b) && n == a + t + b && (t != "" ==> !IsBlank(t[0]))
    ensures RowsAt(t, 0) <==> exists f: nat :: BeginsAt(n, f) && RowsAt(n, f)
  {
    if t == "" {
      forall f: nat | f < |n|
        ensures IsBlank(n[f])
      {
        assert n[f] == if f < |a| then a[f] else b[f - |a|];
        assert if f < |a| then a[f] in a else b[f - |a|] in b;
      }
    } else {
      RowsInside(a, t, b);
      assert n[|a|] == t[0] && n[..|a|] == a;
      assert BeginsAt(n, |a|);
      forall f: nat | BeginsAt(n, f)
        ensures f == |a|
      {
        OneBeginning(n, f, |a|);
      }
    }
  }

  // ----- Statements that begin with a word -----

  predicate HeadWord(k: string) {
    k == "SELECT" || k == "PRAGMA" || k == "EXPLAIN" || k == "VALUES"
  }

  /** Behind blanks, comments and literals the code of the statement goes on with w. */
  predicate LeadsWith(s: string, pre: string, w: string) {
    && pre + w <= s
    && (forall k: nat | k < |pre| :: IsBlank(Seen(s, k)))
    && (forall k: nat | |pre| <= k < |pre| + |w| :: CodeAt(s, k))
  }

  /** The character that follows w, if any, is no word character in upper case. */
  predicate WordEnds(upper: Casing, s: string, k: nat) {
    k < |s| ==> upper(Seen(s, k)) == "" || !IsIdentPart(upper(Seen(s, k))[0])
  }

  lemma LookAtWord(s: string, pre: string, w: string)
    requires LeadsWith(s, pre, w)
    ensures |pre| + |w| <= |s| && AllBlank(Look(s)[..|pre|]) && Look(s)[|pre|..|pre| + |w|] == w
  {
    hide TokenLength, Opens, Reaches;
    var n := |pre| + |w|;
    assert s[..n] == pre + w;
    forall k: nat | |pre| <= k < n
      ensures Look(s)[k] == w[k - |pre|]
    {
      assert CodeAt(s, k) && s[k] == s[..n][k];
    }
  }

  lemma TextOfWord(upper: Casing, s: string, a: string, w: string, b: string)
    requires Proper(upper) && AllBlank(a) && Look(s) == a + w + b
    ensures CodeText(upper, s) == a + Upper(upper, w) + Upper(upper, b)
  {
    UpperConcat(upper, a + w, b);
    UpperConcat(upper, a, w);
    UpperBlanks(upper, a);
  }

  lemma RestOfText(upper: Casing, s: string, n: nat)
    requires n <= |s| && WordEnds(upper, s, n) && Proper(upper)
    ensures var rest := Upper(upper, Look(s)[n..]); rest == "" || !IsIdentPart(rest[0])
  {
    hide Seen;
    var b := Look(s)[n..];
    assert b != "" ==> b[0] == Seen(s, n);
  }

  lemma BeginsBehind(a: string, u: string, rest: string, n: string, k: string)
    requires n == a + u + rest && AllBlank(a) && u == k && WordsOnly(k)
    ensures BeginsAt(n, |a|) && Spelt(n, |a|, k)
    ensures EndsAt(n, |a|, k) <==> rest == "" || !IsIdentPart(rest[0])
  {
    assert n[..|a|] == a && k[0] in k && n[|a|] == k[0];
    assert forall j | 0 <= j < |k| :: n[|a| + j] == k[j];
    assert rest != "" ==> n[|a| + |k|] == rest[0];
  }

  /** A statement whose code begins with one of four words, in any casing of it, is a query. */
  lemma HeadIsQuery(upper: Casing, s: string, pre: string, w: string, k: string)
    requires Proper(upper) && LeadsWith(s, pre, w) && Upper(upper, w) == k && HeadWord(k)
    requires WordEnds(upper, s, |pre + w|)
    ensures IsQuery(upper, s)
  {
    hide Upper, Look, IsQuery, Seen, HeadWord;
    var a, rest := HeadText(upper, s, pre, w);
    HeadShows(a, k, rest, CodeText(upper, s));
    Verdict(upper, s);
  }

  lemma HeadText(upper: Casing, s: string, pre: string, w: string) returns (a: string, rest: string)
    requires Proper(upper) && LeadsWith(s, pre, w) && WordEnds(upper, s, |pre + w|)
    ensures AllBlank(a) && CodeText(upper, s) == a + Upper(upper, w) + rest
    ensures rest == "" || !IsIdentPart(rest[0])
  {
    hide Upper, Look, Seen;
    LookAtWord(s, pre, w);
    var b := Look(s)[|pre| + |w|..];
    a := Look(s)[..|pre|];
    assert Look(s) == a + w + b;
    TextOfWord(upper, s, a, w, b);
    RestOfText(upper, s, |pre| + |w|);
    rest := Upper(upper, b);
  }

  lemma HeadShows(a: string, k: string, rest: string, n: string)
    requires n == a + k + rest && AllBlank(a) && HeadWord(k)
    requires rest == "" || !IsIdentPart(rest[0])
    ensures BeginsAt(n, |a|) && RowsAt(n, |a|)
  {
    BeginsBehind(a, k, rest, n, k);
  }

  /** One that begins with WITH is a query exactly when no changing word stands in its code. */
  lemma WithIsQuery(upper: Casing, s: string, pre: string, w: string)
    requires Proper(upper) && LeadsWith(s, pre, w) && Upper(upper, w) == "WITH"
    ensures IsQuery(upper, s) <==> forall p: nat | p < |CodeText(upper, s)| :: !ChangeAt(CodeText(upper, s), p)
  {
    hide Upper, Look, IsQuery, Seen;
    LookAtWord(s, pre, w);
    var a, b, n := Look(s)[..|pre|], Look(s)[|pre| + |w|..], CodeText(upper, s);
    assert Look(s) == a + w + b;
    TextOfWord(upper, s, a, w, b);
    BeginsBehind(a, Upper(upper, w), Upper(upper, b), n, "WITH");
    OnlyWithHere(n, |a|);
    Verdict(upper, s);
    forall f: nat | BeginsAt(n, f)
      ensures f == |a|
    {
      OneBeginning(n, f, |a|);
    }
  }

  lemma OnlyWithHere(n: string, f: nat)
    requires Spelt(n, f, "WITH")
    ensures RowsAt(n, f) <==> forall p: nat | p < |n| :: !ChangeAt(n, p)
  {
    SpeltFirst(n, f, "WITH");
    forall k | HeadWord(k)
      ensures !Spelt(n, f, k)
    {
      if Spelt(n, f, k) {
        SpeltFirst(n, f, k);
      }
    }
  }

  lemma SpeltFirst(n: string, p: nat, k: string)
    requires Spelt(n, p, k) && k != ""
    ensures n[p] == k[0]
  {
    assert n[p + 0] == k[0];
  }
}
